/**
 * The data the renderer receives from Vulkan queries, as plain values.
 *
 * Handles and enum values are numbers, 32-bit unsigned fields are `U32`, and the
 * exceptions the renderer throws from device selection on are the variants of `Error`.
 */
module VulkanTypes {

  /** `uint32_t` */
  type U32 = x: int | 0 <= x < 0x1_0000_0000

  /** C `int` (32-bit two's complement) */
  type I32 = x: int | -0x8000_0000 <= x < 0x8000_0000

  const U32Max: U32 := 0xFFFF_FFFF

  /** `static_cast<uint32_t>` of a signed 32-bit value: reduction modulo 2^32. */
  function ToU32(x: I32): (r: U32)
    ensures x >= 0 ==> r == x
    ensures x < 0 ==> r == x + 0x1_0000_0000
  {
    x % 0x1_0000_0000
  }

  /** `VkPhysicalDeviceType` */
  datatype DeviceType = OtherGpu | IntegratedGpu | DiscreteGpu | VirtualGpu | Cpu

  /** `VkFormat` and `VkColorSpaceKHR` values are enum codes. */
  type Format = nat
  type ColorSpace = nat

  const FormatB8G8R8A8Srgb: Format := 50
  const ColorSpaceSrgbNonlinear: ColorSpace := 0

  /** `VkSurfaceFormatKHR` */
  datatype SurfaceFormat = SurfaceFormat(format: Format, colorSpace: ColorSpace)

  /** `VkPresentModeKHR` codes */
  type PresentMode = nat

  const PresentModeImmediate: PresentMode := 0
  const PresentModeMailbox: PresentMode := 1
  const PresentModeFifo: PresentMode := 2

  /** `VkExtent2D` */
  datatype Extent = Extent(width: U32, height: U32)

  /** The fields of `VkSurfaceCapabilitiesKHR` the renderer reads. */
  datatype SurfaceCapabilities = SurfaceCapabilities(
    minImageCount: U32,
    maxImageCount: U32,      // 0 means "no limit" in Vulkan
    currentExtent: Extent,   // width 0xFFFFFFFF means "decided by the swapchain"
    minImageExtent: Extent,
    maxImageExtent: Extent,
    currentTransform: nat)

  /** One `VkQueueFamilyProperties` entry together with the surface-support answer for its index. */
  datatype QueueFamily = QueueFamily(graphics: bool, present: bool)

  /**
   * A physical device, represented by everything the renderer asks the driver about it:
   * its type, the names of its device extensions, the surface capabilities, the surface
   * formats and present modes the driver reports for the window surface, and its queue families.
   */
  datatype Adapter = Adapter(
    deviceType: DeviceType,
    extensions: seq<string>,
    capabilities: SurfaceCapabilities,
    formats: seq<SurfaceFormat>,
    presentModes: seq<PresentMode>,
    queueFamilies: seq<QueueFamily>)

  /** `QueueFamilyIndices`: two optional family indices. */
  datatype QueueFamilyIndices = QueueFamilyIndices(graphicsQueue: Option<nat>, presentQueue: Option<nat>)
  {
    predicate IsComplete() {
      graphicsQueue.Some? && presentQueue.Some?
    }
  }

  const NoIndices := QueueFamilyIndices(None, None)

  /** `VK_KHR_SWAPCHAIN_EXTENSION_NAME` */
  const SwapchainExtensionName: string := "VK_KHR_swapchain"

  /** `requiredExtensions` */
  const RequiredExtensions: seq<string> := [SwapchainExtensionName]

  /**
   * The `std::runtime_error`s the renderer throws, one variant per throw site from
   * device selection on (instance and surface creation are not part of this model).
   */
  datatype Error =
    | NoAdapterFound          // no Vulkan-capable physical device
    | NoSuitableAdapter       // every device scored below zero
    | NoQueueFamilies         // selected device reports no queue families
    | IncompleteQueueSupport  // no graphics or no present family
    | DeviceCreationFailed
    | SwapchainCreationFailed
    | ImageViewCreationFailed

  datatype Option<T> = None | Some(value: T)

  datatype Outcome = Pass | Fail(error: Error)

  datatype Result<T> = Ok(value: T) | Err(error: Error)
}
