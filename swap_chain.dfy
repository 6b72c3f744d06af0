/**
 * The swapchain parameters the renderer derives from the selected device's surface support:
 * surface format, present mode, extent, image count, sharing mode, and the image-view
 * descriptors built for the swapchain's images.
 */
module SwapChain {
  import opened VulkanTypes
  import opened DeviceSelection
  import opened QueueFamilies

  /** `VK_FORMAT_B8G8R8A8_SRGB` in `VK_COLOR_SPACE_SRGB_NONLINEAR_KHR` */
  const PreferredFormat := SurfaceFormat(FormatB8G8R8A8Srgb, ColorSpaceSrgbNonlinear)

  /** The search loop of `chooseSurfaceFormat` from position `i` on. */
  function ScanFormats(formats: seq<SurfaceFormat>, i: nat): (r: SurfaceFormat)
    requires 0 < |formats| && i <= |formats|
    ensures r in formats
    ensures PreferredFormat in formats[i..] ==> r == PreferredFormat
    ensures PreferredFormat !in formats[i..] ==> r == formats[0]
    decreases |formats| - i
  {
    if i == |formats| then formats[0]
    else if formats[i] == PreferredFormat then formats[i]
    else
      assert formats[i..] == [formats[i]] + formats[i + 1..];
      ScanFormats(formats, i + 1)
  }

  /**
   * `chooseSurfaceFormat`: the preferred sRGB format when the surface offers it, otherwise
   * the first format offered.
   */
  function ChooseSurfaceFormat(formats: seq<SurfaceFormat>): (r: SurfaceFormat)
    requires |formats| > 0
    ensures r in formats
    ensures PreferredFormat in formats ==> r == PreferredFormat
    ensures PreferredFormat !in formats ==> r == formats[0]
  {
    assert formats[0..] == formats;
    ScanFormats(formats, 0)
  }

  /** `choosePresentMode`: mailbox when the surface offers it, otherwise FIFO. */
  function ChoosePresentMode(modes: seq<PresentMode>): (r: PresentMode)
    ensures r == PresentModeMailbox <==> PresentModeMailbox in modes
    ensures r == PresentModeFifo <==> PresentModeMailbox !in modes
  {
    if |modes| == 0 then PresentModeFifo
    else if modes[0] == PresentModeMailbox then modes[0]
    else
      assert modes == [modes[0]] + modes[1..];
      ChoosePresentMode(modes[1..])
  }

  /** `v` clamped into `[lo, hi]`: within the bounds, and `v` itself when it already was. */
  predicate ClampedInto(r: U32, v: U32, lo: U32, hi: U32) {
    && lo <= r <= hi
    && (lo <= v <= hi ==> r == v)
    && (v < lo ==> r == lo)
    && (hi < v ==> r == hi)
  }

  /** `std::clamp(v, lo, hi)`, which requires `lo <= hi`. */
  function Clamp(v: U32, lo: U32, hi: U32): (r: U32)
    requires lo <= hi
    ensures ClampedInto(r, v, lo, hi)
  {
    if v < lo then lo else if hi < v then hi else v
  }

  /** The bounds `std::clamp` needs whenever the surface leaves the extent to the swapchain. */
  predicate ExtentBoundsOrdered(caps: SurfaceCapabilities) {
    caps.currentExtent.width == U32Max ==>
      caps.minImageExtent.width <= caps.maxImageExtent.width
      && caps.minImageExtent.height <= caps.maxImageExtent.height
  }

  /**
   * `chooseSwapExtent`: the surface's current extent unless its width is the 0xFFFFFFFF
   * sentinel; then the framebuffer size, cast to unsigned, clamped component-wise into the
   * surface's image-extent bounds.
   */
  function ChooseSwapExtent(caps: SurfaceCapabilities, framebufferWidth: I32, framebufferHeight: I32): (r: Extent)
    requires ExtentBoundsOrdered(caps)
    ensures caps.currentExtent.width != U32Max ==> r == caps.currentExtent
    ensures caps.currentExtent.width == U32Max ==>
      && ClampedInto(r.width, ToU32(framebufferWidth), caps.minImageExtent.width, caps.maxImageExtent.width)
      && ClampedInto(r.height, ToU32(framebufferHeight), caps.minImageExtent.height, caps.maxImageExtent.height)
  {
    if caps.currentExtent.width != U32Max then caps.currentExtent
    else
      var actual := Extent(ToU32(framebufferWidth), ToU32(framebufferHeight));
      Extent(
        Clamp(actual.width, caps.minImageExtent.width, caps.maxImageExtent.width),
        Clamp(actual.height, caps.minImageExtent.height, caps.maxImageExtent.height))
  }

  /** An 800x600 bound pulls a 1024x768 framebuffer down to 800x600. */
  lemma ChooseSwapExtentExample(caps: SurfaceCapabilities)
    requires caps.currentExtent == Extent(U32Max, U32Max)
    requires caps.minImageExtent == Extent(1, 1) && caps.maxImageExtent == Extent(800, 600)
    ensures ChooseSwapExtent(caps, 1024, 768) == Extent(800, 600)
    ensures ChooseSwapExtent(caps, 640, 480) == Extent(640, 480)
  {
  }

  /**
   * The image count requested in `createSwapChain`: `minImageCount + 1` in 32-bit arithmetic,
   * lowered to `maxImageCount` only when the incremented count is non-zero and above it.
   */
  function ImageCount(caps: SurfaceCapabilities): (n: U32)
    ensures n <= caps.maxImageCount
    ensures caps.maxImageCount == 0 ==> n == 0
    ensures caps.minImageCount == U32Max ==> n == 0
    ensures caps.minImageCount < U32Max ==>
      n == if caps.minImageCount + 1 <= caps.maxImageCount then caps.minImageCount + 1 else caps.maxImageCount
  {
    var imageCount: U32 := (caps.minImageCount + 1) % 0x1_0000_0000;
    if imageCount > 0 && imageCount > caps.maxImageCount then caps.maxImageCount else imageCount
  }

  /** With a bound of 3 the request for 2+1 images stands; with maxImageCount 0 the request is 0. */
  lemma ImageCountExamples(caps: SurfaceCapabilities)
    requires caps.minImageCount == 2
    ensures caps.maxImageCount == 3 ==> ImageCount(caps) == 3
    ensures caps.maxImageCount == 0 ==> ImageCount(caps) == 0
  {
  }

  /** The decision fields of `VkSwapchainCreateInfoKHR`. */
  datatype SwapchainCreateInfo = SwapchainCreateInfo(
    minImageCount: U32,
    imageFormat: Format,
    imageColorSpace: ColorSpace,
    presentMode: PresentMode,
    imageExtent: Extent,
    imageArrayLayers: nat,
    sharing: SharingConfig,
    preTransform: nat,
    clipped: bool)

  /** Everything `createSwapChain` puts into the create info from the support details and the queue indices. */
  function BuildSwapchainCreateInfo(details: SwapChainSupportDetails, qi: QueueFamilyIndices,
                                    framebufferWidth: I32, framebufferHeight: I32): (info: SwapchainCreateInfo)
    requires |details.formats| > 0 && qi.IsComplete() && ExtentBoundsOrdered(details.capabilities)
    ensures SurfaceFormat(info.imageFormat, info.imageColorSpace) in details.formats
    ensures PreferredFormat in details.formats ==>
      SurfaceFormat(info.imageFormat, info.imageColorSpace) == PreferredFormat
    ensures info.presentMode == PresentModeMailbox <==> PresentModeMailbox in details.presentModes
    ensures info.presentMode != PresentModeMailbox ==> info.presentMode == PresentModeFifo
    ensures info.minImageCount <= details.capabilities.maxImageCount
    ensures info.sharing.mode == Concurrent <==> qi.graphicsQueue != qi.presentQueue
    ensures details.capabilities.currentExtent.width != U32Max ==> info.imageExtent == details.capabilities.currentExtent
    ensures info.imageArrayLayers == 1 && info.clipped
    // Each field is the corresponding chooser's decision.
    ensures SurfaceFormat(info.imageFormat, info.imageColorSpace) == ChooseSurfaceFormat(details.formats)
    ensures info.presentMode == ChoosePresentMode(details.presentModes)
    ensures info.minImageCount == ImageCount(details.capabilities)
    ensures info.imageExtent == ChooseSwapExtent(details.capabilities, framebufferWidth, framebufferHeight)
    ensures info.sharing == ImageSharing(qi)
    ensures info.preTransform == details.capabilities.currentTransform
  {
    var format := ChooseSurfaceFormat(details.formats);
    SwapchainCreateInfo(
      ImageCount(details.capabilities),
      format.format,
      format.colorSpace,
      ChoosePresentMode(details.presentModes),
      ChooseSwapExtent(details.capabilities, framebufferWidth, framebufferHeight),
      1,
      ImageSharing(qi),
      details.capabilities.currentTransform,
      true)
  }

  /** `VkImageViewType`, `VkComponentSwizzle` and `VkImageAspectFlags` as far as they are used. */
  datatype ImageViewType = ViewType1D | ViewType2D | ViewType3D | ViewTypeCube
  datatype Swizzle = SwizzleIdentity | SwizzleZero | SwizzleOne | SwizzleR | SwizzleG | SwizzleB | SwizzleA
  datatype Aspect = AspectColor | AspectDepth | AspectStencil

  /** `VkImageViewCreateInfo` */
  datatype ImageViewCreateInfo = ImageViewCreateInfo(
    image: nat,
    viewType: ImageViewType,
    format: Format,
    r: Swizzle, g: Swizzle, b: Swizzle, a: Swizzle,
    aspectMask: Aspect,
    baseMipLevel: nat, levelCount: nat,
    baseArrayLayer: nat, layerCount: nat)

  /** A 2D colour view of the whole first mip level and array layer, channels unswizzled. */
  predicate IsPlainColorView(info: ImageViewCreateInfo) {
    && info.viewType == ViewType2D
    && info.r == SwizzleIdentity && info.g == SwizzleIdentity
    && info.b == SwizzleIdentity && info.a == SwizzleIdentity
    && info.aspectMask == AspectColor
    && info.baseMipLevel == 0 && info.levelCount == 1
    && info.baseArrayLayer == 0 && info.layerCount == 1
  }

  /**
   * The descriptor one iteration of `createImageViews` fills in for one swapchain image:
   * a plain colour view of that image in the swapchain's format.
   */
  function ImageViewInfo(image: nat, format: Format): (info: ImageViewCreateInfo)
    ensures IsPlainColorView(info)
    ensures info.image == image && info.format == format
  {
    ImageViewCreateInfo(image, ViewType2D, format,
      SwizzleIdentity, SwizzleIdentity, SwizzleIdentity, SwizzleIdentity,
      AspectColor, 0, 1, 0, 1)
  }

  /** The image view handle of `createImageViews`, represented by the descriptor it was created from. */
  datatype ImageView = NullView | View(info: ImageViewCreateInfo)
}
