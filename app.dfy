/**
 * The renderer object (`testApp`): the fields its initialisation steps fill in, and the
 * steps themselves from device selection to image-view creation. Every Vulkan call is
 * replaced by the data it would return or by its success as an input.
 */
module Prism {
  import opened VulkanTypes
  import opened DeviceSelection
  import opened QueueFamilies
  import opened SwapChain

  /**
   * How many image views `createImageViews` creates before the first rejected one: all of
   * them exactly when no image is rejected, and otherwise the rejected image is image `n`.
   */
  function ViewsCreated(imageCount: nat, firstFailure: Option<nat>): (n: nat)
    ensures n <= imageCount
    ensures n == imageCount <==> forall j :: 0 <= j < imageCount ==> firstFailure != Some(j)
    ensures n < imageCount ==> firstFailure == Some(n)
  {
    if firstFailure.Some? && firstFailure.value < imageCount then firstFailure.value else imageCount
  }

  class App {
    const requiredExtensions: seq<string>
    var graphicsCard: Option<Adapter>
    var queueIndices: QueueFamilyIndices
    var swapChainImages: seq<nat>
    var imageViews: array<ImageView>
    var swapChainImageFormat: Format
    var swapChainExtent: Extent

    constructor ()
      ensures requiredExtensions == RequiredExtensions
      ensures graphicsCard == None && queueIndices == NoIndices
      ensures swapChainImages == [] && imageViews.Length == 0
    {
      requiredExtensions := RequiredExtensions;
      graphicsCard := None;
      queueIndices := NoIndices;
      swapChainImages := [];
      imageViews := new ImageView[0];
      swapChainImageFormat := 0;
      swapChainExtent := Extent(0, 0);
    }

    /**
     * `filterBestSuitablePhysicalDevice`: score each device afresh, insert (score, device)
     * into the ordered multimap, and take the entry at `rbegin()`.
     */
    method FilterBestSuitablePhysicalDevice(devices: seq<Adapter>) returns (out: Outcome)
      requires |devices| > 0
      modifies this`graphicsCard
      ensures var selection := SelectAdapter(devices, requiredExtensions);
        && (selection.Ok? ==> out == Pass && graphicsCard == Some(devices[selection.value]))
        && (selection.Err? ==> out == Fail(selection.error) && graphicsCard == old(graphicsCard))
    {
      ghost var scores := Scores(devices, requiredExtensions);
      var orderedDevices: seq<Entry> := [];
      var score := 0;
      for i := 0 to |devices|
        invariant score == 0 && graphicsCard == old(graphicsCard)
        invariant SortedByKey(orderedDevices) && |orderedDevices| == i
        invariant i > 0 ==>
          orderedDevices[i - 1] == (scores[LastMaxIndex(scores[..i])], LastMaxIndex(scores[..i]))
      {
        var device := devices[i];
        var swapChainSupport := QuerySwapChainSupport(device);
        if device.deviceType == DiscreteGpu {
          score := score + 1;
        }
        var supported := SupportsExtensions(requiredExtensions, device.extensions);
        if !supported || |swapChainSupport.formats| == 0 || |swapChainSupport.presentModes| == 0 {
          score := -1;
        }
        assert score == scores[i];
        InsertKeepsLastMax(orderedDevices, scores, i);
        orderedDevices := MultimapInsert(orderedDevices, score, i);
        score := 0;
      }
      assert scores[..|devices|] == scores;
      var best := orderedDevices[|orderedDevices| - 1];
      if best.0 < 0 {
        return Fail(NoSuitableAdapter);
      }
      graphicsCard := Some(devices[best.1]);
      out := Pass;
    }

    /**
     * `findQueueFamilies`: scan the families in index order, overwriting the graphics and
     * present indices, and stop at the first family that supports both.
     */
    method FindQueueFamilies(device: Adapter) returns (out: Outcome)
      modifies this`queueIndices
      ensures (out, queueIndices) == QueueScan(device.queueFamilies, old(queueIndices))
    {
      var queueFamilies := device.queueFamilies;
      if |queueFamilies| == 0 {
        return Fail(NoQueueFamilies);
      }
      var presentSupport := false;
      var i := 0;
      while i < |queueFamilies|
        invariant 0 <= i <= |queueFamilies|
        invariant ScanFamilies(queueFamilies, i, queueIndices) == ScanFamilies(queueFamilies, 0, old(queueIndices))
      {
        presentSupport := queueFamilies[i].present;
        if queueFamilies[i].graphics {
          queueIndices := queueIndices.(graphicsQueue := Some(i));
          if presentSupport {
            queueIndices := queueIndices.(presentQueue := Some(i));
            break;
          }
        }
        if presentSupport {
          queueIndices := queueIndices.(presentQueue := Some(i));
        }
        i := i + 1;
      }
      if !queueIndices.IsComplete() {
        return Fail(IncompleteQueueSupport);
      }
      out := Pass;
    }

    /** `selectGraphicCard`: fail on an empty enumeration, pick a device, then resolve its queues. */
    method SelectGraphicCard(devices: seq<Adapter>) returns (out: Outcome)
      modifies this`graphicsCard, this`queueIndices
      ensures var selection := SelectAdapter(devices, requiredExtensions);
        && (selection.Err? ==>
              out == Fail(selection.error) && graphicsCard == old(graphicsCard) && queueIndices == old(queueIndices))
        && (selection.Ok? ==>
              graphicsCard == Some(devices[selection.value])
              && (out, queueIndices) == QueueScan(devices[selection.value].queueFamilies, old(queueIndices)))
    {
      if |devices| == 0 {
        return Fail(NoAdapterFound);
      }
      out := FilterBestSuitablePhysicalDevice(devices);
      if out.Fail? {
        return;
      }
      out := FindQueueFamilies(graphicsCard.value);
    }

    /**
     * The data `createLogicalDevice` hands to `vkCreateDevice`: one queue per distinct family
     * and the required extensions. Whether the driver accepts it is the input `deviceCreated`.
     */
    method CreateLogicalDevice(deviceCreated: bool)
      returns (out: Outcome, queueCreateInfos: seq<DeviceQueueCreateInfo>, enabledExtensions: seq<string>)
      requires queueIndices.IsComplete()
      ensures queueCreateInfos == QueueCreateInfos(queueIndices)
      ensures enabledExtensions == requiredExtensions
      ensures out == if deviceCreated then Pass else Fail(DeviceCreationFailed)
    {
      queueCreateInfos := QueueCreateInfos(queueIndices);
      enabledExtensions := requiredExtensions;
      out := if deviceCreated then Pass else Fail(DeviceCreationFailed);
    }

    /**
     * `createSwapChain`: record the chosen format and extent, build the create info, and on
     * success keep the images the driver returns. The framebuffer size, the driver's verdict
     * and its images are inputs.
     */
    method CreateSwapChain(framebufferWidth: I32, framebufferHeight: I32, swapchainCreated: bool, driverImages: seq<nat>)
      returns (out: Outcome, createInfo: SwapchainCreateInfo)
      requires graphicsCard.Some? && |graphicsCard.value.formats| > 0
      requires ExtentBoundsOrdered(graphicsCard.value.capabilities)
      requires queueIndices.IsComplete()
      modifies this`swapChainImageFormat, this`swapChainExtent, this`swapChainImages
      ensures createInfo == BuildSwapchainCreateInfo(
        QuerySwapChainSupport(graphicsCard.value), queueIndices, framebufferWidth, framebufferHeight)
      ensures swapChainImageFormat == createInfo.imageFormat && swapChainExtent == createInfo.imageExtent
      ensures out == if swapchainCreated then Pass else Fail(SwapchainCreationFailed)
      ensures swapChainImages == if swapchainCreated then driverImages else old(swapChainImages)
    {
      var details := QuerySwapChainSupport(graphicsCard.value);
      createInfo := BuildSwapchainCreateInfo(details, queueIndices, framebufferWidth, framebufferHeight);
      swapChainImageFormat := createInfo.imageFormat;
      swapChainExtent := createInfo.imageExtent;
      if !swapchainCreated {
        out := Fail(SwapchainCreationFailed);
        return;
      }
      swapChainImages := driverImages;
      out := Pass;
    }

    /**
     * `createImageViews`: a fresh array with one slot per swapchain image, filled in order
     * with the view of that image until the driver rejects one (at `firstFailure`, if any).
     */
    method CreateImageViews(firstFailure: Option<nat>) returns (out: Outcome)
      modifies this`imageViews
      ensures fresh(imageViews) && imageViews.Length == |swapChainImages|
      ensures var made := ViewsCreated(|swapChainImages|, firstFailure);
        && (out == if made < |swapChainImages| then Fail(ImageViewCreationFailed) else Pass)
        && forall j :: 0 <= j < imageViews.Length ==>
             imageViews[j] == if j < made then View(ImageViewInfo(swapChainImages[j], swapChainImageFormat)) else NullView
    {
      imageViews := new ImageView[|swapChainImages|](_ => NullView);
      for i := 0 to |swapChainImages|
        invariant fresh(imageViews) && imageViews.Length == |swapChainImages|
        invariant firstFailure.Some? ==> i <= firstFailure.value
        invariant forall j :: 0 <= j < imageViews.Length ==>
          imageViews[j] == if j < i then View(ImageViewInfo(swapChainImages[j], swapChainImageFormat)) else NullView
      {
        var createInfo := ImageViewInfo(swapChainImages[i], swapChainImageFormat);
        if firstFailure == Some(i) {
          return Fail(ImageViewCreationFailed);
        }
        imageViews[i] := View(createInfo);
      }
      out := Pass;
    }

    /**
     * `initVulkan` from device selection on (instance and surface creation are not modelled).
     * On success the selected device has surface formats, both queue indices are set, and
     * there is one plain colour view per swapchain image, in image order.
     */
    method InitVulkan(devices: seq<Adapter>, framebufferWidth: I32, framebufferHeight: I32,
                      deviceCreated: bool, swapchainCreated: bool, driverImages: seq<nat>, firstViewFailure: Option<nat>)
      returns (out: Outcome)
      requires forall d :: d in devices ==> ExtentBoundsOrdered(d.capabilities)
      modifies this`graphicsCard, this`queueIndices, this`swapChainImageFormat, this`swapChainExtent,
               this`swapChainImages, this`imageViews
      // Each stage's error, in the order the stages run.
      ensures var selection := SelectAdapter(devices, requiredExtensions);
        selection.Err? ==>
          out == Fail(selection.error) && graphicsCard == old(graphicsCard) && queueIndices == old(queueIndices)
      ensures var selection := SelectAdapter(devices, requiredExtensions);
        selection.Ok? ==>
          var scan := QueueScan(devices[selection.value].queueFamilies, old(queueIndices));
          var viewFailed := ViewsCreated(|driverImages|, firstViewFailure) < |driverImages|;
          && graphicsCard == Some(devices[selection.value])
          && queueIndices == scan.1
          && (scan.0.Fail? ==> out == scan.0)
          && (scan.0.Pass? && !deviceCreated ==> out == Fail(DeviceCreationFailed))
          && (scan.0.Pass? && deviceCreated && !swapchainCreated ==> out == Fail(SwapchainCreationFailed))
          && (scan.0.Pass? && deviceCreated && swapchainCreated && viewFailed ==> out == Fail(ImageViewCreationFailed))
      // Initialisation succeeds exactly when every stage does.
      ensures out == Pass <==>
        var selection := SelectAdapter(devices, requiredExtensions);
        && selection.Ok?
        && QueueScan(devices[selection.value].queueFamilies, old(queueIndices)).0 == Pass
        && deviceCreated && swapchainCreated
        && ViewsCreated(|driverImages|, firstViewFailure) == |driverImages|
      ensures out == Pass ==>
        && queueIndices.IsComplete()
        && swapChainImageFormat == ChooseSurfaceFormat(graphicsCard.value.formats).format
        && swapChainImages == driverImages
        && imageViews.Length == |driverImages|
        && forall j :: 0 <= j < imageViews.Length ==>
             && imageViews[j].View? && imageViews[j].info.image == driverImages[j]
             && imageViews[j].info.format == swapChainImageFormat && IsPlainColorView(imageViews[j].info)
    {
      out := SelectGraphicCard(devices);
      if out.Fail? {
        return;
      }
      var queueCreateInfos, enabledExtensions;
      out, queueCreateInfos, enabledExtensions := CreateLogicalDevice(deviceCreated);
      if out.Fail? {
        return;
      }
      var createInfo;
      out, createInfo := CreateSwapChain(framebufferWidth, framebufferHeight, swapchainCreated, driverImages);
      if out.Fail? {
        return;
      }
      out := CreateImageViews(firstViewFailure);
    }
  }
}
