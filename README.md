# prism_engine: verified model of the Vulkan selection and configuration rules

prism_engine is a small Vulkan renderer. Its `testApp` creates a window, an instance and a
surface, selects a graphics card and its queue families, and creates a logical device, a
swapchain and the swapchain's image views. This project models the decision logic of those
steps. It covers:

- the device-extension check;
- the per-device score and the `std::multimap` the best device is taken from;
- the queue-family scan;
- the surface-format, present-mode, extent and image-count choices;
- the image sharing mode and the per-family queue create infos;
- the image-view descriptors.

The model represents each Vulkan query result as plain data. An `Adapter` value stands for a
physical device and holds what the driver would report about it. Vulkan calls that create
objects become inputs saying whether they succeed, and each `throw` from device selection on becomes an `Error` variant
(instance and surface creation, whose throws have no variant, are listed under "## Left out").

Files:

- `vulkan_types.dfy` (module `VulkanTypes`): the query results, 32-bit integer types, Vulkan
  constants, `QueueFamilyIndices` and the error variants.
- `device_selection.dfy` (module `DeviceSelection`): the extension check, `querySwapChainSupport`
  as data, the score, and the multimap as a sorted sequence of `(score, position)` entries.
  The module also has a reference definition of the choice (last position of the maximum
  score) and the selection lemmas.
- `queue_families.dfy` (module `QueueFamilies`): the queue-family scan as a function, with lemmas
  on its outcome. It also holds the unique-family queue create infos and the sharing mode.
- `swap_chain.dfy` (module `SwapChain`): the swapchain parameter choosers, the create info they
  feed, and the image-view descriptor.
- `app.dfy` (module `Prism`): class `App` with the fields `testApp` updates in place, and the
  methods that update them. Each method is proved against the functions above.

### Behaviour worth noting

- **Queue families.** The scan overwrites an index on every family that matches, so on a device
  without a family that does both it keeps the *last* graphics-capable and the *last*
  present-capable family, not the first (`QueueFamilies.ResolveWithoutCombined`).
- **Image count.** Vulkan uses `maxImageCount == 0` to mean "no upper limit". The code lowers
  the count to `maxImageCount` only when the incremented count is non-zero and above it, and it
  tests `imageCount > 0` rather than `maxImageCount > 0`, so a surface with no limit gets a
  request for 0 images (`SwapChain.ImageCount`, `SwapChain.ImageCountExamples`).
- **Adapter ties.** The winner is `rbegin()` of a `std::multimap`, whose equal keys keep their
  insertion order, so among equally scored devices the last one in enumeration order wins
  (`DeviceSelection.SelectAdapter`).

## Model

| member | source | states |
|---|---|---|
| `VulkanTypes.ToU32` | prism.cpp:276-279 | `static_cast<uint32_t>` of a C `int` keeps non-negative values and adds 2^32 to negative ones |
| `DeviceSelection.SupportsExtensions` | prism.cpp:131-146 | after erasing every available name from the set of required names, the result is true exactly when every required name is available; extra available names do not matter |
| `DeviceSelection.QuerySwapChainSupport` | prism.cpp:237-255 | the details carry the device's capabilities and formats unchanged. Present modes are reported exactly when the device has both formats and present modes, and are then the driver's list |
| `DeviceSelection.NoFormatsDisqualifies` | prism.cpp:242-253 | a device without surface formats is disqualified whatever present modes it has; a qualified device has formats and present modes, and its details are the driver's data unchanged |
| `DeviceSelection.Score` | prism.cpp:154-165 | a device's score is -1, 0 or 1. It is -1 exactly when an extension is missing, there are no formats or there are no present modes. Otherwise it is 1 for a discrete GPU and 0 for any other type |
| `DeviceSelection.LastMaxIndex` | prism.cpp:171-174 | the reference choice: a position whose score is at least every other score, and after which every score is strictly lower |
| `DeviceSelection.UpperBound` | prism.cpp:167 | in a key-sorted multimap, the insertion point: every entry before it has a key at most the new key, every entry after it a greater key |
| `DeviceSelection.MultimapInsert` | prism.cpp:167 | multimap insertion keeps the entries sorted by key and adds exactly the new entry. The new entry goes right after every entry with a key at most its own and before every greater key, so equal keys stay in insertion order; it is last unless some existing key is greater |
| `DeviceSelection.InsertKeepsLastMax` | prism.cpp:154-170 | after inserting the scores in enumeration order, the multimap's last entry (`rbegin()`) is the maximum score so far, paired with the last position that has it |
| `DeviceSelection.SelectAdapter` | prism.cpp:119-174 | selection succeeds exactly when some device is qualified, and its only errors are "no device", exactly when the enumeration is empty, and "no suitable card", exactly when every device is disqualified. On success the chosen device is not disqualified and has the maximum score, and every later device scores strictly lower, so among tied devices the last one wins |
| `DeviceSelection.SelectAdapterPrefersDiscrete` | prism.cpp:160-162 | if some qualified device is discrete, selection succeeds and chooses a discrete device |
| `Prism.App.FilterBestSuitablePhysicalDevice` | prism.cpp:147-175 | the loop resets the score for each device, scores it, inserts it into the multimap and takes the last entry. It assigns `graphicsCard` the device the reference choice names, or fails and leaves the field untouched |
| `QueueFamilies.ScanFamilies` | prism.cpp:186-201 | after the scan each index either keeps its starting value or names a family of its own kind at or after the scan's start |
| `QueueFamilies.QueueScan` | prism.cpp:176-206 | the call fails with "no queue families" exactly when there are none, leaving the indices as they were. Otherwise it passes exactly when both scanned indices are set, and fails with "incomplete support" when not |
| `QueueFamilies.ResolveQueues` | prism.cpp:176-206 | from unset indices, the only errors are "no queue families" and "incomplete support"; on success both indices are set, the graphics index names a graphics-capable family and the present index a present-capable one |
| `QueueFamilies.ScanStopsAtCombined` | prism.cpp:191-196 | the scan never looks past the first family that supports both graphics and presentation: families after it do not affect the result |
| `QueueFamilies.ScanFindsFirstCombined` | prism.cpp:188-196 | when a family supporting both roles exists, the scan ends with both indices equal to the first such family |
| `QueueFamilies.ScanKeepsLast` | prism.cpp:188-202 | when no family in the range supports both roles, each index ends on the last family of its kind, or keeps its previous value if there is none |
| `QueueFamilies.ResolvePrefersCombined` | prism.cpp:191-196 | from unset indices, a device with a combined family gets the first such family for both roles |
| `QueueFamilies.ResolveWithoutCombined` | prism.cpp:188-205 | from unset indices, a device without a combined family gets the last graphics-capable and the last present-capable family, and these two differ |
| `QueueFamilies.ResolveSucceeds` | prism.cpp:176-206 | the scan fails on zero families. Otherwise it succeeds exactly when some family supports graphics and some family supports presentation |
| `QueueFamilies.FirstCombined` | prism.cpp:191-196 | the position of the first family supporting both roles: such a family, with none before it |
| `Prism.App.FindQueueFamilies` | prism.cpp:176-206 | the loop with `break` leaves in `queueIndices` exactly what the scan function gives from the old indices. It reports the no-family and incomplete-support errors |
| `Prism.App.SelectGraphicCard` | prism.cpp:118-130 | an empty enumeration fails. Otherwise the best device is selected and its queue families are resolved, and a failed selection changes no field |
| `QueueFamilies.QueueCreateInfos` | prism.cpp:211-221 | one queue create info per distinct family in {graphics, present}, in ascending index order, each asking for one queue: 1 entry when the indices are equal, 2 when they differ |
| `QueueFamilies.ImageSharing` | prism.cpp:317-327 | sharing is concurrent over [graphics, present] exactly when the indices differ. Otherwise it is exclusive with a count of 0 and no index list |
| `QueueFamilies.SharingMatchesQueueCount` | prism.cpp:211-221 | concurrent sharing occurs exactly when two queue create infos are requested, exclusive sharing exactly when one is |
| `Prism.App.CreateLogicalDevice` | prism.cpp:207-236 | the device is requested with the unique-family queue create infos and the required extensions. It fails when the driver rejects it |
| `SwapChain.ScanFormats` | prism.cpp:257-260 | the search from a position returns a format from the list. It returns the preferred format if that occurs from there on, otherwise element 0 |
| `SwapChain.ChooseSurfaceFormat` | prism.cpp:256-261 | the result is always one of the offered formats. It is B8G8R8A8_SRGB/SRGB_NONLINEAR when offered, otherwise the first format |
| `SwapChain.ChoosePresentMode` | prism.cpp:262-267 | the result is MAILBOX exactly when MAILBOX is offered, and FIFO exactly when it is not |
| `SwapChain.Clamp` | prism.cpp:280-281 | the result lies within [lo, hi], equals `v` when `v` already does, and is the nearer bound otherwise |
| `SwapChain.ChooseSwapExtent` | prism.cpp:268-285 | if the current width is not 0xFFFFFFFF, the current extent is returned as is (only the width is tested). Otherwise each component is the framebuffer size clamped into [min, max], unchanged when already inside |
| `SwapChain.ChooseSwapExtentExample` | prism.cpp:276-283 | a 1024x768 framebuffer with bounds (1,1)-(800,600) yields 800x600; a 640x480 framebuffer stays 640x480 |
| `SwapChain.ImageCount` | prism.cpp:296-300 | the requested count never exceeds `maxImageCount`. It is 0 when `maxImageCount` is 0 or when `minImageCount + 1` wraps to 0. Otherwise it is `min(minImageCount + 1, maxImageCount)` |
| `SwapChain.ImageCountExamples` | prism.cpp:296-300 | with minImageCount 2, a bound of 3 requests 3 images and a bound of 0 requests 0 |
| `SwapChain.BuildSwapchainCreateInfo` | prism.cpp:287-327 | the create info's format, present mode, image count, extent and sharing are exactly the choosers' decisions, and its pre-transform is the surface's current transform. Hence it has an offered format (the preferred one when offered), MAILBOX exactly when offered and FIFO otherwise, a count within `maxImageCount`, concurrent sharing exactly when the queue indices differ, one layer and clipping |
| `Prism.App.CreateSwapChain` | prism.cpp:286-334 | the chosen format and extent are stored before the create call. On success the driver's images become `swapChainImages`, and a rejected create call fails with those images unchanged |
| `SwapChain.ImageViewInfo` | prism.cpp:339-353 | each view descriptor is a 2D colour view of its own image in the swapchain format, with identity swizzles, mip level 0 only and array layer 0 only |
| `Prism.App.CreateImageViews` | prism.cpp:335-359 | a fresh array has one slot per swapchain image. Slot j holds the view of image j until the first rejected view, which makes the call fail; later slots stay null |
| `Prism.App.InitVulkan` | prism.cpp:70-78 | the stages run in order and the first failing one decides the error: selection, queue resolution, device creation, swapchain creation, then image views. Initialisation succeeds exactly when every stage does, and then the selected device and both queue indices are set, the swapchain format is the chosen one, and there is one plain colour view per driver image, in image order and in that format |
| `Prism.App.constructor` | prism.cpp:33-58 | a fresh renderer has no selected device, unset queue indices, no images and no views, and requires only the swapchain extension |

## Left out

- Window creation, event polling and the main loop (prism.cpp:60-69, 79-83): GLFW input/output with no decision logic.
- Instance and surface creation (prism.cpp:96-117): calls into Vulkan and GLFW. `Prism.App.InitVulkan` starts after them, from the enumerated devices.
- `vkCreateDevice`, `vkCreateSwapchainKHR`, `vkGetSwapchainImagesKHR` and `vkCreateImageView` are foreign calls. Their success and the images they return are method inputs. `vkGetDeviceQueue` is not modelled.
- `cleanup` (prism.cpp:84-94) is a sequence of destroy calls and is not modelled. It destroys the instance before the device (lines 89-90), an order Vulkan does not allow.
- `createGraphicsPipeline` (prism.cpp:360-362) has an empty body. The source has no render pass, pipeline, frame synchronisation or command recording, so the model has none either.
- Device features and the device name (prism.cpp:151-156, 168) are queried or logged but never used, so they are not modelled. The floating-point `queuePriority` (prism.cpp:212) and `main`'s exit-code mapping (prism.cpp:365-374) are also left out.
- `SwapChain.ChooseSurfaceFormat` requires a non-empty format list. Indexing element 0 of an empty list is undefined in the source. The only caller passes the selected device's formats, which are non-empty because a device without formats scores -1.
- `SwapChain.ChooseSwapExtent` requires min ≤ max extents when the width is the sentinel. `std::clamp` is undefined otherwise, and Vulkan guarantees the ordering.
- `Prism.App.CreateImageViews` allocates a fresh array where the source resizes a vector. Since the source calls it once on an empty vector, the two agree. The model assumes a rejected `vkCreateImageView` leaves its slot null. Views created before the failure are not released, as in the source.
- `Prism.App.CreateSwapChain` keeps the format and extent choices but not the constant fields (usage, composite alpha, structure type) of the create info.
- Physical-device handles are the `Adapter` records themselves. Two devices that report identical data cannot be told apart after selection. The selection lemmas speak about enumeration positions.
