/**
 * Queue-family resolution and the two decisions that depend on the resolved indices:
 * the queues requested at device creation and the swapchain's image sharing mode.
 */
module QueueFamilies {
  import opened VulkanTypes

  predicate Combined(f: QueueFamily) {
    f.graphics && f.present
  }

  /**
   * The indices the scan of `findQueueFamilies` holds after visiting families `i..` starting
   * from `qi`: each graphics family overwrites the graphics index and each present family
   * the present index, and the first family with both ends the scan with both set to it.
   */
  function ScanFamilies(families: seq<QueueFamily>, i: nat, qi: QueueFamilyIndices): (r: QueueFamilyIndices)
    requires i <= |families|
    // Each index either keeps its value from `qi` or names a family of `i..` of its own kind.
    ensures r.graphicsQueue == qi.graphicsQueue
      || (r.graphicsQueue.Some? && i <= r.graphicsQueue.value < |families| && families[r.graphicsQueue.value].graphics)
    ensures r.presentQueue == qi.presentQueue
      || (r.presentQueue.Some? && i <= r.presentQueue.value < |families| && families[r.presentQueue.value].present)
    decreases |families| - i
  {
    if i == |families| then qi
    else if Combined(families[i]) then QueueFamilyIndices(Some(i), Some(i))
    else
      ScanFamilies(families, i + 1, QueueFamilyIndices(
        if families[i].graphics then Some(i) else qi.graphicsQueue,
        if families[i].present then Some(i) else qi.presentQueue))
  }

  /**
   * What `findQueueFamilies` reports and leaves in `queueIndices` when it starts from `qi`:
   * an error without touching the indices when there are no families, otherwise the scanned
   * indices and an error when either is still unset.
   */
  function QueueScan(families: seq<QueueFamily>, qi: QueueFamilyIndices): (r: (Outcome, QueueFamilyIndices))
    ensures r.0 == Fail(NoQueueFamilies) <==> |families| == 0
    ensures |families| == 0 ==> r.1 == qi
    ensures r.0 == Pass <==> |families| > 0 && r.1.IsComplete()
    ensures r.0 in {Pass, Fail(NoQueueFamilies), Fail(IncompleteQueueSupport)}
  {
    if |families| == 0 then (Fail(NoQueueFamilies), qi)
    else
      var scanned := ScanFamilies(families, 0, qi);
      (if scanned.IsComplete() then Pass else Fail(IncompleteQueueSupport), scanned)
  }

  /** The outcome of `findQueueFamilies` on a device with these families, from unset indices. */
  function ResolveQueues(families: seq<QueueFamily>): (r: Result<QueueFamilyIndices>)
    ensures r.Err? ==> r.error in {NoQueueFamilies, IncompleteQueueSupport}
    // On success both indices are set and name families of the right kind.
    ensures r.Ok? ==>
      && r.value.IsComplete()
      && r.value.graphicsQueue.value < |families| && families[r.value.graphicsQueue.value].graphics
      && r.value.presentQueue.value < |families| && families[r.value.presentQueue.value].present
  {
    var (outcome, qi) := QueueScan(families, NoIndices);
    if outcome.Pass? then Ok(qi) else Err(outcome.error)
  }

  /** The scan never looks past the first combined family. */
  lemma {:induction false} ScanStopsAtCombined(families: seq<QueueFamily>, i: nat, k: nat, qi: QueueFamilyIndices)
    requires i <= k < |families| && Combined(families[k])
    ensures ScanFamilies(families, i, qi) == ScanFamilies(families[..k + 1], i, qi)
    decreases k - i
  {
    if !Combined(families[i]) {
      ScanStopsAtCombined(families, i + 1, k, QueueFamilyIndices(
        if families[i].graphics then Some(i) else qi.graphicsQueue,
        if families[i].present then Some(i) else qi.presentQueue));
    }
  }

  /** With a combined family in `i..`, the scan ends on the first such family. */
  lemma {:induction false} ScanFindsFirstCombined(families: seq<QueueFamily>, i: nat, qi: QueueFamilyIndices, k: nat)
    requires i <= k < |families| && Combined(families[k])
    requires forall j :: i <= j < k ==> !Combined(families[j])
    ensures ScanFamilies(families, i, qi) == QueueFamilyIndices(Some(k), Some(k))
    decreases k - i
  {
    if i < k {
      ScanFindsFirstCombined(families, i + 1, QueueFamilyIndices(
        if families[i].graphics then Some(i) else qi.graphicsQueue,
        if families[i].present then Some(i) else qi.presentQueue), k);
    }
  }

  /** The two roles a queue family can serve. */
  datatype Role = Graphics | Present

  predicate Serves(f: QueueFamily, role: Role) {
    match role
    case Graphics => f.graphics
    case Present => f.present
  }

  /** `idx` is the last position of `i..` whose family serves `role`, or `fallback` when none does. */
  predicate IsLastWith(families: seq<QueueFamily>, i: nat, role: Role, fallback: Option<nat>, idx: Option<nat>)
    requires i <= |families|
  {
    if exists j :: i <= j < |families| && Serves(families[j], role) then
      idx.Some? && i <= idx.value < |families| && Serves(families[idx.value], role)
      && forall j :: idx.value < j < |families| ==> !Serves(families[j], role)
    else idx == fallback
  }

  /** Without a combined family in `i..`, each index ends on the last family of its kind. */
  lemma {:induction false} ScanKeepsLast(families: seq<QueueFamily>, i: nat, qi: QueueFamilyIndices)
    requires i <= |families|
    requires forall j :: i <= j < |families| ==> !Combined(families[j])
    ensures IsLastWith(families, i, Graphics, qi.graphicsQueue, ScanFamilies(families, i, qi).graphicsQueue)
    ensures IsLastWith(families, i, Present, qi.presentQueue, ScanFamilies(families, i, qi).presentQueue)
    decreases |families| - i
  {
    if i < |families| {
      var next := QueueFamilyIndices(
        if families[i].graphics then Some(i) else qi.graphicsQueue,
        if families[i].present then Some(i) else qi.presentQueue);
      ScanKeepsLast(families, i + 1, next);
      assert ScanFamilies(families, i, qi) == ScanFamilies(families, i + 1, next);
    }
  }

  /**
   * A device with a family supporting both graphics and presentation gets the first such
   * family for both roles.
   */
  lemma ResolvePrefersCombined(families: seq<QueueFamily>, k: nat)
    requires k < |families| && Combined(families[k])
    requires forall j :: 0 <= j < k ==> !Combined(families[j])
    ensures ResolveQueues(families) == Ok(QueueFamilyIndices(Some(k), Some(k)))
  {
    ScanFindsFirstCombined(families, 0, NoIndices, k);
  }

  /**
   * A device without a combined family gets the last graphics-capable family and the last
   * present-capable family.
   */
  lemma ResolveWithoutCombined(families: seq<QueueFamily>)
    requires forall j :: 0 <= j < |families| ==> !Combined(families[j])
    ensures ResolveQueues(families).Ok? ==>
      var qi := ResolveQueues(families).value;
      && qi.graphicsQueue.value < |families| && qi.presentQueue.value < |families|
      && families[qi.graphicsQueue.value].graphics && families[qi.presentQueue.value].present
      && (forall j :: qi.graphicsQueue.value < j < |families| ==> !families[j].graphics)
      && (forall j :: qi.presentQueue.value < j < |families| ==> !families[j].present)
      && qi.graphicsQueue != qi.presentQueue
  {
    if |families| > 0 {
      ScanKeepsLast(families, 0, NoIndices);
    }
  }

  /**
   * Resolution succeeds exactly when the device has at least one graphics-capable and
   * at least one present-capable family.
   */
  lemma ResolveSucceeds(families: seq<QueueFamily>)
    ensures ResolveQueues(families) == Err(NoQueueFamilies) <==> |families| == 0
    ensures ResolveQueues(families).Ok? <==>
      (exists j :: 0 <= j < |families| && families[j].graphics)
      && (exists j :: 0 <= j < |families| && families[j].present)
  {
    if |families| > 0 {
      if exists k :: 0 <= k < |families| && Combined(families[k]) {
        var k := FirstCombined(families);
        ScanFindsFirstCombined(families, 0, NoIndices, k);
      } else {
        ScanKeepsLast(families, 0, NoIndices);
      }
    }
  }

  /** The position of the first combined family. */
  function FirstCombined(families: seq<QueueFamily>): (k: nat)
    requires exists k :: 0 <= k < |families| && Combined(families[k])
    ensures k < |families| && Combined(families[k])
    ensures forall j :: 0 <= j < k ==> !Combined(families[j])
  {
    if Combined(families[0]) then 0
    else
      assert exists k :: 0 <= k < |families| - 1 && Combined(families[1..][k]) by {
        var k :| 0 <= k < |families| && Combined(families[k]);
        assert families[1..][k - 1] == families[k];
      }
      1 + FirstCombined(families[1..])
  }

  /** `VkDeviceQueueCreateInfo`, as far as the renderer fills it. */
  datatype DeviceQueueCreateInfo = DeviceQueueCreateInfo(queueFamilyIndex: nat, queueCount: nat)

  /**
   * The queue create infos of `createLogicalDevice`: one per element of the ordered set
   * {present, graphics}, in ascending order, each asking for one queue.
   */
  function QueueCreateInfos(qi: QueueFamilyIndices): (infos: seq<DeviceQueueCreateInfo>)
    requires qi.IsComplete()
    ensures |infos| == if qi.graphicsQueue == qi.presentQueue then 1 else 2
    ensures forall j :: 0 <= j < |infos| ==> infos[j].queueCount == 1
    ensures forall j, l :: 0 <= j < l < |infos| ==> infos[j].queueFamilyIndex < infos[l].queueFamilyIndex
    ensures (set j | 0 <= j < |infos| :: infos[j].queueFamilyIndex) == {qi.graphicsQueue.value, qi.presentQueue.value}
  {
    var g, p := qi.graphicsQueue.value, qi.presentQueue.value;
    var infos :=
      if g == p then [DeviceQueueCreateInfo(g, 1)]
      else if g < p then [DeviceQueueCreateInfo(g, 1), DeviceQueueCreateInfo(p, 1)]
      else [DeviceQueueCreateInfo(p, 1), DeviceQueueCreateInfo(g, 1)];
    assert infos[0].queueFamilyIndex in (set j | 0 <= j < |infos| :: infos[j].queueFamilyIndex);
    assert infos[|infos| - 1].queueFamilyIndex in (set j | 0 <= j < |infos| :: infos[j].queueFamilyIndex);
    infos
  }

  /** `VkSharingMode` */
  datatype SharingMode = Exclusive | Concurrent

  /** The sharing fields of `VkSwapchainCreateInfoKHR`; an empty index list stands for the null pointer. */
  datatype SharingConfig = SharingConfig(mode: SharingMode, queueFamilyIndexCount: nat, queueFamilyIndices: seq<nat>)

  /**
   * Swapchain images are shared concurrently between two distinct graphics and present
   * families and owned exclusively when one family does both.
   */
  function ImageSharing(qi: QueueFamilyIndices): (c: SharingConfig)
    requires qi.IsComplete()
    ensures c.mode == Concurrent <==> qi.graphicsQueue != qi.presentQueue
    ensures c.queueFamilyIndexCount == |c.queueFamilyIndices|
    ensures c.mode == Concurrent ==> c.queueFamilyIndices == [qi.graphicsQueue.value, qi.presentQueue.value]
    ensures c.mode == Exclusive ==> c.queueFamilyIndices == []
  {
    if qi.graphicsQueue != qi.presentQueue then
      SharingConfig(Concurrent, 2, [qi.graphicsQueue.value, qi.presentQueue.value])
    else
      SharingConfig(Exclusive, 0, [])
  }

  /** One queue create info per distinct family, and concurrent sharing exactly when there are two. */
  lemma SharingMatchesQueueCount(qi: QueueFamilyIndices)
    requires qi.IsComplete()
    ensures ImageSharing(qi).mode == Concurrent <==> |QueueCreateInfos(qi)| == 2
    ensures ImageSharing(qi).mode == Exclusive <==> |QueueCreateInfos(qi)| == 1
  {
  }
}
