/**
 * Physical-device selection: the device-extension check, the surface-support query as
 * data, the per-device score, and the ordered multimap the renderer picks the winner from.
 */
module DeviceSelection {
  import opened VulkanTypes

  /** Every required extension name occurs among the available names. */
  predicate HasExtensions(required: seq<string>, available: seq<string>) {
    forall name :: name in required ==> name in available
  }

  /**
   * `physicalDeviceSupportsExtensions`: start from the set of required names, erase every
   * available name, and succeed when nothing is left.
   */
  method SupportsExtensions(required: seq<string>, available: seq<string>) returns (supported: bool)
    ensures supported <==> HasExtensions(required, available)
  {
    var missing := set name | name in required;
    for i := 0 to |available|
      invariant forall name :: name in missing <==> name in required && name !in available[..i]
    {
      missing := missing - {available[i]};
    }
    assert available[..|available|] == available;
    supported := missing == {};
  }

  /** `SwapChainSupportDetails` */
  datatype SwapChainSupportDetails = SwapChainSupportDetails(
    capabilities: SurfaceCapabilities,
    formats: seq<SurfaceFormat>,
    presentModes: seq<PresentMode>)

  /**
   * `querySwapChainSupport` as data: present modes are fetched only when the format
   * count is non-zero, so a device without formats also reports no present modes.
   */
  function QuerySwapChainSupport(a: Adapter): (d: SwapChainSupportDetails)
    ensures d.capabilities == a.capabilities && d.formats == a.formats
    ensures |d.presentModes| > 0 <==> |a.formats| > 0 && |a.presentModes| > 0
    ensures |d.presentModes| > 0 ==> d.presentModes == a.presentModes
  {
    SwapChainSupportDetails(
      a.capabilities,
      a.formats,
      if |a.formats| != 0 then a.presentModes else [])
  }

  /** The condition under which a device's score is forced to -1. */
  predicate Disqualified(a: Adapter, required: seq<string>) {
    var details := QuerySwapChainSupport(a);
    !HasExtensions(required, a.extensions) || |details.formats| == 0 || |details.presentModes| == 0
  }

  /**
   * A device without surface formats is disqualified whatever present modes the driver
   * would report; a qualified device's support details are the driver's data unchanged.
   */
  lemma NoFormatsDisqualifies(a: Adapter, required: seq<string>)
    ensures |a.formats| == 0 ==> Disqualified(a, required)
    ensures !Disqualified(a, required) ==>
      && |a.formats| > 0 && |a.presentModes| > 0
      && QuerySwapChainSupport(a) == SwapChainSupportDetails(a.capabilities, a.formats, a.presentModes)
  {
  }

  /**
   * The score one iteration of the selection loop computes for a device: -1, 0 or 1,
   * determined by the device's own data alone.
   */
  function Score(a: Adapter, required: seq<string>): (s: int)
    ensures s in {-1, 0, 1}
    ensures s == -1 <==>
      (!HasExtensions(required, a.extensions) || |a.formats| == 0 || |a.presentModes| == 0)
    ensures s == 1 <==> (s != -1 && a.deviceType == DiscreteGpu)
    ensures s == 0 <==> (s != -1 && a.deviceType != DiscreteGpu)
  {
    if Disqualified(a, required) then -1
    else if a.deviceType == DiscreteGpu then 1
    else 0
  }

  /** The score of every enumerated device, in enumeration order. */
  function Scores(devices: seq<Adapter>, required: seq<string>): (s: seq<int>)
    ensures |s| == |devices|
    ensures forall j :: 0 <= j < |devices| ==> s[j] == Score(devices[j], required)
  {
    seq(|devices|, j requires 0 <= j < |devices| => Score(devices[j], required))
  }

  /** The position of the last occurrence of the maximum of `s`. */
  function LastMaxIndex(s: seq<int>): (k: nat)
    requires |s| > 0
    ensures k < |s|
    ensures forall j :: 0 <= j < |s| ==> s[j] <= s[k]
    ensures forall j :: k < j < |s| ==> s[j] < s[k]
  {
    if |s| == 1 then 0
    else
      var k := LastMaxIndex(s[..|s| - 1]);
      if s[|s| - 1] >= s[k] then |s| - 1 else k
  }

  /** A `std::multimap<int, VkPhysicalDevice>` as its entries in iteration order; devices are enumeration positions. */
  type Entry = (int, nat)

  predicate SortedByKey(m: seq<Entry>) {
    forall i, j :: 0 <= i < j < |m| ==> m[i].0 <= m[j].0
  }

  /** The position after the last entry whose key is at most `key`. */
  function UpperBound(m: seq<Entry>, key: int): (p: nat)
    requires SortedByKey(m)
    ensures p <= |m|
    ensures forall j :: 0 <= j < p ==> m[j].0 <= key
    ensures forall j :: p <= j < |m| ==> key < m[j].0
  {
    if |m| == 0 || m[|m| - 1].0 <= key then |m|
    else UpperBound(m[..|m| - 1], key)
  }

  /**
   * `multimap::insert`: the entry goes after every entry with an equal key, so it becomes
   * the last entry exactly when no existing key is greater.
   */
  function MultimapInsert(m: seq<Entry>, key: int, device: nat): (r: seq<Entry>)
    requires SortedByKey(m)
    ensures SortedByKey(r)
    ensures multiset(r) == multiset(m) + multiset{(key, device)}
    ensures r[|r| - 1] == if |m| > 0 && key < m[|m| - 1].0 then m[|m| - 1] else (key, device)
    ensures exists p: nat :: (
      && p <= |m| && r == m[..p] + [(key, device)] + m[p..]
      && (forall j :: 0 <= j < p ==> m[j].0 <= key)
      && (forall j :: p <= j < |m| ==> key < m[j].0))
  {
    var p := UpperBound(m, key);
    assert m == m[..p] + m[p..];
    var r := m[..p] + [(key, device)] + m[p..];
    assert p <= |m| && r == m[..p] + [(key, device)] + m[p..];
    r
  }

  /**
   * Inserting the scores in enumeration order keeps the last entry of the multimap equal to
   * the maximum score so far, paired with the last position that has it.
   */
  lemma InsertKeepsLastMax(m: seq<Entry>, scores: seq<int>, i: nat)
    requires SortedByKey(m) && |m| == i && i < |scores|
    requires i > 0 ==> m[i - 1] == (scores[LastMaxIndex(scores[..i])], LastMaxIndex(scores[..i]))
    ensures MultimapInsert(m, scores[i], i)[i] ==
      (scores[LastMaxIndex(scores[..i + 1])], LastMaxIndex(scores[..i + 1]))
  {
    assert scores[..i + 1][..i] == scores[..i];
  }

  /**
   * The outcome of enumerating and filtering devices: the enumeration position of the
   * chosen device, or the error thrown.
   */
  function SelectAdapter(devices: seq<Adapter>, required: seq<string>): (r: Result<nat>)
    // Selection fails for lack of a suitable device exactly when every device is disqualified.
    ensures r.Err? ==> r.error in {NoAdapterFound, NoSuitableAdapter}
    ensures r.Ok? <==> exists j :: 0 <= j < |devices| && !Disqualified(devices[j], required)
    ensures r == Err(NoAdapterFound) <==> |devices| == 0
    ensures r == Err(NoSuitableAdapter) <==>
      (|devices| > 0 && forall j :: 0 <= j < |devices| ==> Disqualified(devices[j], required))
    // The chosen device is qualified, has the highest score, and is the last device in
    // enumeration order among those sharing that score.
    ensures r.Ok? ==>
      && r.value < |devices|
      && !Disqualified(devices[r.value], required)
      && (forall j :: 0 <= j < |devices| ==> Score(devices[j], required) <= Score(devices[r.value], required))
      && (forall j :: r.value < j < |devices| ==> Score(devices[j], required) < Score(devices[r.value], required))
  {
    if |devices| == 0 then Err(NoAdapterFound)
    else
      var k := LastMaxIndex(Scores(devices, required));
      if Score(devices[k], required) < 0 then Err(NoSuitableAdapter) else Ok(k)
  }

  /** A qualified discrete device, when there is one, beats every non-discrete device. */
  lemma SelectAdapterPrefersDiscrete(devices: seq<Adapter>, required: seq<string>, d: nat)
    requires d < |devices|
    requires devices[d].deviceType == DiscreteGpu && !Disqualified(devices[d], required)
    ensures SelectAdapter(devices, required).Ok?
    ensures devices[SelectAdapter(devices, required).value].deviceType == DiscreteGpu
  {
  }
}
