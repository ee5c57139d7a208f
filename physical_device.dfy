/** Physical-device suitability, scoring, selection and depth-format choice
    (src/graphics/physical_device.cpp). */
module PhysicalDevices {
  import opened Wrappers
  import opened Vk
  import Instances

  /** PhysicalDevice::required_device_extensions, in order. */
  const RequiredDeviceExtensions: seq<string> :=
    ["VK_KHR_swapchain", "VK_KHR_spirv_1_4", "VK_KHR_synchronization2", "VK_KHR_create_renderpass2"]

  datatype QueueFamilyProperties = QueueFamilyProperties(queueFlags: Flags)

  /** What the selection code queries of one vk::PhysicalDevice:
      getProperties (apiVersion, deviceType), the names of
      enumerateDeviceExtensionProperties, getFeatures().samplerAnisotropy,
      getQueueFamilyProperties, getSurfaceSupportKHR(i, surface) for each
      family index i, and the optimal-tiling features of getFormatProperties
      (a format absent from the map has no features). */
  datatype DeviceInfo = DeviceInfo(
    apiVersion: nat,
    deviceType: PhysicalDeviceType,
    extensionNames: seq<string>,
    samplerAnisotropy: bool,
    queueFamilies: seq<QueueFamilyProperties>,
    surfaceSupport: seq<bool>,
    optimalTilingFeatures: map<Format, Flags>)

  /** The record get_device_suitableness returns. */
  datatype DeviceSuitableness = DeviceSuitableness(isSuitable: bool, graphicsQueueIndex: nat, presentQueueIndex: nat)

  predicate HasGraphics(family: QueueFamilyProperties) {
    family.queueFlags & QueueGraphics != 0
  }

  predicate SupportsPresent(device: DeviceInfo, i: nat) {
    i < |device.surfaceSupport| && device.surfaceSupport[i]
  }

  // ---------------------------------------------------------------------
  // The extension lookup as written

  /** The lookup as the source writes it: find_if with the predicate
      strcmp(available, required), which is true for every available name
      that DIFFERS from the required one. The required extension counts as
      found as soon as one such name exists. */
  predicate FoundAsWritten(available: seq<string>, extension: string) {
    exists k :: 0 <= k < |available| && available[k] != extension
  }

  /** std::ranges::find_if with the strcmp-truthiness predicate: the index
      of the first available name that differs from `extension`, or
      |available| (the end iterator). */
  method FindIfDiffers(available: seq<string>, extension: string) returns (k: nat)
    ensures k <= |available|
    ensures k < |available| ==> available[k] != extension
    ensures forall j :: 0 <= j < k ==> available[j] == extension
    ensures k < |available| <==> FoundAsWritten(available, extension)
  {
    k := 0;
    while k < |available| && available[k] == extension
      invariant k <= |available|
      invariant forall j :: 0 <= j < k ==> available[j] == extension
    {
      k := k + 1;
    }
  }

  /** The lookup with the comparison the sibling check in
      src/graphics/instance.cpp uses (strcmp == 0): the index of the first
      name equal to `extension`, or |available|. */
  method FindIfEqual(available: seq<string>, extension: string) returns (k: nat)
    ensures k <= |available|
    ensures k < |available| ==> available[k] == extension
    ensures forall j :: 0 <= j < k ==> available[j] != extension
    ensures k < |available| <==> extension in available
  {
    k := 0;
    while k < |available| && available[k] != extension
      invariant k <= |available|
      invariant forall j :: 0 <= j < k ==> available[j] != extension
    {
      k := k + 1;
    }
  }

  /** As written, a device that reports no extension of the required set
      at all still passes the lookup for the swapchain extension. */
  lemma AbsentExtensionIsFoundAsWritten()
    ensures FoundAsWritten(["VK_EXT_other"], "VK_KHR_swapchain")
    ensures "VK_KHR_swapchain" !in ["VK_EXT_other"]
  {
    var available: seq<string> := ["VK_EXT_other"];
    assert available[0] != "VK_KHR_swapchain";
  }

  /** As written, a device whose only extension is the required one is
      reported as lacking it. */
  lemma PresentExtensionIsMissingAsWritten()
    ensures !FoundAsWritten(["VK_KHR_swapchain"], "VK_KHR_swapchain")
    ensures "VK_KHR_swapchain" in ["VK_KHR_swapchain"]
  {
  }

  /** As written, any device that lists two different extension names
      passes the whole extension requirement, whatever those names are. */
  lemma TwoDistinctNamesPassAsWritten(available: seq<string>, i: nat, j: nat, required: seq<string>)
    requires i < |available| && j < |available| && available[i] != available[j]
    ensures forall e :: e in required ==> FoundAsWritten(available, e)
  {
    forall e | e in required
      ensures FoundAsWritten(available, e)
    {
      if available[i] != e {
        assert 0 <= i < |available| && available[i] != e;
      } else {
        assert 0 <= j < |available| && available[j] != e;
      }
    }
  }

  /** The corrected extension requirement: every required device extension
      is among the available names. */
  predicate ExtensionsPresent(device: DeviceInfo) {
    Instances.AllPresent(RequiredDeviceExtensions, device.extensionNames)
  }

  // ---------------------------------------------------------------------
  // Suitability

  /** Reference definition of the graphics-family search from index `from`:
      the first family with the graphics bit, or |families| when none has it. */
  function GraphicsFamily(families: seq<QueueFamilyProperties>, from: nat): (g: nat)
    requires from <= |families|
    decreases |families| - from
    ensures from <= g <= |families|
    ensures g < |families| ==> HasGraphics(families[g])
    ensures forall j :: from <= j < g ==> !HasGraphics(families[j])
  {
    if from == |families| then |families|
    else if HasGraphics(families[from]) then from
    else GraphicsFamily(families, from + 1)
  }

  /** Reference definition of the present-family search from index `from`. */
  function PresentFamily(device: DeviceInfo, from: nat): (p: nat)
    requires from <= |device.queueFamilies|
    decreases |device.queueFamilies| - from
    ensures from <= p <= |device.queueFamilies|
    ensures p < |device.queueFamilies| ==> SupportsPresent(device, p)
    ensures forall j :: from <= j < p ==> !SupportsPresent(device, j)
  {
    if from == |device.queueFamilies| then |device.queueFamilies|
    else if SupportsPresent(device, from) then from
    else PresentFamily(device, from + 1)
  }

  /** Reference definition of get_device_suitableness. */
  function Suitableness(device: DeviceInfo): (s: DeviceSuitableness)
    ensures s.isSuitable <==>
      && device.apiVersion >= ApiVersion13
      && (forall e :: e in RequiredDeviceExtensions ==> FoundAsWritten(device.extensionNames, e))
      && device.samplerAnisotropy
      && s.graphicsQueueIndex != |device.queueFamilies|
      && s.presentQueueIndex != |device.queueFamilies|
    ensures s.graphicsQueueIndex <= |device.queueFamilies| && s.presentQueueIndex <= |device.queueFamilies|
    ensures forall j :: 0 <= j < s.graphicsQueueIndex ==> !HasGraphics(device.queueFamilies[j])
    ensures s.graphicsQueueIndex < |device.queueFamilies| ==> HasGraphics(device.queueFamilies[s.graphicsQueueIndex])
    ensures forall j :: 0 <= j < s.presentQueueIndex ==> !SupportsPresent(device, j)
    ensures s.presentQueueIndex < |device.queueFamilies| ==> SupportsPresent(device, s.presentQueueIndex)
  {
    var g := GraphicsFamily(device.queueFamilies, 0);
    var p := PresentFamily(device, 0);
    DeviceSuitableness(
      device.apiVersion >= ApiVersion13
        && (forall e :: e in RequiredDeviceExtensions ==> FoundAsWritten(device.extensionNames, e))
        && device.samplerAnisotropy
        && g != |device.queueFamilies|
        && p != |device.queueFamilies|,
      g, p)
  }

  /** get_device_suitableness: clears `isSuitable` on each failed gate
      (API version, each required extension, anisotropy, either queue
      family not found) and reports the first graphics and first present
      family, |families| standing for "not found". */
  method GetDeviceSuitableness(device: DeviceInfo) returns (s: DeviceSuitableness)
    ensures s == Suitableness(device)
  {
    var isSuitable := true;
    if device.apiVersion < ApiVersion13 {
      isSuitable := false;
    }

    for i := 0 to |RequiredDeviceExtensions|
      invariant isSuitable <==>
        device.apiVersion >= ApiVersion13 &&
        forall k :: 0 <= k < i ==> FoundAsWritten(device.extensionNames, RequiredDeviceExtensions[k])
    {
      var iter := FindIfDiffers(device.extensionNames, RequiredDeviceExtensions[i]);
      if iter == |device.extensionNames| {
        isSuitable := false;
      }
    }

    if !device.samplerAnisotropy {
      isSuitable := false;
    }

    var families := device.queueFamilies;
    var graphicsQueueIndex := |families|;
    var presentQueueIndex := |families|;
    for i := 0 to |families|
      invariant graphicsQueueIndex == |families| || graphicsQueueIndex < i
      invariant graphicsQueueIndex == |families| ==> GraphicsFamily(families, 0) >= i
      invariant graphicsQueueIndex < i ==> graphicsQueueIndex == GraphicsFamily(families, 0)
      invariant presentQueueIndex == |families| || presentQueueIndex < i
      invariant presentQueueIndex == |families| ==> PresentFamily(device, 0) >= i
      invariant presentQueueIndex < i ==> presentQueueIndex == PresentFamily(device, 0)
    {
      if graphicsQueueIndex == |families| && HasGraphics(families[i]) {
        graphicsQueueIndex := i;
      }
      if presentQueueIndex == |families| && SupportsPresent(device, i) {
        presentQueueIndex := i;
      }
    }

    if graphicsQueueIndex == |families| || presentQueueIndex == |families| {
      isSuitable := false;
    }
    s := DeviceSuitableness(isSuitable, graphicsQueueIndex, presentQueueIndex);
  }

  // ---------------------------------------------------------------------
  // Scoring and selection

  /** get_device_score: 1000 for a discrete GPU, 200 for an integrated one,
      100 for every other type. */
  function DeviceScore(deviceType: PhysicalDeviceType): (score: nat)
    ensures score > 0
    ensures score == 1000 <==> deviceType == DiscreteGpu
    ensures score == 200 <==> deviceType == IntegratedGpu
    ensures deviceType != DiscreteGpu && deviceType != IntegratedGpu ==> score == 100
  {
    if deviceType == DiscreteGpu then 1000
    else if deviceType == IntegratedGpu then 200
    else 100
  }

  /** Discrete GPUs outrank integrated ones, which outrank everything else. */
  lemma ScoreRanking(t: PhysicalDeviceType)
    ensures t != DiscreteGpu ==> DeviceScore(t) < DeviceScore(DiscreteGpu)
    ensures t != DiscreteGpu && t != IntegratedGpu ==> DeviceScore(t) < DeviceScore(IntegratedGpu)
  {
  }

  /** The first position in `m` whose key is smaller than `key`: where
      std::multimap with std::greater inserts an entry with that key, after
      all entries of equal key. */
  function UpperBound(m: seq<(nat, nat)>, key: nat): (k: nat)
    ensures k <= |m|
    ensures forall i :: 0 <= i < k ==> m[i].0 >= key
    ensures k < |m| ==> m[k].0 < key
  {
    if m == [] || m[0].0 < key then 0 else 1 + UpperBound(m[1..], key)
  }

  /** device_scores.insert(entry): entries are (score, device index). */
  function MultimapInsert(m: seq<(nat, nat)>, entry: (nat, nat)): (r: seq<(nat, nat)>)
    ensures r == m[..UpperBound(m, entry.0)] + [entry] + m[UpperBound(m, entry.0)..]
  {
    if m == [] || m[0].0 < entry.0 then [entry] + m
    else [m[0]] + MultimapInsert(m[1..], entry)
  }

  /** The entry at the front of the multimap after an insertion. */
  lemma MultimapInsertFront(m: seq<(nat, nat)>, entry: (nat, nat))
    ensures m == [] ==> MultimapInsert(m, entry) == [entry]
    ensures m != [] ==> MultimapInsert(m, entry)[0] == if entry.0 > m[0].0 then entry else m[0]
    ensures forall e :: e in MultimapInsert(m, entry) <==> e in m || e == entry
  {
    var k := UpperBound(m, entry.0);
    assert m == m[..k] + m[k..];
  }

  /** The suitability flag of every enumerated device, in order. */
  function SuitableFlags(devices: seq<DeviceInfo>): (flags: seq<bool>)
    ensures |flags| == |devices|
    ensures forall j :: 0 <= j < |devices| ==> flags[j] == Suitableness(devices[j]).isSuitable
  {
    seq(|devices|, j requires 0 <= j < |devices| => Suitableness(devices[j]).isSuitable)
  }

  /** The score of every enumerated device, in order. */
  function Scores(devices: seq<DeviceInfo>): (scores: seq<nat>)
    ensures |scores| == |devices|
    ensures forall j :: 0 <= j < |devices| ==> scores[j] == DeviceScore(devices[j].deviceType)
  {
    seq(|devices|, j requires 0 <= j < |devices| => DeviceScore(devices[j].deviceType))
  }

  /** Among the first n devices, `b` is suitable, no suitable device scores
      higher, and every earlier suitable device scores strictly lower. */
  predicate IsChoice(suitable: seq<bool>, scores: seq<nat>, n: nat, b: nat)
    requires n <= |suitable| == |scores|
  {
    && b < n
    && suitable[b]
    && (forall j :: 0 <= j < n && suitable[j] ==> scores[j] <= scores[b])
    && (forall j :: 0 <= j < b && suitable[j] ==> scores[j] < scores[b])
  }

  /** Reference definition of the pick among the first n devices: the
      earliest suitable device of maximal score, or None when none is
      suitable. */
  function ChooseDevice(suitable: seq<bool>, scores: seq<nat>, n: nat): (r: Option<nat>)
    requires n <= |suitable| == |scores|
    ensures r.Some? ==> IsChoice(suitable, scores, n, r.value)
    ensures r.None? <==> forall j :: 0 <= j < n ==> !suitable[j]
  {
    if n == 0 then None
    else
      var prev := ChooseDevice(suitable, scores, n - 1);
      if !suitable[n - 1] then prev
      else if prev.None? then Some(n - 1)
      else if scores[n - 1] > scores[prev.value] then Some(n - 1)
      else prev
  }

  /** At most one device satisfies IsChoice, so the pick is determined by the
      enumeration order. */
  lemma ChoiceIsUnique(suitable: seq<bool>, scores: seq<nat>, n: nat, b1: nat, b2: nat)
    requires n <= |suitable| == |scores|
    requires IsChoice(suitable, scores, n, b1) && IsChoice(suitable, scores, n, b2)
    ensures b1 == b2
  {
  }

  /** What the scoring loop keeps after the first i devices: every entry
      is (score, index) of an earlier device, and the front entry is
      ChooseDevice's pick among them. */
  predicate ScoresFront(suitable: seq<bool>, scores: seq<nat>, i: nat, m: seq<(nat, nat)>)
    requires i <= |suitable| == |scores|
  {
    && (forall e :: e in m ==> e.1 < i && e.0 == scores[e.1])
    && (m == [] <==> ChooseDevice(suitable, scores, i).None?)
    && (m != [] ==> m[0].1 == ChooseDevice(suitable, scores, i).value)
  }

  /** One iteration of the scoring loop keeps ScoresFront. */
  lemma ScoreInsertStep(suitable: seq<bool>, scores: seq<nat>, i: nat, m: seq<(nat, nat)>, next: seq<(nat, nat)>)
    requires i < |suitable| == |scores|
    requires ScoresFront(suitable, scores, i, m)
    requires next == if suitable[i] then MultimapInsert(m, (scores[i], i)) else m
    ensures ScoresFront(suitable, scores, i + 1, next)
  {
    if suitable[i] {
      MultimapInsertFront(m, (scores[i], i));
      if m != [] {
        assert m[0] in m;
      }
    }
  }

  /** The loop that fills device_scores with (score, index) for every
      suitable device, in enumeration order. Its front entry is the pick. */
  method ScoreSuitableDevices(suitable: seq<bool>, scores: seq<nat>) returns (deviceScores: seq<(nat, nat)>)
    requires |suitable| == |scores|
    ensures forall e :: e in deviceScores ==> e.1 < |scores| && e.0 == scores[e.1]
    ensures deviceScores == [] <==> ChooseDevice(suitable, scores, |scores|).None?
    ensures deviceScores != [] ==> deviceScores[0].1 == ChooseDevice(suitable, scores, |scores|).value
  {
    deviceScores := [];
    for i := 0 to |scores|
      invariant ScoresFront(suitable, scores, i, deviceScores)
    {
      var next := if suitable[i] then MultimapInsert(deviceScores, (scores[i], i)) else deviceScores;
      ScoreInsertStep(suitable, scores, i, deviceScores, next);
      deviceScores := next;
    }
  }

  /** The range-for over device_scores up to the first entry whose score is
      positive (where the source breaks). */
  method FirstPositiveScore(deviceScores: seq<(nat, nat)>) returns (k: nat)
    ensures k <= |deviceScores|
    ensures forall j :: 0 <= j < k ==> deviceScores[j].0 == 0
    ensures k < |deviceScores| ==> deviceScores[k].0 > 0
  {
    k := 0;
    while k < |deviceScores|
      invariant k <= |deviceScores|
      invariant forall j :: 0 <= j < k ==> deviceScores[j].0 == 0
    {
      if deviceScores[k].0 > 0 {
        break;
      }
      k := k + 1;
    }
  }

  const DepthCandidates: seq<Format> := [D32Sfloat, D32SfloatS8Uint, D24UnormS8Uint]

  function OptimalFeatures(device: DeviceInfo, format: Format): Flags {
    if format in device.optimalTilingFeatures then device.optimalTilingFeatures[format] else 0
  }

  predicate DepthCapable(device: DeviceInfo, format: Format) {
    Includes(OptimalFeatures(device, format), FeatureDepthStencilAttachment)
  }

  /** PhysicalDevice: the chosen handle (None for the null handle) and the
      suitability record copied from the selection. */
  class PhysicalDevice {
    var device: Option<DeviceInfo>
    var deviceSuitableness: DeviceSuitableness

    constructor ()
      ensures device == None && deviceSuitableness == DeviceSuitableness(false, 0, 0)
    {
      device := None;
      deviceSuitableness := DeviceSuitableness(false, 0, 0);
    }

    /** PhysicalDevice::init over the enumerated devices. The handle field is
        only ever set, never cleared, so the "No suitable device found" test
        sees a handle left by an earlier call. */
    method Init(devices: seq<DeviceInfo>) returns (r: Result<()>)
      modifies this
      ensures devices == [] ==>
        r == Err("No GPU that supports Vulkan found") &&
        device == old(device) && deviceSuitableness == old(deviceSuitableness)
      ensures devices != [] && ChooseDevice(SuitableFlags(devices), Scores(devices), |devices|).Some? ==>
        var b := ChooseDevice(SuitableFlags(devices), Scores(devices), |devices|).value;
        r == Ok(()) && device == Some(devices[b]) && deviceSuitableness == Suitableness(devices[b])
      ensures devices != [] && ChooseDevice(SuitableFlags(devices), Scores(devices), |devices|).None? ==>
        device == old(device) && deviceSuitableness == old(deviceSuitableness) &&
        r == if old(device).None? then Err("No suitable device found") else Ok(())
    {
      if devices == [] {
        return Err("No GPU that supports Vulkan found");
      }

      // device_suitableness_map, indexed by enumeration position
      var suitableness: seq<DeviceSuitableness> := [];
      for i := 0 to |devices|
        invariant |suitableness| == i
        invariant forall j :: 0 <= j < i ==> suitableness[j] == Suitableness(devices[j])
        invariant unchanged(this)
      {
        var s := GetDeviceSuitableness(devices[i]);
        suitableness := suitableness + [s];
      }

      // filter_view over the suitable devices, scored
      var suitable := seq(|devices|, j requires 0 <= j < |devices| => suitableness[j].isSuitable);
      var scores := seq(|devices|, j requires 0 <= j < |devices| => DeviceScore(devices[j].deviceType));
      assert suitable == SuitableFlags(devices);
      assert scores == Scores(devices);
      var deviceScores := ScoreSuitableDevices(suitable, scores);

      var k := FirstPositiveScore(deviceScores);
      if k < |deviceScores| {
        device := Some(devices[deviceScores[k].1]);
        deviceSuitableness := suitableness[deviceScores[k].1];
      }

      if device.None? {
        return Err("No suitable device found");
      }
      return Ok(());
    }

    /** get_depth_format: the first candidate whose optimal-tiling features
        include depth-stencil attachment. */
    method GetDepthFormat() returns (r: Result<Format>)
      requires device.Some?
      ensures r.Ok? ==> exists k :: 0 <= k < |DepthCandidates| && r.value == DepthCandidates[k] &&
                                  DepthCapable(device.value, r.value) &&
                                  (forall j :: 0 <= j < k ==> !DepthCapable(device.value, DepthCandidates[j]))
      ensures r.Err? <==> forall k :: 0 <= k < |DepthCandidates| ==> !DepthCapable(device.value, DepthCandidates[k])
      ensures r.Err? ==> r.error == "Failed to find a suitable depth format"
    {
      for i := 0 to |DepthCandidates|
        invariant forall j :: 0 <= j < i ==> !DepthCapable(device.value, DepthCandidates[j])
      {
        var format := DepthCandidates[i];
        if OptimalFeatures(device.value, format) & FeatureDepthStencilAttachment == FeatureDepthStencilAttachment {
          return Ok(format);
        }
      }
      return Err("Failed to find a suitable depth format");
    }
  }
}
