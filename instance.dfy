/** Instance requirements: layer and extension checks and the assembly of
    what the instance is created with (src/graphics/instance.cpp). */
module Instances {
  import opened Wrappers

  datatype ExtensionProperties = ExtensionProperties(extensionName: string, specVersion: nat)

  datatype LayerProperties = LayerProperties(layerName: string, specVersion: nat, description: string)

  /** vk::ApiVersion14, the version the application info asks for. */
  const ApiVersion14: nat := 0x0040_4000

  const ValidationLayers: seq<string> := ["VK_LAYER_KHRONOS_validation"]

  const DebugUtilsExtensionName: string := "VK_EXT_debug_utils"

  /** Every required name equals (strcmp == 0) some available name. */
  predicate AllPresent(required: seq<string>, available: seq<string>) {
    forall i :: 0 <= i < |required| ==> required[i] in available
  }

  function ExtensionNames(available: seq<ExtensionProperties>): (names: seq<string>)
    ensures |names| == |available|
    ensures forall k :: 0 <= k < |available| ==> names[k] == available[k].extensionName
  {
    seq(|available|, k requires 0 <= k < |available| => available[k].extensionName)
  }

  function LayerNames(available: seq<LayerProperties>): (names: seq<string>)
    ensures |names| == |available|
    ensures forall k :: 0 <= k < |available| ==> names[k] == available[k].layerName
  {
    seq(|available|, k requires 0 <= k < |available| => available[k].layerName)
  }

  /** check_extensions: folds "is available" over the required names. */
  method CheckExtensions(required: seq<string>, available: seq<ExtensionProperties>) returns (met: bool)
    ensures met <==> AllPresent(required, ExtensionNames(available))
  {
    met := true;
    for i := 0 to |required|
      invariant met <==> AllPresent(required[..i], ExtensionNames(available))
    {
      // !std::ranges::none_of(available, name == required[i])
      var isAvailable := false;
      var k := 0;
      while k < |available| && !isAvailable
        invariant 0 <= k <= |available|
        invariant isAvailable <==> k > 0 && available[k - 1].extensionName == required[i]
        invariant !isAvailable ==> forall j :: 0 <= j < k ==> available[j].extensionName != required[i]
      {
        isAvailable := available[k].extensionName == required[i];
        k := k + 1;
      }
      assert isAvailable <==> required[i] in ExtensionNames(available);
      met := met && isAvailable;
      assert required[..i + 1] == required[..i] + [required[i]];
    }
    assert required[..|required|] == required;
  }

  /** check_layers: the same fold over the available layer names. */
  method CheckLayers(required: seq<string>, available: seq<LayerProperties>) returns (met: bool)
    ensures met <==> AllPresent(required, LayerNames(available))
  {
    met := true;
    for i := 0 to |required|
      invariant met <==> AllPresent(required[..i], LayerNames(available))
    {
      var isAvailable := false;
      var k := 0;
      while k < |available| && !isAvailable
        invariant 0 <= k <= |available|
        invariant isAvailable <==> k > 0 && available[k - 1].layerName == required[i]
        invariant !isAvailable ==> forall j :: 0 <= j < k ==> available[j].layerName != required[i]
      {
        isAvailable := available[k].layerName == required[i];
        k := k + 1;
      }
      assert isAvailable <==> required[i] in LayerNames(available);
      met := met && isAvailable;
      assert required[..i + 1] == required[..i] + [required[i]];
    }
    assert required[..|required|] == required;
  }

  /** The layers Instance::init requires. */
  function RequiredLayers(enableValidation: bool): (layers: seq<string>)
    ensures enableValidation ==> layers == ValidationLayers
    ensures !enableValidation ==> layers == []
  {
    if enableValidation then ValidationLayers else []
  }

  /** The extensions Instance::init requires: the caller's list, in order,
      then the debug-utils extension when validation is on. */
  function RequiredExtensions(base: seq<string>, enableValidation: bool): (extensions: seq<string>)
    ensures |base| <= |extensions| && extensions[..|base|] == base
    ensures enableValidation ==> |extensions| == |base| + 1 && extensions[|base|] == DebugUtilsExtensionName
    ensures !enableValidation ==> extensions == base
  {
    if enableValidation then base + [DebugUtilsExtensionName] else base
  }

  /** The vk::InstanceCreateInfo fields the model keeps. */
  datatype InstanceCreateInfo = InstanceCreateInfo(
    apiVersion: nat,
    enabledLayerCount: nat,
    enabledExtensions: seq<string>)

  /** Instance::Impl: the created instance (None for the null handle) and
      whether a debug messenger was set up. */
  class Instance {
    var instance: Option<InstanceCreateInfo>
    var debugMessenger: bool

    constructor ()
      ensures instance == None && !debugMessenger
    {
      instance := None;
      debugMessenger := false;
    }

    /** Instance::init. `enableValidation` is the build's
        enable_validation_layer switch; the two `available` lists are what
        the context enumerates. Layers are checked before extensions, the
        instance is created only when both checks pass, and no layer is
        enabled even though the layers were checked. */
    method Init(base: seq<string>, enableValidation: bool,
                availableLayers: seq<LayerProperties>, availableExtensions: seq<ExtensionProperties>)
      returns (r: Result<()>)
      modifies this
      ensures !AllPresent(RequiredLayers(enableValidation), LayerNames(availableLayers)) ==>
        r == Err("Required layers not available") && instance == old(instance) && debugMessenger == old(debugMessenger)
      ensures (AllPresent(RequiredLayers(enableValidation), LayerNames(availableLayers)) &&
               !AllPresent(RequiredExtensions(base, enableValidation), ExtensionNames(availableExtensions))) ==>
        r == Err("Required extensions not available") && instance == old(instance) && debugMessenger == old(debugMessenger)
      ensures r.Ok? <==>
        AllPresent(RequiredLayers(enableValidation), LayerNames(availableLayers)) &&
        AllPresent(RequiredExtensions(base, enableValidation), ExtensionNames(availableExtensions))
      ensures r.Ok? ==>
        instance == Some(InstanceCreateInfo(ApiVersion14, 0, RequiredExtensions(base, enableValidation))) &&
        debugMessenger == (enableValidation || old(debugMessenger))
    {
      var requiredExtensions := base;
      var requiredLayers: seq<string> := [];
      if enableValidation {
        requiredLayers := ValidationLayers;
        requiredExtensions := requiredExtensions + [DebugUtilsExtensionName];
      }
      var layersMet := CheckLayers(requiredLayers, availableLayers);
      if !layersMet {
        return Err("Required layers not available");
      }
      var extensionsMet := CheckExtensions(requiredExtensions, availableExtensions);
      if !extensionsMet {
        return Err("Required extensions not available");
      }
      instance := Some(InstanceCreateInfo(ApiVersion14, 0, requiredExtensions));
      if enableValidation {
        debugMessenger := true;
      }
      return Ok(());
    }
  }
}
