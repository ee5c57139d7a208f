/** Memory-type selection and allocation requests (src/graphics/allocator.cpp). */
module Allocator {
  import opened Wrappers
  import opened Vk

  /** The visibility class buffers and textures ask for. */
  datatype MemoryType = Host | Gpu

  datatype MemoryRequirements = MemoryRequirements(size: nat, memoryTypeBits: Flags)

  /** The vk::MemoryAllocateInfo handed to the driver. */
  datatype MemoryAllocateInfo = MemoryAllocateInfo(allocationSize: nat, memoryTypeIndex: nat)

  /** Memory type `i` of the table passes both tests of the scan: its bit is
      set in the filter and its property flags include every requested one.
      `types[i]` is memoryTypes[i].propertyFlags; |types| is memoryTypeCount,
      which Vulkan bounds by VK_MAX_MEMORY_TYPES (32). */
  predicate Qualifies(types: seq<Flags>, typeFilter: Flags, properties: Flags, i: nat)
    requires i < |types| <= 32
  {
    typeFilter & (1 << i) != 0 && Includes(types[i], properties)
  }

  /** Reference definition of the first-match scan, starting at index `from`. */
  function FirstMemoryType(types: seq<Flags>, typeFilter: Flags, properties: Flags, from: nat): (r: Option<nat>)
    requires |types| <= 32
    decreases |types| - from
    ensures r.Some? ==> from <= r.value < |types| && Qualifies(types, typeFilter, properties, r.value)
    ensures r.Some? ==> forall j :: from <= j < r.value ==> !Qualifies(types, typeFilter, properties, j)
    ensures r.None? <==> forall j :: from <= j < |types| ==> !Qualifies(types, typeFilter, properties, j)
  {
    if from >= |types| then None
    else if Qualifies(types, typeFilter, properties, from) then Some(from)
    else FirstMemoryType(types, typeFilter, properties, from + 1)
  }

  /** find_memory_type: the least qualifying index, or an error when none qualifies. */
  method FindMemoryType(types: seq<Flags>, typeFilter: Flags, properties: Flags) returns (r: Result<nat>)
    requires |types| <= 32
    ensures r.Ok? ==> r.value < |types| && Qualifies(types, typeFilter, properties, r.value)
    ensures r.Ok? ==> forall j :: 0 <= j < r.value ==> !Qualifies(types, typeFilter, properties, j)
    ensures r.Err? <==> forall j :: 0 <= j < |types| ==> !Qualifies(types, typeFilter, properties, j)
    ensures r.Err? ==> r.error == "No suitable memory type"
    ensures r == match FirstMemoryType(types, typeFilter, properties, 0)
                 case Some(i) => Ok(i)
                 case None => Err("No suitable memory type")
  {
    var i := 0;
    while i < |types|
      invariant 0 <= i <= |types|
      invariant forall j :: 0 <= j < i ==> !Qualifies(types, typeFilter, properties, j)
    {
      if typeFilter & (1 << i) != 0 && Includes(types[i], properties) {
        assert Qualifies(types, typeFilter, properties, i);
        ghost var first := FirstMemoryType(types, typeFilter, properties, 0);
        assert first.Some? && first.value == i;
        return Ok(i);
      }
      i := i + 1;
    }
    return Err("No suitable memory type");
  }

  /** An empty filter admits no memory type, so the scan always fails. */
  lemma {:induction false} EmptyFilterFails(types: seq<Flags>, properties: Flags, from: nat)
    requires |types| <= 32
    decreases |types| - from
    ensures FirstMemoryType(types, 0, properties, from) == None
  {
    if from < |types| {
      assert !Qualifies(types, 0, properties, from);
      EmptyFilterFails(types, properties, from + 1);
    }
  }

  /** The property flags each visibility class asks for. */
  function PropertiesFor(memoryType: MemoryType): (p: Flags)
    ensures memoryType == Host ==> Includes(p, MemoryHostVisible) && Includes(p, MemoryHostCoherent)
    ensures memoryType == Host ==> !Includes(p, MemoryDeviceLocal)
    ensures memoryType == Gpu ==> p == MemoryDeviceLocal
  {
    if memoryType == Gpu then MemoryDeviceLocal else MemoryHostVisible | MemoryHostCoherent
  }

  /** allocate_memory: turn the class into flags, find a memory type for
      them, and request an allocation of exactly the required size. A failed
      search is passed on and no allocation is requested. */
  method AllocateMemory(types: seq<Flags>, requirements: MemoryRequirements, memoryType: MemoryType)
    returns (r: Result<MemoryAllocateInfo>)
    requires |types| <= 32
    ensures r.Ok? ==> r.value.allocationSize == requirements.size && r.value.memoryTypeIndex < |types|
    ensures r.Ok? ==> Qualifies(types, requirements.memoryTypeBits, PropertiesFor(memoryType), r.value.memoryTypeIndex)
    ensures r.Ok? && memoryType == Host ==>
      Includes(types[r.value.memoryTypeIndex], MemoryHostVisible | MemoryHostCoherent)
    ensures r.Ok? && memoryType == Gpu ==> Includes(types[r.value.memoryTypeIndex], MemoryDeviceLocal)
    ensures r.Err? <==> FirstMemoryType(types, requirements.memoryTypeBits, PropertiesFor(memoryType), 0).None?
    ensures r.Ok? ==> r.value.memoryTypeIndex == FirstMemoryType(types, requirements.memoryTypeBits, PropertiesFor(memoryType), 0).value
    ensures r.Err? ==> r.error == "No suitable memory type"
  {
    var properties := MemoryHostVisible | MemoryHostCoherent;
    if memoryType == Gpu {
      properties := MemoryDeviceLocal;
    }
    var index := FindMemoryType(types, requirements.memoryTypeBits, properties);
    if index.Err? {
      return Err(index.error);
    }
    return Ok(MemoryAllocateInfo(requirements.size, index.value));
  }
}
