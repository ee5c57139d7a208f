/** graphics::Buffer and its four kinds (src/graphics/buffer.cpp): what each
    init variant creates and allocates, and the map / unmap / upload state of
    the host mapping. The mapped region is an array the model hands out on
    map, as mapMemory hands out a pointer; the driver's memory table and the
    buffer's memory requirements are inputs. */
module Buffers {
  import opened Wrappers
  import opened Vk
  import opened Allocator

  /** StagingBuffer, VertexBuffer, IndexBuffer and UniformBuffer. */
  datatype BufferKind = Staging | Vertex | Index | Uniform

  datatype BufferCreateInfo = BufferCreateInfo(size: nat, usage: Flags, sharingMode: SharingMode)

  /** The usage flags each kind's init puts in its vk::BufferCreateInfo. */
  function UsageFor(kind: BufferKind): (usage: Flags)
    ensures Includes(usage, UsageTransferSrc) <==> kind == Staging
    ensures Includes(usage, UsageTransferDst) <==> kind == Vertex || kind == Index
    ensures Includes(usage, UsageVertexBuffer) <==> kind == Vertex
    ensures Includes(usage, UsageIndexBuffer) <==> kind == Index
    ensures Includes(usage, UsageUniformBuffer) <==> kind == Uniform
  {
    match kind
    case Staging => UsageTransferSrc
    case Vertex => UsageVertexBuffer | UsageTransferDst
    case Index => UsageIndexBuffer | UsageTransferDst
    case Uniform => UsageUniformBuffer
  }

  /** The visibility class each kind's init records. */
  function MemoryTypeFor(kind: BufferKind): (t: MemoryType)
    ensures t == Host <==> kind == Staging || kind == Uniform
  {
    match kind
    case Staging => Host
    case Uniform => Host
    case Vertex => Gpu
    case Index => Gpu
  }

  class Buffer {
    const kind: BufferKind
    var buffer: Option<BufferCreateInfo>
    var bufferSize: nat
    var memoryType: Option<MemoryType>
    var memory: Option<MemoryAllocateInfo>
    var memoryBound: bool
    /** impl->mapped_memory: null while unmapped. */
    var mappedMemory: array?<bv8>

    constructor(kind: BufferKind)
      ensures this.kind == kind
      ensures buffer == None && bufferSize == 0 && memoryType == None
      ensures memory == None && !memoryBound && mappedMemory == null
    {
      this.kind := kind;
      buffer := None;
      bufferSize := 0;
      memoryType := None;
      memory := None;
      memoryBound := false;
      mappedMemory := null;
    }

    /** The init of this buffer's kind: create the buffer, record its size
        and visibility class, then allocate and bind memory. An allocation
        failure is returned before anything is bound. */
    method Init(memoryTypes: seq<Flags>, requirements: MemoryRequirements, size: nat) returns (r: Result<()>)
      requires |memoryTypes| <= 32
      modifies this
      ensures buffer == Some(BufferCreateInfo(size, UsageFor(kind), Exclusive))
      ensures bufferSize == size && memoryType == Some(MemoryTypeFor(kind))
      ensures mappedMemory == old(mappedMemory)
      ensures r.Err? <==> FirstMemoryType(memoryTypes, requirements.memoryTypeBits, PropertiesFor(MemoryTypeFor(kind)), 0).None?
      ensures r.Err? ==> r.error == "No suitable memory type" && memory == old(memory) && memoryBound == old(memoryBound)
      ensures r.Ok? ==>
        memoryBound && memory.Some? && memory.value.allocationSize == requirements.size &&
        memory.value.memoryTypeIndex == FirstMemoryType(memoryTypes, requirements.memoryTypeBits, PropertiesFor(MemoryTypeFor(kind)), 0).value
    {
      buffer := Some(BufferCreateInfo(size, UsageFor(kind), Exclusive));
      bufferSize := size;
      memoryType := Some(MemoryTypeFor(kind));
      var allocation := AllocateMemory(memoryTypes, requirements, memoryType.value);
      if allocation.Err? {
        return Err(allocation.error);
      }
      memory := Some(allocation.value);
      memoryBound := true;
      return Ok(());
    }

    /** map: only host-visible memory may be mapped (the source asserts it);
        the whole allocation is mapped and the pointer kept. */
    method Map()
      requires memoryType == Some(Host) && memory.Some?
      modifies this
      ensures mappedMemory != null && fresh(mappedMemory)
      ensures mappedMemory.Length == old(memory).value.allocationSize
      ensures buffer == old(buffer) && bufferSize == old(bufferSize) && memoryType == old(memoryType)
      ensures memory == old(memory) && memoryBound == old(memoryBound)
    {
      mappedMemory := new bv8[memory.value.allocationSize];
    }

    /** unmap: the pointer is cleared. */
    method Unmap()
      requires memory.Some?
      modifies this
      ensures mappedMemory == null
      ensures buffer == old(buffer) && bufferSize == old(bufferSize) && memoryType == old(memoryType)
      ensures memory == old(memory) && memoryBound == old(memoryBound)
    {
      mappedMemory := null;
    }

    /** get_mapped_memory: asserts that the buffer is mapped. */
    method GetMappedMemory() returns (p: array<bv8>)
      requires mappedMemory != null
      ensures p == mappedMemory
    {
      p := mappedMemory;
    }

    /** upload_data: memcpy of exactly buffer_size bytes from `data` into the
        mapped region; the source must hold that many bytes and the region
        must be at least that large. */
    method UploadData(data: seq<bv8>)
      requires mappedMemory != null
      requires bufferSize <= |data| && bufferSize <= mappedMemory.Length
      modifies mappedMemory
      ensures mappedMemory[..bufferSize] == data[..bufferSize]
      ensures mappedMemory[bufferSize..] == old(mappedMemory[bufferSize..])
    {
      var target := GetMappedMemory();
      for i := 0 to bufferSize
        invariant target[..i] == data[..i]
        invariant target[bufferSize..] == old(target[bufferSize..])
      {
        target[i] := data[i];
      }
    }
  }

  /** Vertex and index buffers live in device-local memory, so map's
      precondition rules them out; staging and uniform buffers may map. */
  lemma MappableKinds(kind: BufferKind)
    ensures MemoryTypeFor(kind) == Host <==> kind != Vertex && kind != Index
  {
  }

  /** A mapped-and-uploaded buffer keeps the uploaded bytes through the
      whole region's prefix: upload followed by reading back. */
  method UploadThenRead(b: Buffer, data: seq<bv8>) returns (readBack: seq<bv8>)
    requires b.mappedMemory != null
    requires b.bufferSize <= |data| && b.bufferSize <= b.mappedMemory.Length
    modifies b.mappedMemory
    ensures readBack == data[..b.bufferSize]
  {
    b.UploadData(data);
    var p := b.GetMappedMemory();
    readBack := p[..b.bufferSize];
  }
}
