/** graphics::Texture (src/graphics/texture.cpp): the mip-level count it
    derives from the image size and the objects Texture::init creates step
    by step. Image and view creation are recorded as their create infos;
    the image's memory requirements are the driver's answer, an input. */
module Textures {
  import opened Wrappers
  import opened Vk
  import opened ImageIo
  import Allocator

  /** calculate_mipmap_levels as written: max(log2 w, log2 h) truncated to
      uint32_t, that is floor(log2(max(w, h))). log2(0) is minus infinity,
      so at least one side must be positive. */
  function CalculateMipmapLevelsAsWritten(width: nat, height: nat): (levels: nat)
    requires Max(width, height) >= 1
    ensures Pow2(levels) <= Max(width, height) < Pow2(levels + 1)
  {
    Log2Floor(Max(width, height))
  }

  /** The count a full mip chain needs, the one core::ImageData reports. */
  function CalculateMipmapLevels(width: nat, height: nat): (levels: nat)
    requires Max(width, height) >= 1
    ensures levels >= 1
    ensures levels == MipLevels(width, height)
  {
    CalculateMipmapLevelsAsWritten(width, height) + 1
  }

  /** As written the count is one short of ImageData::get_mip_levels for every
      size, and a 1x1 texture gets zero levels. */
  lemma MipmapLevelsOneShort(width: nat, height: nat)
    requires Max(width, height) >= 1
    ensures CalculateMipmapLevelsAsWritten(width, height) + 1 == MipLevels(width, height)
    ensures width == 1 && height == 1 ==> CalculateMipmapLevelsAsWritten(width, height) == 0
  {
  }

  /** The levels of a full chain are exactly the sizes of the halving chain
      of the larger side. */
  lemma MipmapLevelsCoverChain(width: nat, height: nat)
    requires Max(width, height) >= 1
    ensures CalculateMipmapLevels(width, height) == |HalvingChain(Max(width, height))|
  {
    MipLevelsCountsHalvingChain(width, height);
  }

  datatype ImageCreateInfo = ImageCreateInfo(format: Format, width: nat, height: nat, mipLevels: nat, usage: Flags, sharingMode: SharingMode)

  datatype ImageViewCreateInfo = ImageViewCreateInfo(format: Format, baseMipLevel: nat, levelCount: nat)

  const TextureFormat: Format := R8G8B8A8Srgb

  class Texture {
    var image: Option<ImageCreateInfo>
    var memory: Option<Allocator.MemoryAllocateInfo>
    var memoryBound: bool
    var imageView: Option<ImageViewCreateInfo>

    constructor()
      ensures image == None && memory == None && !memoryBound && imageView == None
    {
      image := None;
      memory := None;
      memoryBound := false;
      imageView := None;
    }

    /** Texture::init. The image is always created with a single level; the
        view covers 1 level, or calculate_mipmap_levels levels when mipmaps
        are asked for. Host-visible memory is requested; when that fails the
        error is returned with nothing bound and no view created. */
    method Init(memoryTypes: seq<Flags>, requirements: Allocator.MemoryRequirements,
                width: nat, height: nat, mipmap: bool) returns (r: Result<()>)
      requires |memoryTypes| <= 32
      requires mipmap ==> Max(width, height) >= 1
      modifies this
      ensures image == Some(ImageCreateInfo(TextureFormat, width, height, 1,
        ImageUsageTransferSrc | ImageUsageTransferDst | ImageUsageSampled, Exclusive))
      ensures r.Err? <==> Allocator.FirstMemoryType(memoryTypes, requirements.memoryTypeBits,
                                                    Allocator.PropertiesFor(Allocator.Host), 0).None?
      ensures r.Err? ==>
        r.error == "No suitable memory type" &&
        memory == old(memory) && memoryBound == old(memoryBound) && imageView == old(imageView)
      ensures r.Ok? ==>
        memory.Some? && memory.value.allocationSize == requirements.size &&
        memory.value.memoryTypeIndex < |memoryTypes| &&
        memory.value.memoryTypeIndex == Allocator.FirstMemoryType(memoryTypes, requirements.memoryTypeBits,
                                          Allocator.PropertiesFor(Allocator.Host), 0).value &&
        Allocator.Qualifies(memoryTypes, requirements.memoryTypeBits,
                            Allocator.PropertiesFor(Allocator.Host), memory.value.memoryTypeIndex) &&
        Includes(memoryTypes[memory.value.memoryTypeIndex], MemoryHostVisible | MemoryHostCoherent) &&
        memoryBound &&
        imageView == Some(ImageViewCreateInfo(TextureFormat, 0,
          if mipmap then CalculateMipmapLevelsAsWritten(width, height) else 1))
    {
      var mipmapLevels := 1;
      if mipmap {
        mipmapLevels := CalculateMipmapLevelsAsWritten(width, height);
      }
      image := Some(ImageCreateInfo(TextureFormat, width, height, 1,
        ImageUsageTransferSrc | ImageUsageTransferDst | ImageUsageSampled, Exclusive));
      var allocation := Allocator.AllocateMemory(memoryTypes, requirements, Allocator.Host);
      if allocation.Err? {
        return Err(allocation.error);
      }
      memory := Some(allocation.value);
      memoryBound := true;
      imageView := Some(ImageViewCreateInfo(TextureFormat, 0, mipmapLevels));
      return Ok(());
    }
  }
}
