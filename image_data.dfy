/** core::ImageData (src/core/io/stb_wrapper.cpp): decoded pixels with
    their size, the mip-level count and byte size derived from that size,
    and the field updates of load_from_file. The stb loader itself is an
    input: its answer is an Option of the decoded image. */
module ImageIo {
  import opened Wrappers

  const U32Modulus: int := 0x1_0000_0000

  function Pow2(k: nat): (p: nat)
    ensures p >= 1
  {
    if k == 0 then 1 else 2 * Pow2(k - 1)
  }

  /** floor(log2(n)) for n >= 1: the exponent of the largest power of two
      not above n. */
  function Log2Floor(n: nat): (k: nat)
    requires n >= 1
    ensures Pow2(k) <= n < Pow2(k + 1)
  {
    if n == 1 then 0 else 1 + Log2Floor(n / 2)
  }

  /** Only one exponent brackets n between consecutive powers of two. */
  lemma {:induction false} Log2FloorUnique(n: nat, k: nat)
    requires n >= 1
    requires Pow2(k) <= n < Pow2(k + 1)
    ensures Log2Floor(n) == k
  {
    var j := Log2Floor(n);
    if j < k {
      Pow2Monotone(j + 1, k);
    } else if k < j {
      Pow2Monotone(k + 1, j);
    }
  }

  lemma {:induction false} Pow2Monotone(a: nat, b: nat)
    requires a <= b
    ensures Pow2(a) <= Pow2(b)
    decreases b - a
  {
    if a < b {
      Pow2Monotone(a, b - 1);
    }
  }

  function Max(a: int, b: int): int { if a < b then b else a }

  /** The count of get_mip_levels, floor(log2(max(width, height))) + 1. The
      logarithm of a non-positive size is not finite, so the conversion to
      uint32_t is undefined there; the size must be positive. */
  function MipLevels(width: int, height: int): (levels: nat)
    requires Max(width, height) >= 1
    ensures levels >= 1
    ensures Pow2(levels - 1) <= Max(width, height) < Pow2(levels)
  {
    Log2Floor(Max(width, height)) + 1
  }

  /** The sizes of a mip chain: n, n/2, n/4, ... down to 1, inclusive. */
  function HalvingChain(n: nat): (chain: seq<nat>)
    requires n >= 1
    ensures |chain| >= 1 && chain[0] == n && chain[|chain| - 1] == 1
    decreases n
  {
    if n == 1 then [1] else [n] + HalvingChain(n / 2)
  }

  /** The halving chain from n has floor(log2(n)) + 1 sizes. */
  lemma {:induction false} HalvingChainLength(n: nat)
    requires n >= 1
    ensures |HalvingChain(n)| == Log2Floor(n) + 1
    decreases n
  {
    if n > 1 {
      HalvingChainLength(n / 2);
      var k := Log2Floor(n / 2);
      assert Pow2(k + 1) <= n < Pow2(k + 2);
      Log2FloorUnique(n, k + 1);
    }
  }

  /** get_mip_levels counts the sizes of the halving chain of the larger side. */
  lemma MipLevelsCountsHalvingChain(width: int, height: int)
    requires Max(width, height) >= 1
    ensures |HalvingChain(Max(width, height))| == MipLevels(width, height)
  {
    HalvingChainLength(Max(width, height));
  }

  /** get_size: width * height * 4 bytes (RGBA, whatever the file's channel
      count), as the uint32_t the int product converts to. */
  function ByteSize(width: int, height: int): (size: nat)
    ensures size < U32Modulus
    ensures size % 4 == 0
    ensures 0 <= width * height * 4 < U32Modulus ==> size == width * height * 4
  {
    (width * height * 4) % U32Modulus
  }

  /** What stbi_load hands back on success, forced to four channels of
      pixels; `channels` is the count the file itself has. */
  datatype LoadedImage = LoadedImage(pixels: seq<bv8>, width: int, height: int, channels: int)

  class ImageData {
    var data: Option<seq<bv8>>
    var width: int
    var height: int
    var channels: int

    constructor()
      ensures data == None && width == 0 && height == 0 && channels == 0
    {
      data := None;
      width := 0;
      height := 0;
      channels := 0;
    }

    function GetMipLevels(): (levels: nat)
      reads this
      requires Max(width, height) >= 1
      ensures levels == MipLevels(width, height)
    {
      MipLevels(width, height)
    }

    function GetSize(): (size: nat)
      reads this
      ensures size == ByteSize(width, height)
    {
      ByteSize(width, height)
    }

    /** load_from_file with the loader's answer as input: a failed load
        leaves every field as it was, a successful one takes all four of the
        loader's outputs. */
    method LoadFromFile(loaded: Option<LoadedImage>) returns (ok: bool)
      modifies this
      ensures ok <==> loaded.Some?
      ensures !ok ==> data == old(data) && width == old(width) && height == old(height) && channels == old(channels)
      ensures ok ==>
        data == Some(loaded.value.pixels) && width == loaded.value.width &&
        height == loaded.value.height && channels == loaded.value.channels
    {
      if loaded.None? {
        return false;
      }
      data := Some(loaded.value.pixels);
      width := loaded.value.width;
      height := loaded.value.height;
      channels := loaded.value.channels;
      return true;
    }
  }
}
