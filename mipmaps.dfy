/** The mip-chain generation of HelloTriangleApplication::generate_mipmaps
    and the one-shot layout-transition table of transition_image_layout
    (src/main.cpp). Commands are recorded as values: the model keeps the
    barriers and blits in the order the source emits them. */
module Mipmaps {
  import opened Wrappers
  import opened Vk

  /** One vk::ImageMemoryBarrier on a single mip level of the colour aspect. */
  datatype Barrier = Barrier(
    level: nat,
    oldLayout: ImageLayout,
    newLayout: ImageLayout,
    srcAccess: Access,
    dstAccess: Access,
    srcStage: PipelineStage,
    dstStage: PipelineStage)

  datatype Cmd =
    | PipelineBarrier(barrier: Barrier)
      /** blitImage from level srcLevel over (0,0)..(srcWidth,srcHeight) to
          level dstLevel over (0,0)..(dstWidth,dstHeight), linear filter. */
    | Blit(srcLevel: nat, srcWidth: int, srcHeight: int, dstLevel: nat, dstWidth: int, dstHeight: int)

  /** The blit destination extent: half the source, but never below 1. */
  function DstExtent(x: int): (d: int)
    ensures d >= 1
    ensures x >= 1 ==> d <= x
  {
    if x > 1 then x / 2 else 1
  }

  /** How mip_width and mip_height change at the end of an iteration: halved
      while above 1, otherwise left as they are. */
  function Next(x: int): int {
    if x > 1 then x / 2 else x
  }

  /** The extent of level k when level 0 has extent x. */
  function Iter(x: int, k: nat): int {
    if k == 0 then x else Next(Iter(x, k - 1))
  }

  function ToTransferSrc(level: nat): Barrier {
    Barrier(level, TransferDstOptimal, TransferSrcOptimal, TransferWrite, TransferRead, Transfer, Transfer)
  }

  function ToShaderRead(level: nat): Barrier {
    Barrier(level, TransferSrcOptimal, ShaderReadOnlyOptimal, TransferRead, ShaderRead, Transfer, FragmentShader)
  }

  /** The barrier after the loop as written: the source access is
      TransferRead although the level it covers was last written. */
  function FinalBarrierAsWritten(level: nat): Barrier {
    Barrier(level, TransferDstOptimal, ShaderReadOnlyOptimal, TransferRead, ShaderRead, Transfer, FragmentShader)
  }

  /** The final barrier with the source access that covers the write. */
  function FinalBarrier(level: nat): Barrier {
    Barrier(level, TransferDstOptimal, ShaderReadOnlyOptimal, TransferWrite, ShaderRead, Transfer, FragmentShader)
  }

  /** Iteration i of the loop, for the current extent (w, h). */
  function Step(i: nat, w: int, h: int): seq<Cmd>
    requires i >= 1
  {
    [PipelineBarrier(ToTransferSrc(i - 1)),
     Blit(i - 1, w, h, i, DstExtent(w), DstExtent(h)),
     PipelineBarrier(ToShaderRead(i - 1))]
  }

  /** The commands of iterations i .. n-1, starting from extent (w, h). */
  function MipLoop(i: nat, n: nat, w: int, h: int): (cmds: seq<Cmd>)
    requires i >= 1
    ensures |cmds| == if i < n then 3 * (n - i) else 0
    decreases n - i
  {
    if i >= n then [] else Step(i, w, h) + MipLoop(i + 1, n, Next(w), Next(h))
  }

  /** mip_levels - 1 as a uint32_t: 0 levels wraps to UINT32_MAX. */
  function LastLevel(mipLevels: nat): (l: nat)
    ensures mipLevels >= 1 ==> l == mipLevels - 1
    ensures mipLevels == 0 ==> l == U32Max
  {
    if mipLevels == 0 then U32Max else mipLevels - 1
  }

  /** Everything generate_mipmaps records, as the source writes it. */
  function MipmapCommandsAsWritten(w: int, h: int, mipLevels: nat): seq<Cmd> {
    MipLoop(1, mipLevels, w, h) + [PipelineBarrier(FinalBarrierAsWritten(LastLevel(mipLevels)))]
  }

  /** The same commands with the corrected final barrier. */
  function MipmapCommands(w: int, h: int, mipLevels: nat): seq<Cmd> {
    MipLoop(1, mipLevels, w, h) + [PipelineBarrier(FinalBarrier(LastLevel(mipLevels)))]
  }

  /** generate_mipmaps: one reused barrier value and two extents updated in
      a loop over the levels 1 .. mipLevels-1, then a barrier on the last
      level. */
  method GenerateMipmaps(textureWidth: int, textureHeight: int, mipLevels: nat) returns (cmds: seq<Cmd>)
    ensures cmds == MipmapCommandsAsWritten(textureWidth, textureHeight, mipLevels)
  {
    var barrier := Barrier(0, TransferDstOptimal, TransferSrcOptimal, TransferWrite, TransferRead, Transfer, Transfer);
    var mipWidth := textureWidth;
    var mipHeight := textureHeight;
    cmds := [];
    var i := 1;
    while i < mipLevels
      invariant i >= 1
      invariant cmds + MipLoop(i, mipLevels, mipWidth, mipHeight) == MipLoop(1, mipLevels, textureWidth, textureHeight)
      decreases mipLevels - i
    {
      barrier := barrier.(level := i - 1, oldLayout := TransferDstOptimal, newLayout := TransferSrcOptimal,
                          srcAccess := TransferWrite, dstAccess := TransferRead);
      cmds := cmds + [PipelineBarrier(barrier.(srcStage := Transfer, dstStage := Transfer))];
      cmds := cmds + [Blit(i - 1, mipWidth, mipHeight, i,
                           if mipWidth > 1 then mipWidth / 2 else 1,
                           if mipHeight > 1 then mipHeight / 2 else 1)];
      barrier := barrier.(oldLayout := TransferSrcOptimal, newLayout := ShaderReadOnlyOptimal,
                          srcAccess := TransferRead, dstAccess := ShaderRead);
      cmds := cmds + [PipelineBarrier(barrier.(srcStage := Transfer, dstStage := FragmentShader))];
      if mipWidth > 1 {
        mipWidth := mipWidth / 2;
      }
      if mipHeight > 1 {
        mipHeight := mipHeight / 2;
      }
      i := i + 1;
    }
    barrier := barrier.(level := LastLevel(mipLevels), oldLayout := TransferDstOptimal,
                        newLayout := ShaderReadOnlyOptimal, srcAccess := TransferRead, dstAccess := ShaderRead);
    cmds := cmds + [PipelineBarrier(barrier.(srcStage := Transfer, dstStage := FragmentShader))];
  }

  // ---------------------------------------------------------------------
  // The shape of the command stream

  /** Iteration k of MipLoop(i, ...) occupies positions 3k .. 3k+2. */
  lemma {:induction false} MipLoopStep(i: nat, n: nat, w: int, h: int, k: nat)
    requires i >= 1 && k < n - i
    ensures MipLoop(i, n, w, h)[3 * k .. 3 * k + 3] == Step(i + k, Iter(w, k), Iter(h, k))
    decreases k
  {
    if k > 0 {
      MipLoopStep(i + 1, n, Next(w), Next(h), k - 1);
      IterShift(w, k - 1);
      IterShift(h, k - 1);
      assert MipLoop(i, n, w, h)[3 * k .. 3 * k + 3] == MipLoop(i + 1, n, Next(w), Next(h))[3 * (k - 1) .. 3 * (k - 1) + 3];
    }
  }

  /** Starting one level further down is the same as one more halving. */
  lemma {:induction false} IterShift(x: int, k: nat)
    ensures Iter(Next(x), k) == Iter(x, k + 1)
    decreases k
  {
    if k > 0 {
      IterShift(x, k - 1);
    }
  }

  /** |commands| is 3 per iteration plus the final barrier. */
  lemma MipmapCommandsLength(w: int, h: int, mipLevels: nat)
    ensures mipLevels >= 1 ==> |MipmapCommandsAsWritten(w, h, mipLevels)| == 3 * (mipLevels - 1) + 1
    ensures mipLevels == 0 ==> |MipmapCommandsAsWritten(w, h, mipLevels)| == 1
  {
  }

  /** For s < mipLevels - 1, positions 3s, 3s+1, 3s+2 hold: level s moved to
      TransferSrc, the blit from level s at its extent to level s+1 at half
      that extent (at least 1), and level s moved to ShaderReadOnly. */
  lemma MipmapStep(w: int, h: int, mipLevels: nat, s: nat)
    requires s + 1 < mipLevels
    ensures var cmds := MipmapCommandsAsWritten(w, h, mipLevels);
      cmds[3 * s] == PipelineBarrier(ToTransferSrc(s)) &&
      cmds[3 * s + 1] == Blit(s, Iter(w, s), Iter(h, s), s + 1, DstExtent(Iter(w, s)), DstExtent(Iter(h, s))) &&
      cmds[3 * s + 2] == PipelineBarrier(ToShaderRead(s))
  {
    var loop := MipLoop(1, mipLevels, w, h);
    MipLoopStep(1, mipLevels, w, h, s);
    assert loop[3 * s] == loop[3 * s .. 3 * s + 3][0];
    assert loop[3 * s + 1] == loop[3 * s .. 3 * s + 3][1];
    assert loop[3 * s + 2] == loop[3 * s .. 3 * s + 3][2];
  }

  /** From a positive extent every level's extent is positive. */
  lemma {:induction false} IterPositive(x: int, k: nat)
    requires x >= 1
    ensures Iter(x, k) >= 1
    decreases k
  {
    if k > 0 {
      IterPositive(x, k - 1);
    }
  }

  /** For a positive texture size the blit of step s writes exactly the
      extent the blit of step s+1 reads, and all extents stay at least 1. */
  lemma BlitExtentsChain(w: int, h: int, mipLevels: nat, s: nat)
    requires w >= 1 && h >= 1
    requires s + 2 < mipLevels
    ensures var cmds := MipmapCommandsAsWritten(w, h, mipLevels);
      cmds[3 * s + 1].Blit? && cmds[3 * (s + 1) + 1].Blit? &&
      cmds[3 * s + 1].dstWidth == cmds[3 * (s + 1) + 1].srcWidth &&
      cmds[3 * s + 1].dstHeight == cmds[3 * (s + 1) + 1].srcHeight &&
      cmds[3 * s + 1].srcWidth >= 1 && cmds[3 * s + 1].srcHeight >= 1
  {
    MipmapStep(w, h, mipLevels, s);
    MipmapStep(w, h, mipLevels, s + 1);
    IterPositive(w, s);
    IterPositive(h, s);
  }

  /** A command that moves `level` into ShaderReadOnlyOptimal. */
  predicate MakesReadable(c: Cmd, level: nat) {
    c.PipelineBarrier? && c.barrier.level == level && c.barrier.newLayout == ShaderReadOnlyOptimal
  }

  /** Where level l becomes shader-readable: inside iteration l+1 for the
      levels the loop blits from, or at the final barrier for the last one. */
  function ReadablePosition(mipLevels: nat, level: nat): nat
    requires level < mipLevels
  {
    if level + 1 < mipLevels then 3 * level + 2 else 3 * (mipLevels - 1)
  }

  /** Every level 0 .. mipLevels-1 is made shader-readable exactly once. */
  lemma EachLevelReadableOnce(w: int, h: int, mipLevels: nat, level: nat, p: nat)
    requires level < mipLevels
    requires p < |MipmapCommandsAsWritten(w, h, mipLevels)|
    ensures MakesReadable(MipmapCommandsAsWritten(w, h, mipLevels)[p], level) <==> p == ReadablePosition(mipLevels, level)
  {
    var cmds := MipmapCommandsAsWritten(w, h, mipLevels);
    MipmapCommandsLength(w, h, mipLevels);
    if p == 3 * (mipLevels - 1) {
      assert cmds[p] == PipelineBarrier(FinalBarrierAsWritten(mipLevels - 1));
    } else {
      var s := p / 3;
      MipmapStep(w, h, mipLevels, s);
      assert p == 3 * s || p == 3 * s + 1 || p == 3 * s + 2;
    }
  }

  // ---------------------------------------------------------------------
  // The final barrier's access mask

  /** As written, with two or more levels the final barrier on the last
      level, which the last blit has just written (the barrier between
      them is on another level), names TransferRead
      as its source access: the blit's write is not made available. */
  lemma FinalBarrierMissesBlitWrite(w: int, h: int, mipLevels: nat)
    requires mipLevels >= 2
    ensures var cmds := MipmapCommandsAsWritten(w, h, mipLevels);
      cmds[|cmds| - 3].Blit? && cmds[|cmds| - 3].dstLevel == mipLevels - 1 &&
      cmds[|cmds| - 2].PipelineBarrier? && cmds[|cmds| - 2].barrier.level != mipLevels - 1 &&
      cmds[|cmds| - 1].PipelineBarrier? && cmds[|cmds| - 1].barrier.level == mipLevels - 1 &&
      cmds[|cmds| - 1].barrier.srcAccess == TransferRead
  {
    MipmapCommandsLength(w, h, mipLevels);
    MipmapStep(w, h, mipLevels, mipLevels - 2);
  }

  /** With the corrected final barrier the same write is covered: the last
      level's barrier names TransferWrite, and the stream is otherwise the
      one the source records. */
  lemma FinalBarrierCoversBlitWrite(w: int, h: int, mipLevels: nat)
    requires mipLevels >= 2
    ensures var cmds := MipmapCommands(w, h, mipLevels);
      cmds[|cmds| - 3].Blit? && cmds[|cmds| - 3].dstLevel == mipLevels - 1 &&
      cmds[|cmds| - 2].PipelineBarrier? && cmds[|cmds| - 2].barrier.level != mipLevels - 1 &&
      cmds[|cmds| - 1].PipelineBarrier? && cmds[|cmds| - 1].barrier.level == mipLevels - 1 &&
      cmds[|cmds| - 1].barrier.srcAccess == TransferWrite
    ensures var cmds := MipmapCommands(w, h, mipLevels);
      cmds[..|cmds| - 1] == MipmapCommandsAsWritten(w, h, mipLevels)[..|cmds| - 1]
  {
    MipmapCommandsLength(w, h, mipLevels);
    MipmapStep(w, h, mipLevels, mipLevels - 2);
    var loop := MipLoop(1, mipLevels, w, h);
    assert MipmapCommands(w, h, mipLevels)[|loop| - 2] == loop[|loop| - 2];
  }

  // ---------------------------------------------------------------------
  // The one-shot layout transition

  /** The barrier the one-shot transition_image_layout records: all
      mipLevels levels from level 0, with masks and stages from the table. */
  datatype LayoutTransition = LayoutTransition(
    oldLayout: ImageLayout,
    newLayout: ImageLayout,
    baseMipLevel: nat,
    levelCount: nat,
    srcAccess: Access,
    dstAccess: Access,
    srcStage: PipelineStage,
    dstStage: PipelineStage)

  /** transition_image_layout(image, old, new, mip_levels): only the two
      transitions of a texture upload are supported; any other pair throws
      std::invalid_argument before anything is recorded. */
  function TransitionImageLayout(oldLayout: ImageLayout, newLayout: ImageLayout, mipLevels: nat): (r: Result<LayoutTransition>)
    ensures r.Ok? <==>
      (oldLayout == LayoutUndefined && newLayout == TransferDstOptimal) ||
      (oldLayout == TransferDstOptimal && newLayout == ShaderReadOnlyOptimal)
    ensures r.Err? ==> r.error == "Unsupported layout transition"
    ensures r.Ok? ==>
      r.value.oldLayout == oldLayout && r.value.newLayout == newLayout &&
      r.value.baseMipLevel == 0 && r.value.levelCount == mipLevels
    ensures r.Ok? && oldLayout == LayoutUndefined ==>
      r.value.srcAccess == NoAccess && r.value.dstAccess == TransferWrite &&
      r.value.srcStage == TopOfPipe && r.value.dstStage == Transfer
    ensures r.Ok? && oldLayout == TransferDstOptimal ==>
      r.value.srcAccess == TransferWrite && r.value.dstAccess == ShaderRead &&
      r.value.srcStage == Transfer && r.value.dstStage == FragmentShader
  {
    if oldLayout == LayoutUndefined && newLayout == TransferDstOptimal then
      Ok(LayoutTransition(oldLayout, newLayout, 0, mipLevels, NoAccess, TransferWrite, TopOfPipe, Transfer))
    else if oldLayout == TransferDstOptimal && newLayout == ShaderReadOnlyOptimal then
      Ok(LayoutTransition(oldLayout, newLayout, 0, mipLevels, TransferWrite, ShaderRead, Transfer, FragmentShader))
    else
      Err("Unsupported layout transition")
  }

  /** The two supported transitions compose: the second starts from the
      layout, access and stage the first ends in. */
  lemma UploadTransitionsChain(mipLevels: nat)
    ensures var first := TransitionImageLayout(LayoutUndefined, TransferDstOptimal, mipLevels);
      var second := TransitionImageLayout(TransferDstOptimal, ShaderReadOnlyOptimal, mipLevels);
      first.Ok? && second.Ok? &&
      first.value.newLayout == second.value.oldLayout &&
      first.value.dstAccess == second.value.srcAccess &&
      first.value.dstStage == second.value.srcStage
  {
  }
}
