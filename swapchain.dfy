/** The swapchain parameters HelloTriangleApplication::create_swapchain
    chooses (src/main.cpp): surface format, present mode, extent, minimum
    image count and sharing mode. The driver's answers (surface
    capabilities, formats, present modes) and the window size are inputs. */
module Swapchain {
  import opened Vk

  datatype SurfaceFormat = SurfaceFormat(format: Format, colorSpace: ColorSpace)

  /** The fields of vk::SurfaceCapabilitiesKHR the choices read. */
  datatype SurfaceCapabilities = SurfaceCapabilities(
    minImageCount: nat,
    maxImageCount: nat,
    currentExtent: Extent2D,
    minImageExtent: Extent2D,
    maxImageExtent: Extent2D)

  /** The window's framebuffer size; GLFW reports it as two ints. */
  datatype Dimension = Dimension(width: int, height: int)

  const U32Modulus: int := 0x1_0000_0000

  // ---------------------------------------------------------------------
  // Surface format

  predicate IsPreferred(f: SurfaceFormat) {
    f.format == B8G8R8A8Srgb && f.colorSpace == SrgbNonlinear
  }

  /** Index of the first preferred format at or after `from`, or |formats|. */
  function FirstPreferred(formats: seq<SurfaceFormat>, from: nat): (k: nat)
    requires from <= |formats|
    ensures from <= k <= |formats|
    ensures k < |formats| ==> IsPreferred(formats[k])
    ensures forall j :: from <= j < k ==> !IsPreferred(formats[j])
    decreases |formats| - from
  {
    if from == |formats| then from
    else if IsPreferred(formats[from]) then from
    else FirstPreferred(formats, from + 1)
  }

  /** choose_swap_surface_format: the sRGB B8G8R8A8 / sRGB-nonlinear entry
      when the surface offers one, otherwise the first entry. The source
      indexes element 0, so the list must not be empty. */
  function ChooseSwapSurfaceFormat(formats: seq<SurfaceFormat>): (f: SurfaceFormat)
    requires |formats| > 0
    ensures f in formats
    ensures IsPreferred(f) <==> exists k :: 0 <= k < |formats| && IsPreferred(formats[k])
    ensures !IsPreferred(f) ==> f == formats[0]
  {
    var k := FirstPreferred(formats, 0);
    if k < |formats| then formats[k] else formats[0]
  }

  // ---------------------------------------------------------------------
  // Present mode

  /** choose_present_mode: Mailbox when offered, otherwise Fifo (which the
      Vulkan specification guarantees, so the list is not consulted for it). */
  function ChoosePresentMode(modes: seq<PresentMode>): (m: PresentMode)
    ensures m == Mailbox <==> Mailbox in modes
    ensures m != Mailbox ==> m == Fifo
  {
    if |modes| == 0 then Fifo
    else if modes[0] == Mailbox then Mailbox
    else ChoosePresentMode(modes[1..])
  }

  // ---------------------------------------------------------------------
  // Extent

  /** std::clamp<uint32_t>(v, lo, hi), written out as the standard library
      does: lo when v < lo, else hi when hi < v, else v. */
  function Clamp(v: nat, lo: nat, hi: nat): (r: nat)
    ensures lo <= hi ==> lo <= r <= hi
    ensures lo <= v <= hi ==> r == v
    ensures v < lo ==> r == lo
    ensures lo <= hi && hi < v ==> r == hi
  {
    if v < lo then lo else if hi < v then hi else v
  }

  /** The implicit int-to-uint32_t conversion of the window size. */
  function ToU32(x: int): (r: nat)
    ensures r < U32Modulus
    ensures 0 <= x < U32Modulus ==> r == x
    ensures (r - x) % U32Modulus == 0
  {
    x % U32Modulus
  }

  /** choose_swap_extent: the surface's current extent unless its width is
      the UINT32_MAX marker, in which case the window size clamped into the
      surface's extent range. */
  function ChooseSwapExtent(caps: SurfaceCapabilities, window: Dimension): (e: Extent2D)
    ensures caps.currentExtent.width != U32Max ==> e == caps.currentExtent
    ensures caps.currentExtent.width == U32Max && caps.minImageExtent.width <= caps.maxImageExtent.width ==>
      caps.minImageExtent.width <= e.width <= caps.maxImageExtent.width
    ensures caps.currentExtent.width == U32Max && caps.minImageExtent.height <= caps.maxImageExtent.height ==>
      caps.minImageExtent.height <= e.height <= caps.maxImageExtent.height
    ensures (caps.currentExtent.width == U32Max &&
             0 <= window.width <= U32Max && 0 <= window.height <= U32Max &&
             caps.minImageExtent.width <= window.width <= caps.maxImageExtent.width &&
             caps.minImageExtent.height <= window.height <= caps.maxImageExtent.height) ==>
      e == Extent2D(window.width, window.height)
    ensures (caps.currentExtent.width == U32Max && caps.minImageExtent.width <= caps.maxImageExtent.width &&
             ToU32(window.width) > caps.maxImageExtent.width) ==> e.width == caps.maxImageExtent.width
    ensures caps.currentExtent.width == U32Max && ToU32(window.width) < caps.minImageExtent.width ==>
      e.width == caps.minImageExtent.width
    ensures (caps.currentExtent.width == U32Max && caps.minImageExtent.height <= caps.maxImageExtent.height &&
             ToU32(window.height) > caps.maxImageExtent.height) ==> e.height == caps.maxImageExtent.height
    ensures caps.currentExtent.width == U32Max && ToU32(window.height) < caps.minImageExtent.height ==>
      e.height == caps.minImageExtent.height
  {
    if caps.currentExtent.width != U32Max then caps.currentExtent
    else
      Extent2D(
        Clamp(ToU32(window.width), caps.minImageExtent.width, caps.maxImageExtent.width),
        Clamp(ToU32(window.height), caps.minImageExtent.height, caps.maxImageExtent.height))
  }

  // ---------------------------------------------------------------------
  // Minimum image count

  function Max(a: nat, b: nat): nat { if a < b then b else a }

  /** The minimum image count as create_swapchain computes it: start from
      max(3, minImageCount) and replace it by maxImageCount when the surface
      has a maximum and the start EXCEEDS minImageCount. */
  function MinImageCountAsWritten(caps: SurfaceCapabilities): (c: nat)
    ensures caps.maxImageCount == 0 ==> c == Max(3, caps.minImageCount)
    ensures caps.minImageCount >= 3 ==> c == caps.minImageCount
    ensures caps.maxImageCount > 0 && caps.minImageCount < 3 ==> c == caps.maxImageCount
    ensures caps.maxImageCount == 0 || caps.minImageCount <= caps.maxImageCount ==> caps.minImageCount <= c
    ensures 0 < caps.minImageCount <= caps.maxImageCount ==> c <= caps.maxImageCount
  {
    var start := Max(3, caps.minImageCount);
    if caps.maxImageCount > 0 && start > caps.minImageCount then caps.maxImageCount else start
  }

  /** The same computation with the locals reassigned as the source does. */
  method ComputeMinImageCount(caps: SurfaceCapabilities) returns (count: nat)
    ensures count == MinImageCountAsWritten(caps)
  {
    count := if caps.minImageCount < 3 then 3 else caps.minImageCount;
    if caps.maxImageCount > 0 && count > caps.minImageCount {
      count := caps.maxImageCount;
    }
  }

  /** The evidently intended rule: max(3, minImageCount), capped at
      maxImageCount when the surface has a maximum. */
  function MinImageCount(caps: SurfaceCapabilities): (c: nat)
    ensures caps.maxImageCount == 0 || Max(3, caps.minImageCount) <= caps.maxImageCount ==>
      c == Max(3, caps.minImageCount)
    ensures caps.maxImageCount > 0 ==> c <= caps.maxImageCount
    ensures caps.maxImageCount == 0 || caps.minImageCount <= caps.maxImageCount ==> caps.minImageCount <= c
  {
    var start := Max(3, caps.minImageCount);
    if caps.maxImageCount > 0 && start > caps.maxImageCount then caps.maxImageCount else start
  }

  /** A surface allowing 2 to 8 images: as written the swapchain asks for
      all 8, where triple buffering (3) was meant. */
  lemma MinImageCountAsWrittenTakesMaximum()
    ensures var caps := SurfaceCapabilities(2, 8, Extent2D(0, 0), Extent2D(0, 0), Extent2D(0, 0));
      MinImageCountAsWritten(caps) == 8 && MinImageCount(caps) == 3
  {
  }

  /** The two rules agree whenever the surface's minimum is already at least 3. */
  lemma {:induction false} MinImageCountAgreesFromThree(caps: SurfaceCapabilities)
    requires caps.minImageCount >= 3
    requires caps.maxImageCount == 0 || caps.minImageCount <= caps.maxImageCount
    ensures MinImageCountAsWritten(caps) == MinImageCount(caps)
  {
  }

  // ---------------------------------------------------------------------
  // Sharing mode

  datatype Sharing = Sharing(mode: SharingMode, queueFamilyIndices: seq<nat>)

  /** Concurrent over both families when graphics and present use different
      queue families, otherwise exclusive with no family list. */
  function SharingFor(graphicsQueueIndex: nat, presentQueueIndex: nat): (s: Sharing)
    ensures s.mode == Concurrent <==> graphicsQueueIndex != presentQueueIndex
    ensures s.mode == Concurrent ==> s.queueFamilyIndices == [graphicsQueueIndex, presentQueueIndex]
    ensures s.mode == Exclusive ==> s.queueFamilyIndices == []
  {
    if graphicsQueueIndex != presentQueueIndex then
      Sharing(Concurrent, [graphicsQueueIndex, presentQueueIndex])
    else
      Sharing(Exclusive, [])
  }

  // ---------------------------------------------------------------------
  // The create info

  /** The chosen fields of vk::SwapchainCreateInfoKHR. */
  datatype SwapchainCreateInfo = SwapchainCreateInfo(
    minImageCount: nat,
    surfaceFormat: SurfaceFormat,
    imageExtent: Extent2D,
    sharing: Sharing,
    presentMode: PresentMode)

  /** create_swapchain up to the vk::raii::SwapchainKHR call: the create
      info is first filled in exclusive and then switched to concurrent
      when the queue families differ. */
  method CreateSwapchainInfo(
    caps: SurfaceCapabilities, formats: seq<SurfaceFormat>, presentModes: seq<PresentMode>,
    window: Dimension, graphicsQueueIndex: nat, presentQueueIndex: nat)
    returns (info: SwapchainCreateInfo)
    requires |formats| > 0
    ensures info.surfaceFormat == ChooseSwapSurfaceFormat(formats)
    ensures info.imageExtent == ChooseSwapExtent(caps, window)
    ensures info.minImageCount == MinImageCountAsWritten(caps)
    ensures info.presentMode == ChoosePresentMode(presentModes)
    ensures info.sharing == SharingFor(graphicsQueueIndex, presentQueueIndex)
  {
    var surfaceFormat := ChooseSwapSurfaceFormat(formats);
    var extent := ChooseSwapExtent(caps, window);
    var minImageCount := ComputeMinImageCount(caps);
    info := SwapchainCreateInfo(minImageCount, surfaceFormat, extent, Sharing(Exclusive, []),
                                ChoosePresentMode(presentModes));
    if graphicsQueueIndex != presentQueueIndex {
      info := info.(sharing := Sharing(Concurrent, [graphicsQueueIndex, presentQueueIndex]));
    } else {
      info := info.(sharing := Sharing(Exclusive, []));
    }
  }

  // ---------------------------------------------------------------------
  // Depth format

  /** has_stencil_component: the depth formats that carry a stencil aspect. */
  function HasStencilComponent(format: Format): (b: bool)
    ensures b ==> format != D32Sfloat
  {
    format == D32SfloatS8Uint || format == D24UnormS8Uint
  }
}
