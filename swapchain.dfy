/**
 * The presentation choices `renderer::createSwapChain` makes from what the
 * surface reports: surface format, present mode and image count.
 */
module Swapchain {
  import opened Base
  import Vk

  datatype SurfaceFormat = SurfaceFormat(format: uint32, colorSpace: uint32)

  /** The fields of VkSurfaceCapabilitiesKHR the negotiation reads. */
  datatype SurfaceCapabilities = SurfaceCapabilities(minImageCount: uint32, maxImageCount: uint32)

  datatype SwapchainConfig = SwapchainConfig(imageCount: uint32, surfaceFormat: SurfaceFormat, presentMode: uint32)

  /** The pair the renderer wants: 8-bit BGRA unorm in the non-linear sRGB colour space. */
  const PreferredFormat := SurfaceFormat(Vk.FORMAT_B8G8R8A8_UNORM, Vk.COLOR_SPACE_SRGB_NONLINEAR)

  predicate IsPreferred(f: SurfaceFormat) {
    f.colorSpace == Vk.COLOR_SPACE_SRGB_NONLINEAR && f.format == Vk.FORMAT_B8G8R8A8_UNORM
  }

  /**
   * The `chooseSurfaceFormat` lambda: scans the list and returns the first
   * preferred entry, or the list's first entry when there is none.
   */
  method ChooseSurfaceFormat(formats: seq<SurfaceFormat>) returns (chosen: SurfaceFormat)
    requires |formats| > 0
    ensures chosen in formats
    ensures (exists k :: 0 <= k < |formats| && IsPreferred(formats[k])) ==> chosen == PreferredFormat
    ensures (forall k :: 0 <= k < |formats| ==> !IsPreferred(formats[k])) ==> chosen == formats[0]
  {
    for i := 0 to |formats|
      invariant forall k :: 0 <= k < i ==> !IsPreferred(formats[k])
    {
      if formats[i].colorSpace == Vk.COLOR_SPACE_SRGB_NONLINEAR && formats[i].format == Vk.FORMAT_B8G8R8A8_UNORM {
        return formats[i];
      }
    }
    return formats[0];
  }

  /** Present-mode priority, independent of list order: mailbox, then immediate, then FIFO. */
  function PresentModeByPriority(modes: seq<uint32>): (mode: uint32) {
    if Vk.PRESENT_MODE_MAILBOX in modes then Vk.PRESENT_MODE_MAILBOX
    else if Vk.PRESENT_MODE_IMMEDIATE in modes then Vk.PRESENT_MODE_IMMEDIATE
    else Vk.PRESENT_MODE_FIFO
  }

  /**
   * The `choosePresentMode` lambda: starts from FIFO, returns mailbox as soon
   * as it is seen and remembers immediate otherwise.
   */
  method ChoosePresentMode(modes: seq<uint32>) returns (best: uint32)
    ensures best == PresentModeByPriority(modes)
    ensures best in modes || best == Vk.PRESENT_MODE_FIFO
  {
    best := Vk.PRESENT_MODE_FIFO;
    for i := 0 to |modes|
      invariant Vk.PRESENT_MODE_MAILBOX !in modes[..i]
      invariant best == (if Vk.PRESENT_MODE_IMMEDIATE in modes[..i] then Vk.PRESENT_MODE_IMMEDIATE else Vk.PRESENT_MODE_FIFO)
    {
      if modes[i] == Vk.PRESENT_MODE_MAILBOX {
        return modes[i];
      } else if modes[i] == Vk.PRESENT_MODE_IMMEDIATE {
        best := modes[i];
      }
    }
    assert modes[..|modes|] == modes;
  }

  /** The chosen present mode depends only on which modes are offered, not on their order or repetition. */
  lemma PresentModeOrderIndependent(a: seq<uint32>, b: seq<uint32>)
    requires forall m :: m in a <==> m in b
    ensures PresentModeByPriority(a) == PresentModeByPriority(b)
  {
  }

  /**
   * The image-count rule: `minImageCount + 1` computed in `uint32`, replaced
   * by `maxImageCount` when the surface declares a nonzero maximum that the
   * count exceeds.
   */
  function ImageCount(caps: SurfaceCapabilities): (count: uint32)
    ensures caps.maxImageCount == 0 ==> count == AsUint32(caps.minImageCount + 1)
    ensures caps.minImageCount < TwoTo32 - 1 && caps.maxImageCount > 0 ==>
              count <= caps.maxImageCount && count <= caps.minImageCount + 1
    ensures caps.minImageCount < TwoTo32 - 1 && 0 < caps.minImageCount <= caps.maxImageCount ==>
              caps.minImageCount <= count <= caps.maxImageCount
    ensures caps.minImageCount < TwoTo32 - 1 && (caps.maxImageCount == 0 || caps.minImageCount < caps.maxImageCount) ==>
              count == caps.minImageCount + 1
  {
    var count := AsUint32(caps.minImageCount + 1);
    if caps.maxImageCount > 0 && count > caps.maxImageCount then caps.maxImageCount else count
  }

  /** The rule clamps: a surface allowing exactly one image gets one image, not two. */
  lemma SingleImageSurface()
    ensures ImageCount(SurfaceCapabilities(1, 1)) == 1
  {
  }

  /** With no declared maximum the count is always the minimum plus one. */
  lemma UnboundedSurface(minCount: uint32)
    requires minCount < TwoTo32 - 1
    ensures ImageCount(SurfaceCapabilities(minCount, 0)) == minCount + 1
  {
  }

  /**
   * The negotiation part of `createSwapChain`: it throws when the chosen
   * queue family cannot present to the surface, and otherwise combines the
   * three choices.
   */
  method NegotiateSwapchain(surfaceSupported: bool, caps: SurfaceCapabilities, formats: seq<SurfaceFormat>, modes: seq<uint32>)
    returns (r: Result<SwapchainConfig>)
    requires |formats| > 0
    ensures r.Err? <==> !surfaceSupported
    ensures r.Err? ==> r.error == SetupError("mWindowSurface not supported.")
    ensures r.Ok? ==> r.value.imageCount == ImageCount(caps)
    ensures r.Ok? ==> r.value.surfaceFormat in formats
    ensures r.Ok? ==> (IsPreferred(r.value.surfaceFormat) <==> exists k :: 0 <= k < |formats| && IsPreferred(formats[k]))
    ensures r.Ok? ==> r.value.presentMode == PresentModeByPriority(modes)
  {
    if !surfaceSupported {
      return Err(SetupError("mWindowSurface not supported."));
    }
    var imageCount := ImageCount(caps);
    var surfaceFormat := ChooseSurfaceFormat(formats);
    var presentMode := ChoosePresentMode(modes);
    return Ok(SwapchainConfig(imageCount, surfaceFormat, presentMode));
  }
}
