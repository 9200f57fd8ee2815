/**
 * The decision part of `memoryBuffers::transitionImageLayout`: which
 * (old layout, new layout) pairs it accepts, the access masks and pipeline
 * stages of the barrier it records for each, and the aspect mask it derives
 * from the new layout and the image format.
 */
module LayoutTransitions {
  import opened Base
  import Vk

  /** The VkImageMemoryBarrier and stage pair passed to vkCmdPipelineBarrier (single mip level, single layer). */
  datatype ImageBarrier = ImageBarrier(
    image: nat,
    oldLayout: uint32,
    newLayout: uint32,
    aspectMask: bv32,
    srcAccess: bv32,
    dstAccess: bv32,
    srcStage: bv32,
    dstStage: bv32)

  /** The three transitions the renderer supports. */
  predicate Supported(oldLayout: uint32, newLayout: uint32) {
    || (oldLayout == Vk.LAYOUT_UNDEFINED && newLayout == Vk.LAYOUT_TRANSFER_DST_OPTIMAL)
    || (oldLayout == Vk.LAYOUT_TRANSFER_DST_OPTIMAL && newLayout == Vk.LAYOUT_SHADER_READ_ONLY_OPTIMAL)
    || (oldLayout == Vk.LAYOUT_UNDEFINED && newLayout == Vk.LAYOUT_DEPTH_STENCIL_ATTACHMENT_OPTIMAL)
  }

  predicate HasStencil(format: uint32) {
    format == Vk.FORMAT_D32_SFLOAT_S8_UINT || format == Vk.FORMAT_D24_UNORM_S8_UINT
  }

  /**
   * The aspect mask: depth (plus stencil for the two combined depth/stencil
   * formats) when the new layout is the depth-stencil attachment layout,
   * colour otherwise.
   */
  function AspectMask(format: uint32, newLayout: uint32): (mask: bv32)
    ensures mask & Vk.ASPECT_DEPTH != 0 <==> newLayout == Vk.LAYOUT_DEPTH_STENCIL_ATTACHMENT_OPTIMAL
    ensures mask & Vk.ASPECT_STENCIL != 0 <==> newLayout == Vk.LAYOUT_DEPTH_STENCIL_ATTACHMENT_OPTIMAL && HasStencil(format)
    ensures mask & Vk.ASPECT_COLOR != 0 <==> newLayout != Vk.LAYOUT_DEPTH_STENCIL_ATTACHMENT_OPTIMAL
    ensures mask & !(Vk.ASPECT_COLOR | Vk.ASPECT_DEPTH | Vk.ASPECT_STENCIL) == 0
  {
    if newLayout == Vk.LAYOUT_DEPTH_STENCIL_ATTACHMENT_OPTIMAL then
      if HasStencil(format) then Vk.ASPECT_DEPTH | Vk.ASPECT_STENCIL else Vk.ASPECT_DEPTH
    else
      Vk.ASPECT_COLOR
  }

  /**
   * The barrier for a transition, or the `std::invalid_argument` the source
   * throws for every pair outside the table.
   */
  function TransitionBarrier(image: nat, format: uint32, oldLayout: uint32, newLayout: uint32): (r: Result<ImageBarrier>)
    ensures r.Ok? <==> Supported(oldLayout, newLayout)
    ensures r.Err? ==> r.error == InvalidArgument("unsupported layout transition")
    ensures r.Ok? ==> r.value.image == image && r.value.oldLayout == oldLayout && r.value.newLayout == newLayout
    ensures r.Ok? ==> r.value.aspectMask == AspectMask(format, newLayout)
    // nothing needs to be made available from an undefined layout, which also starts at the top of the pipe
    ensures r.Ok? ==> (r.value.srcAccess == Vk.ACCESS_NONE <==> oldLayout == Vk.LAYOUT_UNDEFINED)
    ensures r.Ok? ==> (r.value.srcStage == Vk.STAGE_TOP_OF_PIPE <==> oldLayout == Vk.LAYOUT_UNDEFINED)
    // leaving the transfer-destination layout waits for the transfer writes
    ensures r.Ok? && oldLayout == Vk.LAYOUT_TRANSFER_DST_OPTIMAL ==>
              r.value.srcAccess == Vk.ACCESS_TRANSFER_WRITE && r.value.srcStage == Vk.STAGE_TRANSFER
    // the destination access is always a real access, and matches the new layout's use
    ensures r.Ok? ==> r.value.dstAccess != Vk.ACCESS_NONE
    ensures r.Ok? && newLayout == Vk.LAYOUT_TRANSFER_DST_OPTIMAL ==>
              r.value.dstAccess == Vk.ACCESS_TRANSFER_WRITE && r.value.dstStage == Vk.STAGE_TRANSFER
    ensures r.Ok? && newLayout == Vk.LAYOUT_SHADER_READ_ONLY_OPTIMAL ==>
              r.value.dstAccess == Vk.ACCESS_SHADER_READ && r.value.dstStage == Vk.STAGE_FRAGMENT_SHADER
    ensures r.Ok? && newLayout == Vk.LAYOUT_DEPTH_STENCIL_ATTACHMENT_OPTIMAL ==>
              r.value.dstAccess == Vk.ACCESS_DEPTH_STENCIL_ATTACHMENT_READ | Vk.ACCESS_DEPTH_STENCIL_ATTACHMENT_WRITE &&
              r.value.dstStage == Vk.STAGE_EARLY_FRAGMENT_TESTS
  {
    var aspect := AspectMask(format, newLayout);
    if oldLayout == Vk.LAYOUT_UNDEFINED && newLayout == Vk.LAYOUT_TRANSFER_DST_OPTIMAL then
      Ok(ImageBarrier(image, oldLayout, newLayout, aspect,
                      Vk.ACCESS_NONE, Vk.ACCESS_TRANSFER_WRITE,
                      Vk.STAGE_TOP_OF_PIPE, Vk.STAGE_TRANSFER))
    else if oldLayout == Vk.LAYOUT_TRANSFER_DST_OPTIMAL && newLayout == Vk.LAYOUT_SHADER_READ_ONLY_OPTIMAL then
      Ok(ImageBarrier(image, oldLayout, newLayout, aspect,
                      Vk.ACCESS_TRANSFER_WRITE, Vk.ACCESS_SHADER_READ,
                      Vk.STAGE_TRANSFER, Vk.STAGE_FRAGMENT_SHADER))
    else if oldLayout == Vk.LAYOUT_UNDEFINED && newLayout == Vk.LAYOUT_DEPTH_STENCIL_ATTACHMENT_OPTIMAL then
      Ok(ImageBarrier(image, oldLayout, newLayout, aspect,
                      Vk.ACCESS_NONE, Vk.ACCESS_DEPTH_STENCIL_ATTACHMENT_READ | Vk.ACCESS_DEPTH_STENCIL_ATTACHMENT_WRITE,
                      Vk.STAGE_TOP_OF_PIPE, Vk.STAGE_EARLY_FRAGMENT_TESTS))
    else
      Err(InvalidArgument("unsupported layout transition"))
  }
}
