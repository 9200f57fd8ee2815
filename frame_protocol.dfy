/**
 * The parts of `renderer` that drive the device once it exists: the choice
 * of the graphics queue family (`createDevice`), the recording of one
 * command buffer per framebuffer (`createCommandBuffers`) and the
 * acquire / submit / present protocol of `drawFrame` over two binary
 * semaphores.
 */
module FrameProtocol {
  import opened Base
  import Vk
  import SceneData
  import RR = ResourceRegistry

  // ----- queue family selection -----

  /** `uint32_t mQueueFamilyIndex = -1`: the initializer stores -1 modulo 2^32, the "not found" value. */
  const QueueFamilyNotFound: uint32 := AsUint32(-1)

  /** The two facts `createDevice` asks about a queue family of GPU 0. */
  datatype QueueFamily = QueueFamily(queueFlags: bv32, presentationSupported: bool)

  predicate Suitable(f: QueueFamily) {
    f.queueFlags & Vk.QUEUE_GRAPHICS != 0 && f.presentationSupported
  }

  /** The greatest index of a family with graphics and presentation support, or -1 when there is none. */
  function LastSuitable(families: seq<QueueFamily>): (k: int)
    ensures -1 <= k < |families|
    ensures k >= 0 ==> Suitable(families[k])
    ensures forall j | k < j < |families| :: !Suitable(families[j])
    decreases |families|
  {
    if |families| == 0 then -1
    else if Suitable(families[|families| - 1]) then |families| - 1
    else LastSuitable(families[..|families| - 1])
  }

  /** The sentinel is 2^32 - 1, an index no family of a `uint32_t`-counted list can have. */
  lemma SentinelIsNoIndex(families: seq<QueueFamily>)
    requires |families| < TwoTo32
    ensures QueueFamilyNotFound == TwoTo32 - 1
    ensures LastSuitable(families) != QueueFamilyNotFound
  {
  }

  // ----- command buffers and the frame protocol -----

  /** The commands `createCommandBuffers` records. */
  datatype Command =
    | BeginRenderPass(framebuffer: nat)
    | BindPipeline
    | BindVertexBuffer(buffer: nat)
    | BindIndexBuffer(buffer: nat, indexType: uint32)
    | BindDescriptorSets
    | DrawIndexed(indexCount: nat, instanceCount: nat, firstIndex: nat, vertexOffset: int, firstInstance: nat)
    | EndRenderPass

  /**
   * The recording of one command buffer: a render pass on `framebuffer` that
   * binds the pipeline, the vertex and index buffers and the descriptor sets,
   * and draws the scene's indices once.
   */
  function Recording(framebuffer: nat, vertexBuffer: nat, indexBuffer: nat): seq<Command> {
    [ BeginRenderPass(framebuffer),
      BindPipeline,
      BindVertexBuffer(vertexBuffer),
      BindIndexBuffer(indexBuffer, Vk.INDEX_TYPE_UINT16),
      BindDescriptorSets,
      DrawIndexed(|SceneData.Indices|, 1, 0, 0, 0),
      EndRenderPass ]
  }

  /** Every recording draws all fifteen 16-bit indices, one instance, inside the render pass on its own framebuffer. */
  lemma RecordingDrawsScene(framebuffer: nat, vertexBuffer: nat, indexBuffer: nat)
    ensures var r := Recording(framebuffer, vertexBuffer, indexBuffer);
      && r[0] == BeginRenderPass(framebuffer) && r[|r| - 1] == EndRenderPass
      && (forall k | 0 < k < |r| - 1 :: !r[k].BeginRenderPass? && !r[k].EndRenderPass?)
      && (exists k | 0 <= k < |r| :: r[k] == DrawIndexed(15, 1, 0, 0, 0))
      && (exists k | 0 <= k < |r| :: r[k] == BindIndexBuffer(indexBuffer, Vk.INDEX_TYPE_UINT16))
  {
    var r := Recording(framebuffer, vertexBuffer, indexBuffer);
    SceneData.IndicesValid();
    assert r[5] == DrawIndexed(15, 1, 0, 0, 0);
    assert r[3] == BindIndexBuffer(indexBuffer, Vk.INDEX_TYPE_UINT16);
  }

  datatype Semaphore = ImageAvailable | RenderFinished

  /** The operations `drawFrame` puts on the device queue and the presentation engine. */
  datatype QueueOp =
    | Acquire(imageIndex: uint32, signal: Semaphore)
    | Submit(commands: seq<Command>, wait: Semaphore, waitStage: bv32, signal: Semaphore)
    | Present(imageIndex: uint32, wait: Semaphore)

  /** Which of the two binary semaphores are signalled. */
  datatype Semaphores = Semaphores(imageAvailable: bool, renderFinished: bool)

  const Unsignalled := Semaphores(false, false)

  function IsSignalled(s: Semaphores, sem: Semaphore): bool {
    match sem
    case ImageAvailable => s.imageAvailable
    case RenderFinished => s.renderFinished
  }

  function SetSignalled(s: Semaphores, sem: Semaphore, value: bool): Semaphores {
    match sem
    case ImageAvailable => s.(imageAvailable := value)
    case RenderFinished => s.(renderFinished := value)
  }

  /**
   * One operation under binary-semaphore rules: a wait needs the semaphore
   * signalled and unsignals it; a signal needs it unsignalled. `None` is a
   * misuse.
   */
  function Step(s: Semaphores, op: QueueOp): Option<Semaphores> {
    match op
    case Acquire(_, signal) =>
      if IsSignalled(s, signal) then None else Some(SetSignalled(s, signal, true))
    case Submit(_, wait, _, signal) =>
      if !IsSignalled(s, wait) then None
      else
        var t := SetSignalled(s, wait, false);
        if IsSignalled(t, signal) then None else Some(SetSignalled(t, signal, true))
    case Present(_, wait) =>
      if !IsSignalled(s, wait) then None else Some(SetSignalled(s, wait, false))
  }

  /** A sequence of operations from state `s`, or `None` at the first misuse. */
  function Replay(s: Semaphores, ops: seq<QueueOp>): Option<Semaphores>
    decreases |ops|
  {
    if ops == [] then Some(s)
    else match Step(s, ops[0])
      case None => None
      case Some(t) => Replay(t, ops[1..])
  }

  /** Replays `ops` from the outcome of an earlier replay; a misuse stays a misuse. */
  function ReplayFrom(o: Option<Semaphores>, ops: seq<QueueOp>): Option<Semaphores> {
    match o
    case None => None
    case Some(s) => Replay(s, ops)
  }

  /** Replaying a concatenation is replaying its parts one after the other. */
  lemma {:induction false} ReplayAppend(s: Semaphores, a: seq<QueueOp>, b: seq<QueueOp>)
    ensures Replay(s, a + b) == ReplayFrom(Replay(s, a), b)
    decreases |a|
  {
    if a == [] {
      assert a + b == b;
    } else {
      assert (a + b)[0] == a[0];
      assert (a + b)[1..] == a[1..] + b;
      match Step(s, a[0])
      case None =>
      case Some(t) => ReplayAppend(t, a[1..], b);
    }
  }

  /** The three operations of one `drawFrame` that presents image `imageIndex` drawn by `commands`. */
  function Frame(imageIndex: uint32, commands: seq<Command>): seq<QueueOp> {
    [ Acquire(imageIndex, ImageAvailable),
      Submit(commands, ImageAvailable, Vk.STAGE_COLOR_ATTACHMENT_OUTPUT, RenderFinished),
      Present(imageIndex, RenderFinished) ]
  }

  /**
   * One frame is a correct use of the semaphores from the idle state and
   * returns to it: the submit finds the image-available semaphore the acquire
   * signalled, and the present finds the render-finished semaphore the
   * submit signalled. Without the acquire the submit is a misuse.
   */
  lemma FrameBalanced(imageIndex: uint32, commands: seq<Command>)
    ensures Replay(Unsignalled, Frame(imageIndex, commands)) == Some(Unsignalled)
    ensures Replay(Unsignalled, Frame(imageIndex, commands)[1..]) == None
  {
    var f := Frame(imageIndex, commands);
    var acquired := Semaphores(true, false);
    var submitted := Semaphores(false, true);
    assert Step(Unsignalled, f[0]) == Some(acquired);
    assert Step(acquired, f[1]) == Some(submitted);
    assert Step(submitted, f[2]) == Some(Unsignalled);
    assert f[1..][1..][1..] == [];
    assert f[1..][1..] == [f[2]];
    assert Replay(submitted, f[1..][1..]) == Some(Unsignalled);
    assert Step(Unsignalled, f[1]) == None;
  }

  /** The operations of consecutive frames. */
  function Frames(frames: seq<(uint32, seq<Command>)>): seq<QueueOp>
    decreases |frames|
  {
    if frames == [] then [] else Frame(frames[0].0, frames[0].1) + Frames(frames[1..])
  }

  /** Any number of frames in a row is a correct use of the semaphores and ends idle. */
  lemma {:induction false} FramesBalanced(frames: seq<(uint32, seq<Command>)>)
    ensures Replay(Unsignalled, Frames(frames)) == Some(Unsignalled)
    decreases |frames|
  {
    if frames != [] {
      ReplayAppend(Unsignalled, Frame(frames[0].0, frames[0].1), Frames(frames[1..]));
      FrameBalanced(frames[0].0, frames[0].1);
      FramesBalanced(frames[1..]);
    }
  }

  class Renderer {
    /** `mQueueFamilyIndex`. */
    var queueFamilyIndex: uint32
    /** The recorded contents of `mCommandBuffers`, one per framebuffer. */
    var commandBuffers: seq<seq<Command>>
    /** The renderer's `memoryBuffers` member. */
    const buffers: RR.MemoryBuffers
    /** Every operation put on the queue or the presentation engine so far, in order. */
    ghost var queueLog: seq<QueueOp>

    /** Between frames both semaphores are unsignalled and everything so far was a correct use of them. */
    ghost predicate Idle()
      reads this`queueLog
    {
      Replay(Unsignalled, queueLog) == Some(Unsignalled)
    }

    constructor ()
      ensures queueFamilyIndex == QueueFamilyNotFound
      ensures commandBuffers == [] && queueLog == [] && Idle()
      ensures fresh(buffers) && buffers.Valid() && buffers.CommandsTracked() && buffers.allocator == RR.Uncreated
    {
      queueFamilyIndex := QueueFamilyNotFound;
      commandBuffers := [];
      buffers := new RR.MemoryBuffers();
      queueLog := [];
    }

    /**
     * The queue-family part of `createDevice`: every family with graphics and
     * presentation support overwrites the index, so the last one wins; the
     * sentinel surviving the loop is an error. On success the allocator is
     * created (`buffers.init()`).
     */
    method CreateDevice(families: seq<QueueFamily>) returns (r: Outcome)
      requires |families| < TwoTo32
      requires buffers.allocator == RR.Uncreated
      modifies this`queueFamilyIndex, buffers`allocator
      ensures LastSuitable(families) >= 0 ==> queueFamilyIndex == LastSuitable(families)
      ensures LastSuitable(families) < 0 ==> queueFamilyIndex == old(queueFamilyIndex)
      ensures r.Fail? <==> queueFamilyIndex == QueueFamilyNotFound
      ensures old(queueFamilyIndex) == QueueFamilyNotFound ==>
                (r.Fail? <==> forall k | 0 <= k < |families| :: !Suitable(families[k]))
      ensures r.Fail? ==> r.error == SetupError("suitable queue family on GPU 0 not found.")
      ensures r.Fail? ==> buffers.allocator == RR.Uncreated
      ensures r.Pass? ==> buffers.allocator == RR.Alive
    {
      for i := 0 to |families|
        invariant LastSuitable(families[..i]) >= 0 ==> queueFamilyIndex == LastSuitable(families[..i])
        invariant LastSuitable(families[..i]) < 0 ==> queueFamilyIndex == old(queueFamilyIndex)
        invariant buffers.allocator == RR.Uncreated
      {
        assert families[..i + 1][..i] == families[..i];
        if families[i].queueFlags & Vk.QUEUE_GRAPHICS != 0 && families[i].presentationSupported {
          queueFamilyIndex := i;
        }
      }
      assert families[..|families|] == families;
      SentinelIsNoIndex(families);
      if queueFamilyIndex == QueueFamilyNotFound {
        return Fail(SetupError("suitable queue family on GPU 0 not found."));
      }
      buffers.Init();
      return Pass;
    }

    /** The buffer registry after `operator[]` looked up the vertex buffer and then the index buffer. */
    static function LookedUp(registry: map<string, RR.BufferAllocation>): (r: map<string, RR.BufferAllocation>)
      ensures r.Keys == registry.Keys + {"vertexBuffer", "indexBuffer"}
      ensures forall n | n in registry :: r[n] == registry[n]
      ensures forall n | n in r && n !in registry :: r[n] == RR.DefaultBufferAllocation
    {
      RR.Emplaced(RR.Emplaced(registry, "vertexBuffer", RR.DefaultBufferAllocation), "indexBuffer", RR.DefaultBufferAllocation)
    }

    /**
     * `createCommandBuffers`: one command buffer per framebuffer, buffer `i`
     * recorded against framebuffer `i`. The vertex and index buffers are
     * looked up by name on every iteration; a name never registered yields
     * the null handle and leaves a value-initialised entry under that name,
     * once at least one framebuffer asked for it.
     */
    method CreateCommandBuffers(framebuffers: seq<nat>)
      requires buffers.Valid()
      modifies this`commandBuffers, buffers`buffers
      ensures buffers.Valid()
      ensures buffers.buffers == if |framebuffers| == 0 then old(buffers.buffers) else LookedUp(old(buffers.buffers))
      ensures |commandBuffers| == |framebuffers|
      ensures forall i | 0 <= i < |framebuffers| ::
                commandBuffers[i] == Recording(framebuffers[i],
                                               RR.BufferHandle(old(buffers.buffers), "vertexBuffer"),
                                               RR.BufferHandle(old(buffers.buffers), "indexBuffer"))
    {
      ghost var vertexBuffer := RR.BufferHandle(buffers.buffers, "vertexBuffer");
      ghost var indexBuffer := RR.BufferHandle(buffers.buffers, "indexBuffer");
      ghost var registry := buffers.buffers;
      commandBuffers := seq(|framebuffers|, _ => []);
      for i := 0 to |framebuffers|
        invariant buffers.Valid()
        invariant buffers.buffers == if i == 0 then registry else LookedUp(registry)
        invariant RR.BufferHandle(buffers.buffers, "vertexBuffer") == vertexBuffer
        invariant RR.BufferHandle(buffers.buffers, "indexBuffer") == indexBuffer
        invariant |commandBuffers| == |framebuffers|
        invariant forall k | 0 <= k < i :: commandBuffers[k] == Recording(framebuffers[k], vertexBuffer, indexBuffer)
      {
        var vb := buffers.GetBuffer("vertexBuffer");
        var ib := buffers.GetBuffer("indexBuffer");
        commandBuffers := commandBuffers[i := Recording(framebuffers[i], vb, ib)];
      }
    }

    /**
     * `drawFrame`: acquires image `imageIndex`, signalling image-available;
     * submits that image's command buffer, waiting on image-available at the
     * colour-attachment-output stage and signalling render-finished; presents
     * the image once render-finished is signalled.
     */
    method DrawFrame(imageIndex: uint32)
      requires Idle() && imageIndex < |commandBuffers|
      modifies this`queueLog
      ensures Idle()
      ensures queueLog == old(queueLog) + Frame(imageIndex, commandBuffers[imageIndex])
    {
      ghost var before := queueLog;
      queueLog := queueLog + [Acquire(imageIndex, ImageAvailable)];
      queueLog := queueLog + [Submit(commandBuffers[imageIndex], ImageAvailable, Vk.STAGE_COLOR_ATTACHMENT_OUTPUT, RenderFinished)];
      queueLog := queueLog + [Present(imageIndex, RenderFinished)];
      assert queueLog == before + Frame(imageIndex, commandBuffers[imageIndex]);
      ReplayAppend(Unsignalled, before, Frame(imageIndex, commandBuffers[imageIndex]));
      FrameBalanced(imageIndex, commandBuffers[imageIndex]);
    }
  }
}
