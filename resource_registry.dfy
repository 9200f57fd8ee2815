/**
 * `renderer::memoryBuffers`: the allocator wrapper that owns two string-keyed
 * registries of GPU buffers and images, uploads data to them through staging
 * buffers and one-shot command buffers, and frees everything it registered
 * when it is destroyed.
 *
 * Handles and allocations are opaque numbers; 0 stands for VK_NULL_HANDLE
 * and for a null VmaAllocation. The allocator is modelled by the set of its
 * live allocations. Every buffer or image the model creates gets a handle and
 * an allocation with the same fresh number.
 */
module ResourceRegistry {
  import opened Base
  import Vk
  import LT = LayoutTransitions

  type Handle = nat
  type Allocation = nat

  const NullHandle: Handle := 0
  const NullAllocation: Allocation := 0

  datatype BufferAllocation = BufferAllocation(buffer: Handle, allocation: Allocation)
  datatype ImageAllocation = ImageAllocation(image: Handle, allocation: Allocation)

  /** The value-initialised entry `operator[]` inserts for a missing name. */
  const DefaultBufferAllocation := BufferAllocation(NullHandle, NullAllocation)

  /** Commands recorded into one-shot command buffers and executed on the graphics queue. */
  datatype GpuOp =
    | CopyBuffer(src: Handle, dst: Handle, size: nat)
    | CopyBufferToImage(src: Handle, image: Handle, layout: uint32)
    | PipelineBarrier(barrier: LT.ImageBarrier)

  datatype AllocatorState = Uncreated | Alive | Destroyed

  /**
   * The layout of `image` goes from `from` to `to` through `ops`, every barrier
   * on it being a supported transition out of the layout the image is in, and
   * every copy into it happening while it is in the transfer-destination layout.
   */
  ghost predicate LayoutChain(image: Handle, from: uint32, ops: seq<GpuOp>, to: uint32)
    decreases |ops|
  {
    if ops == [] then from == to
    else match ops[0]
      case PipelineBarrier(b) =>
        if b.image == image then
          b.oldLayout == from && LT.Supported(b.oldLayout, b.newLayout) && LayoutChain(image, b.newLayout, ops[1..], to)
        else LayoutChain(image, from, ops[1..], to)
      case CopyBufferToImage(_, target, layout) =>
        if target == image then
          layout == from && from == Vk.LAYOUT_TRANSFER_DST_OPTIMAL && LayoutChain(image, from, ops[1..], to)
        else LayoutChain(image, from, ops[1..], to)
      case CopyBuffer(_, _, _) => LayoutChain(image, from, ops[1..], to)
  }

  /** Who owns a live allocation: a buffer entry, an image entry, or no entry at all. */
  datatype Owner = BufferEntry(name: string) | ImageEntry(name: string) | Unowned

  ghost predicate NoDuplicates<T>(s: seq<T>) {
    forall i, j :: 0 <= i < j < |s| ==> s[i] != s[j]
  }

  /** Buffer entry `n`'s handle is its allocation and, unless null, that allocation is recorded as owned by `n`. */
  ghost predicate BufferEntryOwned(b: map<string, BufferAllocation>, owner: map<Allocation, Owner>, n: string)
    requires n in b
  {
    && b[n].buffer == b[n].allocation
    && (b[n].allocation != NullAllocation ==> b[n].allocation in owner && owner[b[n].allocation] == BufferEntry(n))
  }

  /** Image entry `n`'s handle is its allocation and, unless null, that allocation is recorded as owned by `n`. */
  ghost predicate ImageEntryOwned(i: map<string, ImageAllocation>, owner: map<Allocation, Owner>, n: string)
    requires n in i
  {
    && i[n].image == i[n].allocation
    && (i[n].allocation != NullAllocation ==> i[n].allocation in owner && owner[i[n].allocation] == ImageEntry(n))
  }

  /** An allocation recorded as owned by an entry is that entry's allocation. */
  ghost predicate OwnerEntry(b: map<string, BufferAllocation>, i: map<string, ImageAllocation>,
                             owner: map<Allocation, Owner>, a: Allocation)
    requires a in owner
  {
    && (owner[a].BufferEntry? ==> owner[a].name in b && b[owner[a].name].allocation == a)
    && (owner[a].ImageEntry? ==> owner[a].name in i && i[owner[a].name].allocation == a)
  }

  /**
   * The allocator's bookkeeping agrees with the registries. The live
   * allocations are exactly those with an owner record; none is null and all
   * are older than `next`. Every entry's handle is its allocation. Every
   * entry with a non-null allocation is recorded as its owner, and every
   * allocation recorded as owned by an entry is that entry's allocation.
   */
  ghost predicate Accounted(b: map<string, BufferAllocation>, i: map<string, ImageAllocation>,
                            live: set<Allocation>, owner: map<Allocation, Owner>, next: nat)
  {
    && live == owner.Keys
    && NullAllocation < next
    && NullAllocation !in live
    && (forall a | a in live :: a < next)
    && (forall n {:trigger BufferEntryOwned(b, owner, n)} | n in b :: BufferEntryOwned(b, owner, n))
    && (forall n {:trigger ImageEntryOwned(i, owner, n)} | n in i :: ImageEntryOwned(i, owner, n))
    && (forall a {:trigger OwnerEntry(b, i, owner, a)} | a in owner :: OwnerEntry(b, i, owner, a))
  }

  /** No two entries, of either registry, share a non-null allocation. */
  lemma EntriesDisjoint(b: map<string, BufferAllocation>, i: map<string, ImageAllocation>,
                        live: set<Allocation>, owner: map<Allocation, Owner>, next: nat)
    requires Accounted(b, i, live, owner, next)
    ensures forall n, m | n in b && m in b && n != m && b[n].allocation != NullAllocation ::
              b[n].allocation != b[m].allocation
    ensures forall n, m | n in i && m in i && n != m && i[n].allocation != NullAllocation ::
              i[n].allocation != i[m].allocation
    ensures forall n, m | n in b && m in i && b[n].allocation != NullAllocation ::
              b[n].allocation != i[m].allocation
  {
    forall n, m | n in b && m in b && n != m && b[n].allocation != NullAllocation
      ensures b[n].allocation != b[m].allocation
    {
      assert BufferEntryOwned(b, owner, n) && BufferEntryOwned(b, owner, m);
    }
    forall n, m | n in i && m in i && n != m && i[n].allocation != NullAllocation
      ensures i[n].allocation != i[m].allocation
    {
      assert ImageEntryOwned(i, owner, n) && ImageEntryOwned(i, owner, m);
    }
    forall n, m | n in b && m in i && b[n].allocation != NullAllocation
      ensures b[n].allocation != i[m].allocation
    {
      assert BufferEntryOwned(b, owner, n) && ImageEntryOwned(i, owner, m);
    }
  }

  /** `std::unordered_map::emplace`: inserts `v` under `name` only when `name` is not already a key. */
  function Emplaced<V>(m: map<string, V>, name: string, v: V): (r: map<string, V>)
    ensures r.Keys == m.Keys + {name}
    ensures forall n | n in m :: r[n] == m[n]
    ensures name !in m ==> r[name] == v
  {
    if name in m then m else m[name := v]
  }

  /**
   * Memory after a copy of `data` to offset 0 of buffer `dst`: the first
   * `|data|` bytes are replaced and any longer tail is kept.
   */
  function WrittenPrefix(memory: map<Handle, seq<byte>>, dst: Handle, data: seq<byte>): (m: map<Handle, seq<byte>>)
    requires dst != NullHandle
    ensures m.Keys == memory.Keys + {dst}
    ensures forall h | h in memory && h != dst :: m[h] == memory[h]
    ensures |m[dst]| >= |data| && m[dst][..|data|] == data
    ensures dst !in memory ==> m[dst] == data
    ensures dst in memory ==>
              |m[dst]| == (if |data| < |memory[dst]| then |memory[dst]| else |data|) &&
              m[dst][|data|..] == (if |data| < |memory[dst]| then memory[dst][|data|..] else [])
  {
    memory[dst := data + (if dst in memory && |data| < |memory[dst]| then memory[dst][|data|..] else [])]
  }

  /**
   * Stands for the error the validation layer reports when a copy names the
   * null buffer as its destination; `debugCallback` throws it as a
   * `std::runtime_error`. The layer's wording is not part of this model.
   */
  const NullDestinationReport: string := "vkCmdCopyBuffer: dstBuffer is VK_NULL_HANDLE"

  /** Uploading 8 bytes under a name that already holds a 16-byte buffer keeps that buffer's last 8 bytes. */
  lemma ReusedNameKeepsTail(memory: map<Handle, seq<byte>>, dst: Handle, first: seq<byte>, second: seq<byte>)
    requires dst != NullHandle && |first| == 16 && |second| == 8
    requires memory == WrittenPrefix(map[], dst, first)
    ensures WrittenPrefix(memory, dst, second)[dst] == second + first[8..]
    ensures WrittenPrefix(memory, dst, second)[dst] != second
  {
    assert memory[dst] == first;
    assert |WrittenPrefix(memory, dst, second)[dst]| == 16;
  }

  /** The handle a lookup of `name` yields: the entry's buffer, or the null handle of a value-initialised entry. */
  function BufferHandle(b: map<string, BufferAllocation>, name: string): Handle {
    if name in b then b[name].buffer else NullHandle
  }

  /** Who owns a buffer allocation `emplace`d under `name`: the new entry, or nobody when the name was taken. */
  function BufferClaim(b: map<string, BufferAllocation>, name: string): (o: Owner)
    ensures o == Unowned <==> name in b
    ensures o != Unowned ==> o == BufferEntry(name)
  {
    if name in b then Unowned else BufferEntry(name)
  }

  /** Who owns an image allocation `emplace`d under `name`: the new entry, or nobody when the name was taken. */
  function ImageClaim(i: map<string, ImageAllocation>, name: string): (o: Owner)
    ensures o == Unowned <==> name in i
    ensures o != Unowned ==> o == ImageEntry(name)
  {
    if name in i then Unowned else ImageEntry(name)
  }

  /** A fresh allocation that no entry owns yet keeps the bookkeeping consistent. */
  lemma AccountAllocate(b: map<string, BufferAllocation>, i: map<string, ImageAllocation>,
                        live: set<Allocation>, owner: map<Allocation, Owner>, next: nat)
    requires Accounted(b, i, live, owner, next)
    ensures next !in live
    ensures Accounted(b, i, live + {next}, owner[next := Unowned], next + 1)
  {
    var owner' := owner[next := Unowned];
    forall n | n in b
      ensures BufferEntryOwned(b, owner', n)
    {
      assert BufferEntryOwned(b, owner, n);
    }
    forall n | n in i
      ensures ImageEntryOwned(i, owner', n)
    {
      assert ImageEntryOwned(i, owner, n);
    }
    forall a | a in owner'
      ensures OwnerEntry(b, i, owner', a)
    {
      if a != next {
        assert OwnerEntry(b, i, owner, a);
      }
    }
  }

  /** Emplacing an unowned allocation as a buffer either registers it under the new name or leaves everything as it was. */
  lemma AccountEmplaceBuffer(b: map<string, BufferAllocation>, i: map<string, ImageAllocation>,
                             live: set<Allocation>, owner: map<Allocation, Owner>, next: nat, a: Allocation, name: string)
    requires Accounted(b, i, live, owner, next) && a in owner && owner[a] == Unowned
    ensures Accounted(Emplaced(b, name, BufferAllocation(a, a)), i, live, owner[a := BufferClaim(b, name)], next)
  {
    if name in b {
      assert owner[a := Unowned] == owner;
    } else {
      var b', owner' := b[name := BufferAllocation(a, a)], owner[a := BufferEntry(name)];
      forall n | n in b'
        ensures BufferEntryOwned(b', owner', n)
      {
        if n != name {
          assert BufferEntryOwned(b, owner, n);
        }
      }
      forall n | n in i
        ensures ImageEntryOwned(i, owner', n)
      {
        assert ImageEntryOwned(i, owner, n);
      }
      forall x | x in owner'
        ensures OwnerEntry(b', i, owner', x)
      {
        if x != a {
          assert OwnerEntry(b, i, owner, x);
        }
      }
    }
  }

  /** Emplacing an unowned allocation as an image either registers it under the new name or leaves everything as it was. */
  lemma AccountEmplaceImage(b: map<string, BufferAllocation>, i: map<string, ImageAllocation>,
                            live: set<Allocation>, owner: map<Allocation, Owner>, next: nat, a: Allocation, name: string)
    requires Accounted(b, i, live, owner, next) && a in owner && owner[a] == Unowned
    ensures Accounted(b, Emplaced(i, name, ImageAllocation(a, a)), live, owner[a := ImageClaim(i, name)], next)
  {
    if name in i {
      assert owner[a := Unowned] == owner;
    } else {
      var i', owner' := i[name := ImageAllocation(a, a)], owner[a := ImageEntry(name)];
      forall n | n in b
        ensures BufferEntryOwned(b, owner', n)
      {
        assert BufferEntryOwned(b, owner, n);
      }
      forall n | n in i'
        ensures ImageEntryOwned(i', owner', n)
      {
        if n != name {
          assert ImageEntryOwned(i, owner, n);
        }
      }
      forall x | x in owner'
        ensures OwnerEntry(b, i', owner', x)
      {
        if x != a {
          assert OwnerEntry(b, i, owner, x);
        }
      }
    }
  }

  /** Freeing an allocation no entry owns keeps the bookkeeping consistent. */
  lemma AccountFree(b: map<string, BufferAllocation>, i: map<string, ImageAllocation>,
                    live: set<Allocation>, owner: map<Allocation, Owner>, next: nat, a: Allocation)
    requires Accounted(b, i, live, owner, next) && a in owner && owner[a] == Unowned
    ensures Accounted(b, i, live - {a}, owner - {a}, next)
  {
    var owner' := owner - {a};
    forall n | n in b
      ensures BufferEntryOwned(b, owner', n)
    {
      assert BufferEntryOwned(b, owner, n);
    }
    forall n | n in i
      ensures ImageEntryOwned(i, owner', n)
    {
      assert ImageEntryOwned(i, owner, n);
    }
    forall x | x in owner'
      ensures OwnerEntry(b, i, owner', x)
    {
      assert OwnerEntry(b, i, owner, x);
    }
  }

  /** A value-initialised entry owns nothing, so inserting one changes no bookkeeping. */
  lemma AccountDefaultBuffer(b: map<string, BufferAllocation>, i: map<string, ImageAllocation>,
                             live: set<Allocation>, owner: map<Allocation, Owner>, next: nat, name: string)
    requires Accounted(b, i, live, owner, next) && name !in b
    ensures Accounted(b[name := DefaultBufferAllocation], i, live, owner, next)
  {
    var b' := b[name := DefaultBufferAllocation];
    forall n | n in b'
      ensures BufferEntryOwned(b', owner, n)
    {
      if n != name {
        assert BufferEntryOwned(b, owner, n);
      }
    }
    forall x | x in owner
      ensures OwnerEntry(b', i, owner, x)
    {
      assert OwnerEntry(b, i, owner, x);
    }
  }

  /** Staging allocation `s` is added and removed again around the creation of `a`: only `a` remains. */
  lemma StagingDropped(live: set<Allocation>, owner: map<Allocation, Owner>, s: Allocation, a: Allocation, claim: Owner)
    requires s !in live && s !in owner && s != a
    ensures live + {s} + {a} - {s} == live + {a}
    ensures owner[s := Unowned][a := Unowned][a := claim] - {s} == owner[a := claim]
    ensures owner[s := Unowned][a := claim] - {s} == owner[a := claim]
  {
  }

  /** Owner `o` is an entry among those destroyed so far. */
  predicate Released(o: Owner, doneBuffers: set<string>, doneImages: set<string>) {
    || (o.BufferEntry? && o.name in doneBuffers)
    || (o.ImageEntry? && o.name in doneImages)
  }

  /** The three commands of an image upload take the image from undefined to shader-read-only. */
  lemma UploadChain(image: Handle, staging: Handle, ops: seq<GpuOp>)
    requires ops == [
      PipelineBarrier(LT.TransitionBarrier(image, Vk.FORMAT_R8G8B8A8_UNORM, Vk.LAYOUT_UNDEFINED, Vk.LAYOUT_TRANSFER_DST_OPTIMAL).value),
      CopyBufferToImage(staging, image, Vk.LAYOUT_TRANSFER_DST_OPTIMAL),
      PipelineBarrier(LT.TransitionBarrier(image, Vk.FORMAT_R8G8B8A8_UNORM, Vk.LAYOUT_TRANSFER_DST_OPTIMAL, Vk.LAYOUT_SHADER_READ_ONLY_OPTIMAL).value)]
    ensures LayoutChain(image, Vk.LAYOUT_UNDEFINED, ops, Vk.LAYOUT_SHADER_READ_ONLY_OPTIMAL)
  {
    var first := LT.TransitionBarrier(image, Vk.FORMAT_R8G8B8A8_UNORM, Vk.LAYOUT_UNDEFINED, Vk.LAYOUT_TRANSFER_DST_OPTIMAL).value;
    var last := LT.TransitionBarrier(image, Vk.FORMAT_R8G8B8A8_UNORM, Vk.LAYOUT_TRANSFER_DST_OPTIMAL, Vk.LAYOUT_SHADER_READ_ONLY_OPTIMAL).value;
    assert first.image == image && first.newLayout == Vk.LAYOUT_TRANSFER_DST_OPTIMAL;
    assert last.image == image && last.oldLayout == Vk.LAYOUT_TRANSFER_DST_OPTIMAL;
    assert LayoutChain(image, Vk.LAYOUT_SHADER_READ_ONLY_OPTIMAL, ops[3..], Vk.LAYOUT_SHADER_READ_ONLY_OPTIMAL);
    assert ops[2..][1..] == ops[3..];
    assert LayoutChain(image, Vk.LAYOUT_TRANSFER_DST_OPTIMAL, ops[2..], Vk.LAYOUT_SHADER_READ_ONLY_OPTIMAL);
    assert ops[1..][1..] == ops[2..];
    assert LayoutChain(image, Vk.LAYOUT_TRANSFER_DST_OPTIMAL, ops[1..], Vk.LAYOUT_SHADER_READ_ONLY_OPTIMAL);
  }

  /** The single barrier of a depth buffer takes it from undefined to the depth-stencil-attachment layout. */
  lemma DepthChain(image: Handle, format: uint32, ops: seq<GpuOp>)
    requires ops == [PipelineBarrier(LT.TransitionBarrier(image, format, Vk.LAYOUT_UNDEFINED, Vk.LAYOUT_DEPTH_STENCIL_ATTACHMENT_OPTIMAL).value)]
    ensures LayoutChain(image, Vk.LAYOUT_UNDEFINED, ops, Vk.LAYOUT_DEPTH_STENCIL_ATTACHMENT_OPTIMAL)
  {
    assert ops[1..] == [];
  }

  class MemoryBuffers {
    var buffers: map<string, BufferAllocation>
    var images: map<string, ImageAllocation>
    var allocator: AllocatorState
    /** The allocations the allocator currently holds. */
    var live: set<Allocation>
    /** The bytes last written to each buffer or image. */
    var memory: map<Handle, seq<byte>>
    /** One-shot command buffers allocated from the parent's command pool and not yet freed. */
    var openCommandBuffers: set<Handle>
    /** The next unused buffer or image handle number. */
    var nextHandle: nat
    /** The next unused command buffer handle number. */
    var nextCommandBuffer: nat
    /** The owner of every live allocation. */
    ghost var owner: map<Allocation, Owner>
    /** Every command executed through a one-shot command buffer, in order. */
    ghost var gpuLog: seq<GpuOp>
    /** Every allocation handed back to the allocator, in order. */
    ghost var freeLog: seq<Allocation>
    /** Set once the allocator was destroyed although it had never been created. */
    ghost var uninitialisedDestroy: bool

    /** Live allocations that no registry entry owns. */
    ghost function Leaked(): set<Allocation>
      reads this`owner
    {
      set a | a in owner && owner[a] == Unowned
    }

    /** The allocations owned by registry entries. */
    ghost function Registered(): set<Allocation>
      reads this`owner
    {
      set a | a in owner && owner[a] != Unowned
    }

    /** Every open one-shot command buffer was handed out before `nextCommandBuffer`. */
    ghost predicate CommandsTracked()
      reads this`nextCommandBuffer, this`openCommandBuffers
    {
      forall c | c in openCommandBuffers :: c < nextCommandBuffer
    }

    ghost predicate Valid()
      reads this`buffers, this`images, this`live, this`owner, this`nextHandle
    {
      Accounted(buffers, images, live, owner, nextHandle)
    }

    constructor ()
      ensures Valid() && CommandsTracked()
      ensures buffers == map[] && images == map[] && allocator == Uncreated
      ensures live == {} && openCommandBuffers == {}
      ensures gpuLog == [] && freeLog == [] && !uninitialisedDestroy
    {
      buffers, images := map[], map[];
      allocator := Uncreated;
      live, memory := {}, map[];
      openCommandBuffers := {};
      nextHandle, nextCommandBuffer := 1, 0;
      owner := map[];
      gpuLog, freeLog := [], [];
      uninitialisedDestroy := false;
    }

    /** `init`: creates the allocator. */
    method Init()
      requires allocator == Uncreated
      modifies this`allocator
      ensures allocator == Alive
    {
      allocator := Alive;
    }

    /**
     * The destructor's last call, as written: `vmaDestroyAllocator` runs
     * whether or not `init` ever created the allocator. After a setup error
     * that precedes `init`, the handle it is given was never initialised.
     */
    method DestroyAllocatorAsWritten()
      modifies this`allocator, this`uninitialisedDestroy
      ensures allocator == Destroyed
      ensures uninitialisedDestroy <==> old(uninitialisedDestroy) || old(allocator) == Uncreated
    {
      if allocator == Uncreated {
        uninitialisedDestroy := true;
      }
      allocator := Destroyed;
    }

    /**
     * The destructor's last call, corrected: an allocator that `init` never
     * created is left alone (as `vmaDestroyAllocator` does for a handle
     * initialised to null), a created one is destroyed.
     */
    method DestroyAllocator()
      modifies this`allocator
      ensures old(allocator) == Alive ==> allocator == Destroyed
      ensures old(allocator) != Alive ==> allocator == old(allocator)
    {
      if allocator == Alive {
        allocator := Destroyed;
      }
    }

    // ----- steps standing for allocator and command-pool calls -----

    /**
     * vmaCreateBuffer / vmaCreateImage: a fresh handle backed by a fresh
     * allocation, which no entry owns until it is `emplace`d.
     */
    method Allocate() returns (a: Allocation)
      requires Valid() && allocator == Alive
      modifies this`nextHandle, this`live, this`owner
      ensures Valid()
      ensures a == old(nextHandle) && nextHandle == a + 1 && a !in old(live)
      ensures live == old(live) + {a} && owner == old(owner)[a := Unowned]
    {
      AccountAllocate(buffers, images, live, owner, nextHandle);
      a := nextHandle;
      nextHandle := nextHandle + 1;
      live := live + {a};
      owner := owner[a := Unowned];
    }

    /**
     * vmaDestroyBuffer / vmaDestroyImage: destroys a non-null handle and frees
     * a non-null allocation, which must be live; with both null it does nothing.
     */
    method VmaDestroy(handle: Handle, a: Allocation)
      requires a != NullAllocation ==> a in live && allocator != Destroyed
      modifies this`live, this`freeLog
      ensures a == NullAllocation ==> live == old(live) && freeLog == old(freeLog)
      ensures a != NullAllocation ==> live == old(live) - {a} && freeLog == old(freeLog) + [a]
    {
      if a != NullAllocation {
        live := live - {a};
        freeLog := freeLog + [a];
      }
    }

    /** Destroys a live allocation that is its own handle, such as a staging buffer. */
    method Free(a: Allocation)
      requires Valid() && a in owner && owner[a] == Unowned && allocator != Destroyed
      modifies this`live, this`owner, this`freeLog
      ensures Valid()
      ensures live == old(live) - {a} && owner == old(owner) - {a}
      ensures freeLog == old(freeLog) + [a]
    {
      AccountFree(buffers, images, live, owner, nextHandle, a);
      VmaDestroy(a, a);
      owner := owner - {a};
    }

    /** `buffers.emplace(name, ...)`: the entry goes in only when the name is new. */
    method EmplaceBuffer(name: string, a: Allocation)
      requires Valid() && a in owner && owner[a] == Unowned
      modifies this`buffers, this`owner
      ensures Valid()
      ensures buffers == Emplaced(old(buffers), name, BufferAllocation(a, a))
      ensures owner == old(owner)[a := BufferClaim(old(buffers), name)]
    {
      AccountEmplaceBuffer(buffers, images, live, owner, nextHandle, a, name);
      owner := owner[a := BufferClaim(buffers, name)];
      if name !in buffers {
        buffers := buffers[name := BufferAllocation(a, a)];
      }
    }

    /** `images.emplace(name, ...)`: the entry goes in only when the name is new. */
    method EmplaceImage(name: string, a: Allocation)
      requires Valid() && a in owner && owner[a] == Unowned
      modifies this`images, this`owner
      ensures Valid()
      ensures images == Emplaced(old(images), name, ImageAllocation(a, a))
      ensures owner == old(owner)[a := ImageClaim(old(images), name)]
    {
      AccountEmplaceImage(buffers, images, live, owner, nextHandle, a, name);
      owner := owner[a := ImageClaim(images, name)];
      if name !in images {
        images := images[name := ImageAllocation(a, a)];
      }
    }

    /** `beginSingleTimeCommands`: allocates and begins a one-shot command buffer. */
    method BeginSingleTimeCommands() returns (c: Handle)
      requires CommandsTracked()
      modifies this`nextCommandBuffer, this`openCommandBuffers
      ensures CommandsTracked()
      ensures c == old(nextCommandBuffer) && nextCommandBuffer == c + 1 && c !in old(openCommandBuffers)
      ensures openCommandBuffers == old(openCommandBuffers) + {c}
    {
      c := nextCommandBuffer;
      nextCommandBuffer := nextCommandBuffer + 1;
      openCommandBuffers := openCommandBuffers + {c};
    }

    /** `endSingleTimeCommands`: submits, waits for the queue and frees the command buffer. */
    method EndSingleTimeCommands(c: Handle)
      requires CommandsTracked()
      modifies this`openCommandBuffers
      ensures CommandsTracked()
      ensures openCommandBuffers == old(openCommandBuffers) - {c}
    {
      openCommandBuffers := openCommandBuffers - {c};
    }

    /**
     * `copyBuffer`: a one-shot command buffer that copies `size` bytes from
     * `src` to the front of `dst`. A null destination is invalid usage: the
     * validation layer reports an error while the copy is recorded,
     * `debugCallback` throws it, and the begun command buffer is never freed.
     */
    method CopyBuffer(src: Handle, dst: Handle, size: nat) returns (r: Outcome)
      requires CommandsTracked() && src in memory && size <= |memory[src]|
      modifies this`nextCommandBuffer, this`openCommandBuffers, this`memory, this`gpuLog
      ensures CommandsTracked()
      ensures r.Pass? <==> dst != NullHandle
      ensures r.Pass? ==> openCommandBuffers == old(openCommandBuffers)
      ensures r.Pass? ==> memory == WrittenPrefix(old(memory), dst, old(memory)[src][..size])
      ensures r.Pass? ==> gpuLog == old(gpuLog) + [GpuOp.CopyBuffer(src, dst, size)]
      ensures r.Fail? ==> r.error == RuntimeError(NullDestinationReport)
      ensures r.Fail? ==>
                old(nextCommandBuffer) !in old(openCommandBuffers) &&
                openCommandBuffers == old(openCommandBuffers) + {old(nextCommandBuffer)}
      ensures r.Fail? ==> memory == old(memory) && gpuLog == old(gpuLog)
    {
      var commandBuffer := BeginSingleTimeCommands();
      if dst == NullHandle {
        return Fail(RuntimeError(NullDestinationReport));
      }
      memory := WrittenPrefix(memory, dst, memory[src][..size]);
      gpuLog := gpuLog + [GpuOp.CopyBuffer(src, dst, size)];
      EndSingleTimeCommands(commandBuffer);
      return Pass;
    }

    /** The copy recorded by `createGPUImage`: the staged pixels go into `image`, in the transfer-destination layout. */
    method CopyBufferToImage(src: Handle, image: Handle)
      requires CommandsTracked() && src in memory
      modifies this`nextCommandBuffer, this`openCommandBuffers, this`memory, this`gpuLog
      ensures CommandsTracked() && openCommandBuffers == old(openCommandBuffers)
      ensures memory == old(memory)[image := old(memory)[src]]
      ensures gpuLog == old(gpuLog) + [GpuOp.CopyBufferToImage(src, image, Vk.LAYOUT_TRANSFER_DST_OPTIMAL)]
    {
      var commandBuffer := BeginSingleTimeCommands();
      memory := memory[image := memory[src]];
      gpuLog := gpuLog + [GpuOp.CopyBufferToImage(src, image, Vk.LAYOUT_TRANSFER_DST_OPTIMAL)];
      EndSingleTimeCommands(commandBuffer);
    }

    /** The staging half of an upload: a host-visible buffer holding `data` (vmaCreateBuffer, then map, memcpy and unmap). */
    method Stage(data: seq<byte>) returns (s: Allocation)
      requires Valid() && allocator == Alive
      modifies this`nextHandle, this`live, this`owner, this`memory
      ensures Valid()
      ensures s == old(nextHandle) && nextHandle == s + 1 && s !in old(live)
      ensures live == old(live) + {s} && owner == old(owner)[s := Unowned]
      ensures memory == old(memory)[s := data]
    {
      s := Allocate();
      memory := memory[s := data];
    }

    /**
     * A new buffer `emplace`d under `name`: the common part of
     * `createGPUBuffer` and `createUniformBuffer`. Nothing has been written
     * to the new buffer yet.
     */
    method AllocateBufferEntry(name: string) returns (a: Allocation)
      requires Valid() && allocator == Alive
      modifies this`nextHandle, this`live, this`owner, this`buffers, this`memory
      ensures Valid()
      ensures a == old(nextHandle) && nextHandle == a + 1 && a !in old(live)
      ensures live == old(live) + {a} && owner == old(owner)[a := BufferClaim(old(buffers), name)]
      ensures buffers == Emplaced(old(buffers), name, BufferAllocation(a, a))
      ensures memory == old(memory) - {a}
    {
      a := Allocate();
      memory := memory - {a};
      EmplaceBuffer(name, a);
    }

    /**
     * Copies `size` staged bytes into `dst` and destroys the staging buffer.
     * When the copy throws, the staging buffer is never destroyed.
     */
    method CopyAndFree(staging: Allocation, dst: Handle, size: nat) returns (r: Outcome)
      requires Valid() && CommandsTracked() && staging in owner && owner[staging] == Unowned && allocator != Destroyed
      requires staging in memory && size <= |memory[staging]|
      modifies this`nextCommandBuffer, this`openCommandBuffers, this`memory, this`gpuLog, this`live, this`owner, this`freeLog
      ensures Valid() && CommandsTracked()
      ensures r.Pass? <==> dst != NullHandle
      ensures r.Pass? ==> openCommandBuffers == old(openCommandBuffers)
      ensures r.Pass? ==> live == old(live) - {staging} && owner == old(owner) - {staging} && freeLog == old(freeLog) + [staging]
      ensures r.Pass? ==> memory == WrittenPrefix(old(memory), dst, old(memory)[staging][..size])
      ensures r.Pass? ==> gpuLog == old(gpuLog) + [GpuOp.CopyBuffer(staging, dst, size)]
      ensures r.Fail? ==> r.error == RuntimeError(NullDestinationReport)
      ensures r.Fail? ==>
                old(nextCommandBuffer) !in old(openCommandBuffers) &&
                openCommandBuffers == old(openCommandBuffers) + {old(nextCommandBuffer)}
      ensures r.Fail? ==> live == old(live) && owner == old(owner) && freeLog == old(freeLog)
      ensures r.Fail? ==> memory == old(memory) && gpuLog == old(gpuLog)
    {
      r := CopyBuffer(staging, dst, size);
      if r.Pass? {
        Free(staging);
      }
    }

    /**
     * The recording part of `createGPUImage`: `image` goes to the
     * transfer-destination layout, receives the staged pixels and goes to the
     * shader-read-only layout, each step in its own one-shot command buffer.
     */
    method UploadPixels(staging: Handle, image: Handle)
      requires CommandsTracked() && staging in memory
      modifies this`nextCommandBuffer, this`openCommandBuffers, this`memory, this`gpuLog
      ensures CommandsTracked() && openCommandBuffers == old(openCommandBuffers)
      ensures memory == old(memory)[image := old(memory)[staging]]
      ensures gpuLog == old(gpuLog) + [
                PipelineBarrier(LT.TransitionBarrier(image, Vk.FORMAT_R8G8B8A8_UNORM, Vk.LAYOUT_UNDEFINED, Vk.LAYOUT_TRANSFER_DST_OPTIMAL).value),
                GpuOp.CopyBufferToImage(staging, image, Vk.LAYOUT_TRANSFER_DST_OPTIMAL),
                PipelineBarrier(LT.TransitionBarrier(image, Vk.FORMAT_R8G8B8A8_UNORM, Vk.LAYOUT_TRANSFER_DST_OPTIMAL, Vk.LAYOUT_SHADER_READ_ONLY_OPTIMAL).value)]
      ensures LayoutChain(image, Vk.LAYOUT_UNDEFINED, gpuLog[|old(gpuLog)|..], Vk.LAYOUT_SHADER_READ_ONLY_OPTIMAL)
    {
      var r := TransitionImageLayout(image, Vk.FORMAT_R8G8B8A8_UNORM, Vk.LAYOUT_UNDEFINED, Vk.LAYOUT_TRANSFER_DST_OPTIMAL);
      assert r.Pass?;
      CopyBufferToImage(staging, image);
      r := TransitionImageLayout(image, Vk.FORMAT_R8G8B8A8_UNORM, Vk.LAYOUT_TRANSFER_DST_OPTIMAL, Vk.LAYOUT_SHADER_READ_ONLY_OPTIMAL);
      assert r.Pass?;
      UploadChain(image, staging, gpuLog[|old(gpuLog)|..]);
    }

    /** A new image (vmaCreateImage) holding the staged pixels, in the shader-read-only layout and owned by no entry yet. */
    method CreateFilledImage(staging: Handle) returns (image: Allocation)
      requires Valid() && CommandsTracked() && allocator == Alive && staging in memory
      modifies this`nextHandle, this`live, this`owner, this`nextCommandBuffer, this`openCommandBuffers, this`memory, this`gpuLog
      ensures Valid() && CommandsTracked() && openCommandBuffers == old(openCommandBuffers)
      ensures image == old(nextHandle) && nextHandle == image + 1 && image !in old(live)
      ensures live == old(live) + {image} && owner == old(owner)[image := Unowned]
      ensures memory == old(memory)[image := old(memory)[staging]]
      ensures gpuLog == old(gpuLog) + [
                PipelineBarrier(LT.TransitionBarrier(image, Vk.FORMAT_R8G8B8A8_UNORM, Vk.LAYOUT_UNDEFINED, Vk.LAYOUT_TRANSFER_DST_OPTIMAL).value),
                GpuOp.CopyBufferToImage(staging, image, Vk.LAYOUT_TRANSFER_DST_OPTIMAL),
                PipelineBarrier(LT.TransitionBarrier(image, Vk.FORMAT_R8G8B8A8_UNORM, Vk.LAYOUT_TRANSFER_DST_OPTIMAL, Vk.LAYOUT_SHADER_READ_ONLY_OPTIMAL).value)]
      ensures LayoutChain(image, Vk.LAYOUT_UNDEFINED, gpuLog[|old(gpuLog)|..], Vk.LAYOUT_SHADER_READ_ONLY_OPTIMAL)
    {
      image := Allocate();
      UploadPixels(staging, image);
    }

    /**
     * The device-local half of `createGPUBuffer`: a new buffer `emplace`d
     * under `name`, then filled from `staging`, which is then destroyed. The
     * copy throws when the name holds a null buffer.
     */
    method UploadBuffer(staging: Allocation, size: nat, name: string) returns (a: Allocation, r: Outcome)
      requires Valid() && CommandsTracked() && allocator == Alive
      requires staging in owner && owner[staging] == Unowned && staging in memory && size <= |memory[staging]|
      modifies this`nextHandle, this`live, this`owner, this`memory, this`buffers, this`nextCommandBuffer, this`openCommandBuffers, this`gpuLog, this`freeLog
      ensures Valid() && CommandsTracked()
      ensures a == old(nextHandle) && a !in old(live)
      ensures buffers == Emplaced(old(buffers), name, BufferAllocation(a, a))
      ensures r.Pass? <==> buffers[name].buffer != NullHandle
      ensures r.Pass? ==> openCommandBuffers == old(openCommandBuffers)
      ensures r.Pass? ==> live == old(live) + {a} - {staging} && owner == old(owner)[a := BufferClaim(old(buffers), name)] - {staging}
      ensures r.Pass? ==> freeLog == old(freeLog) + [staging]
      ensures r.Pass? ==> memory == WrittenPrefix(old(memory) - {a}, buffers[name].buffer, old(memory)[staging][..size])
      ensures r.Pass? ==> gpuLog == old(gpuLog) + [GpuOp.CopyBuffer(staging, buffers[name].buffer, size)]
      ensures r.Fail? ==> r.error == RuntimeError(NullDestinationReport)
      ensures r.Fail? ==>
                old(nextCommandBuffer) !in old(openCommandBuffers) &&
                openCommandBuffers == old(openCommandBuffers) + {old(nextCommandBuffer)}
      ensures r.Fail? ==> live == old(live) + {a} && owner == old(owner)[a := BufferClaim(old(buffers), name)]
      ensures r.Fail? ==> freeLog == old(freeLog) && memory == old(memory) - {a} && gpuLog == old(gpuLog)
    {
      a := AllocateBufferEntry(name);
      r := CopyAndFree(staging, buffers[name].buffer, size);
    }

    /** `emplace`s the unowned image allocation `a` under `name`, then destroys the unowned staging allocation. */
    method StoreImage(name: string, a: Allocation, staging: Allocation)
      requires Valid() && a in owner && owner[a] == Unowned && staging in owner && owner[staging] == Unowned && a != staging
      requires allocator != Destroyed
      modifies this`live, this`owner, this`images, this`freeLog
      ensures Valid()
      ensures live == old(live) - {staging} && owner == old(owner)[a := ImageClaim(old(images), name)] - {staging}
      ensures freeLog == old(freeLog) + [staging]
      ensures images == Emplaced(old(images), name, ImageAllocation(a, a))
    {
      EmplaceImage(name, a);
      Free(staging);
    }

    /** The device-local half of `createGPUImage`: a new image filled from `staging`, `emplace`d under `name`; `staging` is then destroyed. */
    method UploadImage(staging: Allocation, name: string) returns (a: Allocation)
      requires Valid() && CommandsTracked() && allocator == Alive
      requires staging in owner && owner[staging] == Unowned && staging in memory
      modifies this`nextHandle, this`live, this`owner, this`memory, this`images, this`nextCommandBuffer, this`openCommandBuffers, this`gpuLog, this`freeLog
      ensures Valid() && CommandsTracked() && openCommandBuffers == old(openCommandBuffers)
      ensures a == old(nextHandle) && a !in old(live)
      ensures live == old(live) + {a} - {staging} && owner == old(owner)[a := Unowned][a := ImageClaim(old(images), name)] - {staging}
      ensures freeLog == old(freeLog) + [staging]
      ensures images == Emplaced(old(images), name, ImageAllocation(a, a))
      ensures memory == old(memory)[a := old(memory)[staging]]
      ensures gpuLog == old(gpuLog) + [
                PipelineBarrier(LT.TransitionBarrier(a, Vk.FORMAT_R8G8B8A8_UNORM, Vk.LAYOUT_UNDEFINED, Vk.LAYOUT_TRANSFER_DST_OPTIMAL).value),
                GpuOp.CopyBufferToImage(staging, a, Vk.LAYOUT_TRANSFER_DST_OPTIMAL),
                PipelineBarrier(LT.TransitionBarrier(a, Vk.FORMAT_R8G8B8A8_UNORM, Vk.LAYOUT_TRANSFER_DST_OPTIMAL, Vk.LAYOUT_SHADER_READ_ONLY_OPTIMAL).value)]
      ensures LayoutChain(a, Vk.LAYOUT_UNDEFINED, gpuLog[|old(gpuLog)|..], Vk.LAYOUT_SHADER_READ_ONLY_OPTIMAL)
    {
      a := CreateFilledImage(staging);
      StoreImage(name, a, staging);
    }

    /** A new depth image (vmaCreateImage) in the depth-stencil-attachment layout, owned by no entry yet. */
    method CreateDepthImage(depthFormat: uint32) returns (image: Allocation)
      requires Valid() && CommandsTracked() && allocator == Alive
      modifies this`nextHandle, this`live, this`owner, this`nextCommandBuffer, this`openCommandBuffers, this`gpuLog
      ensures Valid() && CommandsTracked() && openCommandBuffers == old(openCommandBuffers)
      ensures image == old(nextHandle) && nextHandle == image + 1 && image !in old(live)
      ensures live == old(live) + {image} && owner == old(owner)[image := Unowned]
      ensures gpuLog == old(gpuLog) + [
                PipelineBarrier(LT.TransitionBarrier(image, depthFormat, Vk.LAYOUT_UNDEFINED, Vk.LAYOUT_DEPTH_STENCIL_ATTACHMENT_OPTIMAL).value)]
      ensures LayoutChain(image, Vk.LAYOUT_UNDEFINED, gpuLog[|old(gpuLog)|..], Vk.LAYOUT_DEPTH_STENCIL_ATTACHMENT_OPTIMAL)
    {
      image := Allocate();
      var r := TransitionImageLayout(image, depthFormat, Vk.LAYOUT_UNDEFINED, Vk.LAYOUT_DEPTH_STENCIL_ATTACHMENT_OPTIMAL);
      assert r.Pass?;
      DepthChain(image, depthFormat, gpuLog[|old(gpuLog)|..]);
    }

    // ----- the operations of memoryBuffers -----

    /**
     * `transitionImageLayout`: records a barrier for a supported transition;
     * for any other pair it throws after the one-shot command buffer was
     * begun, so that command buffer is never freed.
     */
    method TransitionImageLayout(image: Handle, format: uint32, oldLayout: uint32, newLayout: uint32) returns (r: Outcome)
      requires CommandsTracked()
      modifies this`nextCommandBuffer, this`openCommandBuffers, this`gpuLog
      ensures CommandsTracked()
      ensures r.Pass? <==> LT.Supported(oldLayout, newLayout)
      ensures r.Fail? ==> r.error == InvalidArgument("unsupported layout transition")
      ensures r.Pass? ==> openCommandBuffers == old(openCommandBuffers)
      ensures r.Pass? ==> gpuLog == old(gpuLog) + [PipelineBarrier(LT.TransitionBarrier(image, format, oldLayout, newLayout).value)]
      ensures r.Fail? ==>
                old(nextCommandBuffer) !in old(openCommandBuffers) &&
                openCommandBuffers == old(openCommandBuffers) + {old(nextCommandBuffer)}
      ensures r.Fail? ==> gpuLog == old(gpuLog)
    {
      var commandBuffer := BeginSingleTimeCommands();
      var barrier := LT.TransitionBarrier(image, format, oldLayout, newLayout);
      if barrier.Err? {
        return Fail(barrier.error);
      }
      gpuLog := gpuLog + [PipelineBarrier(barrier.value)];
      EndSingleTimeCommands(commandBuffer);
      return Pass;
    }

    /**
     * `createGPUBuffer`: stages `bufferSize` bytes, creates a device-local
     * buffer, `emplace`s it under `bufferName` and copies the staged bytes into
     * the front of whatever buffer the name maps to afterwards. When the name
     * was already taken, the entry is kept, only the first `bufferSize` bytes
     * of its buffer are overwritten, and the new allocation stays live with no
     * owner: it is leaked. The staging allocation is freed before returning.
     * When the name holds the null entry a lookup left behind, the copy
     * throws, and the staging allocation and the one-shot command buffer are
     * never freed.
     */
    method CreateGPUBuffer(bufferSize: nat, bufferData: seq<byte>, bufferName: string, usage: bv32)
      returns (ghost staging: Allocation, ghost created: Allocation, r: Outcome)
      requires Valid() && CommandsTracked() && allocator == Alive
      requires bufferSize <= |bufferData|
      modifies this`nextHandle, this`live, this`owner, this`memory, this`buffers, this`nextCommandBuffer, this`openCommandBuffers, this`gpuLog, this`freeLog
      ensures Valid() && CommandsTracked()
      ensures staging !in old(live) && created !in old(live) && staging != created
      ensures buffers == Emplaced(old(buffers), bufferName, BufferAllocation(created, created))
      ensures r.Fail? <==> bufferName in old(buffers) && old(buffers)[bufferName].buffer == NullHandle
      ensures r.Pass? ==> live == old(live) + {created} && staging !in live && freeLog == old(freeLog) + [staging]
      ensures r.Pass? ==> owner == old(owner)[created := BufferClaim(old(buffers), bufferName)]
      ensures r.Pass? ==> openCommandBuffers == old(openCommandBuffers)
      ensures r.Pass? ==> memory == WrittenPrefix(old(memory)[staging := bufferData[..bufferSize]] - {created}, buffers[bufferName].buffer, bufferData[..bufferSize])
      ensures bufferName !in old(buffers) ==> r.Pass? && buffers[bufferName].buffer == created && memory[created] == bufferData[..bufferSize]
      ensures r.Pass? ==> gpuLog == old(gpuLog) + [GpuOp.CopyBuffer(staging, buffers[bufferName].buffer, bufferSize)]
      ensures r.Fail? ==> r.error == RuntimeError(NullDestinationReport)
      ensures r.Fail? ==> live == old(live) + {staging, created} && freeLog == old(freeLog)
      ensures r.Fail? ==> owner == old(owner)[staging := Unowned][created := Unowned]
      ensures r.Fail? ==>
                old(nextCommandBuffer) !in old(openCommandBuffers) &&
                openCommandBuffers == old(openCommandBuffers) + {old(nextCommandBuffer)}
      ensures r.Fail? ==> memory == old(memory)[staging := bufferData[..bufferSize]] - {created} && gpuLog == old(gpuLog)
    {
      ghost var live0, owner0 := live, owner;
      var stagingBuffer := Stage(bufferData[..bufferSize]);
      StagingDropped(live0, owner0, stagingBuffer, nextHandle, BufferClaim(buffers, bufferName));
      assert memory[stagingBuffer][..bufferSize] == bufferData[..bufferSize];
      var allocation;
      allocation, r := UploadBuffer(stagingBuffer, bufferSize, bufferName);
      staging, created := stagingBuffer, allocation;
    }

    /**
     * `createGPUImage`: stages the pixels, creates the image, moves it to the
     * transfer-destination layout, copies the pixels in, moves it to the
     * shader-read-only layout and `emplace`s it under `imageName`.
     */
    method CreateGPUImage(imageSize: nat, imageData: seq<byte>, imageWidth: uint32, imageHeight: uint32, imageName: string)
      returns (ghost staging: Allocation, ghost created: Allocation)
      requires Valid() && CommandsTracked() && allocator == Alive
      requires imageSize <= |imageData|
      modifies this`nextHandle, this`live, this`owner, this`memory, this`images, this`nextCommandBuffer, this`openCommandBuffers, this`gpuLog, this`freeLog
      ensures Valid() && CommandsTracked()
      ensures created !in old(live) && live == old(live) + {created}
      ensures staging !in live && freeLog == old(freeLog) + [staging]
      ensures images == Emplaced(old(images), imageName, ImageAllocation(created, created))
      ensures owner == old(owner)[created := ImageClaim(old(images), imageName)]
      ensures openCommandBuffers == old(openCommandBuffers)
      ensures memory == old(memory)[staging := imageData[..imageSize]][created := imageData[..imageSize]]
      ensures gpuLog == old(gpuLog) + [
                PipelineBarrier(LT.TransitionBarrier(created, Vk.FORMAT_R8G8B8A8_UNORM, Vk.LAYOUT_UNDEFINED, Vk.LAYOUT_TRANSFER_DST_OPTIMAL).value),
                GpuOp.CopyBufferToImage(staging, created, Vk.LAYOUT_TRANSFER_DST_OPTIMAL),
                PipelineBarrier(LT.TransitionBarrier(created, Vk.FORMAT_R8G8B8A8_UNORM, Vk.LAYOUT_TRANSFER_DST_OPTIMAL, Vk.LAYOUT_SHADER_READ_ONLY_OPTIMAL).value)]
      ensures LayoutChain(created, Vk.LAYOUT_UNDEFINED, gpuLog[|old(gpuLog)|..], Vk.LAYOUT_SHADER_READ_ONLY_OPTIMAL)
    {
      ghost var live0, owner0 := live, owner;
      var stagingBuffer := Stage(imageData[..imageSize]);
      StagingDropped(live0, owner0, stagingBuffer, nextHandle, ImageClaim(images, imageName));
      var allocation := UploadImage(stagingBuffer, imageName);
      staging, created := stagingBuffer, allocation;
    }

    /** `createUniformBuffer`: a host-visible buffer `emplace`d under `bufferName`, with no upload. */
    method CreateUniformBuffer(bufferSize: nat, bufferName: string) returns (ghost created: Allocation)
      requires Valid() && allocator == Alive
      modifies this`nextHandle, this`live, this`owner, this`buffers, this`memory
      ensures Valid() && allocator == Alive
      ensures created !in old(live) && live == old(live) + {created}
      ensures buffers == Emplaced(old(buffers), bufferName, BufferAllocation(created, created))
      ensures owner == old(owner)[created := BufferClaim(old(buffers), bufferName)]
      ensures memory == old(memory) - {created}
    {
      var allocation := AllocateBufferEntry(bufferName);
      created := allocation;
    }

    /**
     * `createDepthBuffer`: creates a depth-stencil image, moves it from the
     * undefined layout straight to the depth-stencil-attachment layout and
     * `emplace`s it under `imageName`.
     */
    method CreateDepthBuffer(imageWidth: uint32, imageHeight: uint32, depthFormat: uint32, imageName: string)
      returns (ghost created: Allocation)
      requires Valid() && CommandsTracked() && allocator == Alive
      modifies this`nextHandle, this`live, this`owner, this`images, this`nextCommandBuffer, this`openCommandBuffers, this`gpuLog
      ensures Valid() && CommandsTracked() && allocator == Alive
      ensures created !in old(live) && live == old(live) + {created}
      ensures images == Emplaced(old(images), imageName, ImageAllocation(created, created))
      ensures owner == old(owner)[created := ImageClaim(old(images), imageName)]
      ensures openCommandBuffers == old(openCommandBuffers)
      ensures gpuLog == old(gpuLog) + [
                PipelineBarrier(LT.TransitionBarrier(created, depthFormat, Vk.LAYOUT_UNDEFINED, Vk.LAYOUT_DEPTH_STENCIL_ATTACHMENT_OPTIMAL).value)]
      ensures LayoutChain(created, Vk.LAYOUT_UNDEFINED, gpuLog[|old(gpuLog)|..], Vk.LAYOUT_DEPTH_STENCIL_ATTACHMENT_OPTIMAL)
    {
      var allocation := CreateDepthImage(depthFormat);
      EmplaceImage(imageName, allocation);
      created := allocation;
    }

    /**
     * `getBuffer`: `buffers[bufferName].buffer`. A missing name is not an
     * error: `operator[]` inserts a value-initialised entry and its null handle
     * is returned.
     */
    method GetBuffer(bufferName: string) returns (buffer: Handle)
      requires Valid()
      modifies this`buffers
      ensures Valid()
      ensures bufferName in old(buffers) ==> buffers == old(buffers) && buffer == old(buffers)[bufferName].buffer
      ensures bufferName !in old(buffers) ==>
                buffers == old(buffers)[bufferName := DefaultBufferAllocation] && buffer == NullHandle
      ensures buffer == BufferHandle(old(buffers), bufferName)
      ensures forall n :: BufferHandle(buffers, n) == BufferHandle(old(buffers), n)
    {
      if bufferName !in buffers {
        AccountDefaultBuffer(buffers, images, live, owner, nextHandle, bufferName);
        buffers := buffers[bufferName := DefaultBufferAllocation];
      }
      buffer := buffers[bufferName].buffer;
    }

    /**
     * The destructor: destroys every registered buffer, then every registered
     * image, then the allocator if it was created. The registries are not
     * cleared. Every allocation an entry owned is freed exactly once, and
     * what stays live afterwards is exactly what was leaked. The destructor
     * also runs when setup failed before `init`.
     */
    method Teardown()
      requires Valid() && allocator != Destroyed
      modifies this`live, this`freeLog, this`allocator
      ensures old(allocator) == Alive ==> allocator == Destroyed
      ensures old(allocator) != Alive ==> allocator == old(allocator)
      ensures forall a :: a in live <==> a in old(Leaked())
      ensures |freeLog| >= |old(freeLog)| && freeLog[..|old(freeLog)|] == old(freeLog)
      ensures NoDuplicates(freeLog[|old(freeLog)|..])
      ensures forall a :: a in freeLog[|old(freeLog)|..] <==> a in old(Registered())
    {
      ghost var live0, f0 := live, freeLog;
      ghost var freed: seq<Allocation> := [];
      ghost var doneBuffers: set<string> := {};
      var remaining := buffers.Keys;
      while remaining != {}
        invariant remaining <= buffers.Keys && doneBuffers == buffers.Keys - remaining
        invariant freeLog == f0 + freed && NoDuplicates(freed)
        invariant forall a | a in live0 :: a in live <==> !Released(owner[a], doneBuffers, {})
        invariant forall a :: a in freed <==> a in live0 && a !in live
        invariant forall a | a in live :: a in live0
        invariant allocator == old(allocator)
        decreases remaining
      {
        var name :| name in remaining;
        var entry := buffers[name];
        assert BufferEntryOwned(buffers, owner, name);
        forall a | a in owner && owner[a] == BufferEntry(name)
          ensures a == entry.allocation
        {
          assert OwnerEntry(buffers, images, owner, a);
        }
        VmaDestroy(entry.buffer, entry.allocation);
        if entry.allocation != NullAllocation {
          freed := freed + [entry.allocation];
        }
        remaining := remaining - {name};
        doneBuffers := doneBuffers + {name};
      }

      ghost var doneImages: set<string> := {};
      remaining := images.Keys;
      while remaining != {}
        invariant remaining <= images.Keys && doneImages == images.Keys - remaining
        invariant freeLog == f0 + freed && NoDuplicates(freed)
        invariant forall a | a in live0 :: a in live <==> !Released(owner[a], buffers.Keys, doneImages)
        invariant forall a :: a in freed <==> a in live0 && a !in live
        invariant forall a | a in live :: a in live0
        invariant allocator == old(allocator)
        decreases remaining
      {
        var name :| name in remaining;
        var entry := images[name];
        assert ImageEntryOwned(images, owner, name);
        forall a | a in owner && owner[a] == ImageEntry(name)
          ensures a == entry.allocation
        {
          assert OwnerEntry(buffers, images, owner, a);
        }
        VmaDestroy(entry.image, entry.allocation);
        if entry.allocation != NullAllocation {
          freed := freed + [entry.allocation];
        }
        remaining := remaining - {name};
        doneImages := doneImages + {name};
      }
      forall a | a in owner
        ensures owner[a] != Unowned ==> Released(owner[a], buffers.Keys, images.Keys)
      {
        assert OwnerEntry(buffers, images, owner, a);
      }
      assert freeLog[|f0|..] == freed;
      DestroyAllocator();
    }
  }

  /**
   * `getBuffer` on a name before `createGPUBuffer` uploads under it: the
   * lookup leaves the null entry, `emplace` keeps it, and the copy into the
   * null buffer throws.
   */
  method LookupBeforeUpload(m: MemoryBuffers, bufferSize: nat, bufferData: seq<byte>, bufferName: string) returns (r: Outcome)
    requires m.Valid() && m.CommandsTracked() && m.allocator == Alive
    requires bufferSize <= |bufferData| && bufferName !in m.buffers
    modifies m
    ensures r == Fail(RuntimeError(NullDestinationReport))
    ensures bufferName in m.buffers && m.buffers[bufferName] == DefaultBufferAllocation
  {
    var handle := m.GetBuffer(bufferName);
    ghost var staging, created;
    staging, created, r := m.CreateGPUBuffer(bufferSize, bufferData, bufferName, 0);
  }

  /** A setup error before `init`, then the destructor as written: an uninitialised allocator is destroyed. */
  method DestroyAfterSetupErrorAsWritten() returns (m: MemoryBuffers)
    ensures m.uninitialisedDestroy && m.allocator == Destroyed
  {
    m := new MemoryBuffers();
    m.DestroyAllocatorAsWritten();
  }

  /** A setup error before `init`, then the corrected destructor: no allocator is destroyed and nothing is freed. */
  method DestroyAfterSetupError() returns (m: MemoryBuffers)
    ensures !m.uninitialisedDestroy && m.allocator == Uncreated
    ensures m.live == {} && m.freeLog == []
  {
    m := new MemoryBuffers();
    m.Teardown();
    assert m.freeLog[0..] == m.freeLog;
    Memberless(m.freeLog);
  }

  /** A sequence with no members is empty. */
  lemma Memberless<T>(s: seq<T>)
    ensures (forall x :: x !in s) ==> s == []
  {
    if s != [] {
      assert s[0] in s;
    }
  }
}
