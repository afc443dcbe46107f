/** The part of of::vk::RenderContext that moves data to the device: its
    per-frame command buffer queues, the transient allocator it stages
    through, and the recording of the copy commands that carry staged data
    into a target allocator's buffer. */
module Rendering {
  import opened VkTypes
  import opened Linear
  import opened BufferAllocation
  import opened Staging

  /** BufferRegion: a range of a buffer holding `numElements` elements. */
  datatype BufferRegion = BufferRegion(buffer: Handle, offset: nat, range: nat, numElements: nat)

  /** The few flag values the copy commands use. */
  datatype PipelineStage = TopOfPipe
  datatype Access = TransferWrite | ShaderRead
  datatype QueueFamily = QueueFamilyIgnored
  datatype CommandBufferUsage = OneTimeSubmit
  datatype CommandBufferLevel = Primary | Secondary

  /** vk::BufferMemoryBarrier over `size` bytes of `buffer` from `offset`. */
  datatype BufferMemoryBarrier = BufferMemoryBarrier(
    srcAccess: Access, dstAccess: Access,
    srcQueueFamily: QueueFamily, dstQueueFamily: QueueFamily,
    buffer: Handle, offset: nat, size: int)

  /** The commands recorded into a command buffer, in order. */
  datatype Command =
    | Begin(usage: CommandBufferUsage)
    | CopyBuffer(src: Handle, dst: Handle, regions: seq<BufferCopy>)
    | PipelineBarrier(srcStage: PipelineStage, dstStage: PipelineStage, bufferBarriers: seq<BufferMemoryBarrier>)
    | End

  /** A command buffer: its handle, the pool it came from, its level and
      what has been recorded into it. */
  datatype CommandBuffer = CommandBuffer(id: nat, pool: Handle, level: CommandBufferLevel, commands: seq<Command>)

  /** The per-virtual-frame objects; `commandBuffers` is the frame's queue of
      command buffers waiting for batched submission. */
  datatype VirtualFrame = VirtualFrame(
    commandPool: Handle,
    queryPool: Handle,
    frameBuffer: Handle,
    semaphoreImageAcquired: Handle,
    semaphoreRenderComplete: Handle,
    fence: Handle,
    commandBuffers: seq<CommandBuffer>)

  class RenderContext {
    var virtualFrames: seq<VirtualFrame>         // mVirtualFrames
    var currentVirtualFrame: nat                 // mCurrentVirtualFrame
    const transientMemory: BufferAllocator       // mTransientMemory

    /** The current frame exists and the transient allocator is consistent. */
    ghost predicate Valid()
      reads this, transientMemory
    {
      currentVirtualFrame < |virtualFrames| && transientMemory.Valid()
    }

    /** The current frame's queue of command buffers awaiting submission. */
    function Pending(): seq<CommandBuffer>
      reads this
      requires currentVirtualFrame < |virtualFrames|
    {
      virtualFrames[currentVirtualFrame].commandBuffers
    }

    /** A context over the virtual frames and the transient allocator that
        setup created, at frame 0. */
    constructor (frames: seq<VirtualFrame>, transient: BufferAllocator)
      requires |frames| > 0 && transient.Valid()
      ensures Valid()
      ensures virtualFrames == frames && currentVirtualFrame == 0 && transientMemory == transient
    {
      virtualFrames := frames;
      currentVirtualFrame := 0;
      transientMemory := transient;
    }

    /** submit(commandBuffer): queue the command buffer at the end of the
        current virtual frame's list. No other frame, and nothing else about
        the current frame, changes. */
    method Submit(cmd: CommandBuffer)
      requires Valid()
      modifies this
      ensures Valid() && currentVirtualFrame == old(currentVirtualFrame)
      ensures |virtualFrames| == |old(virtualFrames)|
      ensures Pending() == old(Pending()) + [cmd]
      ensures virtualFrames[currentVirtualFrame].(commandBuffers := []) ==
              old(virtualFrames[currentVirtualFrame]).(commandBuffers := [])
      ensures forall f :: 0 <= f < |virtualFrames| && f != currentVirtualFrame ==>
                virtualFrames[f] == old(virtualFrames[f])
    {
      var frame := virtualFrames[currentVirtualFrame];
      virtualFrames := virtualFrames[currentVirtualFrame := frame.(commandBuffers := frame.commandBuffers + [cmd])];
    }

    /** allocateTransientCommandBuffer(level): a fresh, empty command buffer
        of the given level from the current frame's command pool. `id` is
        the handle the device hands back. */
    method AllocateTransientCommandBuffer(level: CommandBufferLevel, id: nat) returns (cmd: CommandBuffer)
      requires Valid()
      ensures cmd.pool == virtualFrames[currentVirtualFrame].commandPool
      ensures cmd.level == level && cmd.id == id && cmd.commands == []
    {
      cmd := CommandBuffer(id, virtualFrames[currentVirtualFrame].commandPool, level, []);
    }

    /** One pass of stageData's loop: allocate `src`'s bytes from the target,
        then from the transient allocator, then take the write address and
        copy; each step only when the one before succeeded. */
    method StageItem(src: TransferSrcData, target: BufferAllocator)
      returns (ok: bool, region: BufferCopy, ghost copy: HostCopy)
      requires Valid() && target.Valid() && target != transientMemory
      modifies target, transientMemory
      ensures Valid() && target.Valid()
      ensures var h := StageOne(src, old(target.State()), old(transientMemory.State()));
        && target.State() == h.target && transientMemory.State() == h.transient
        && (ok <==> h.regions != [])
        && (ok ==> h.regions == [region] && h.copies == [copy])
      ensures var f := old(target.currentVirtualFrameIdx);
        if target.State() == old(target.State()) then target.blocks == old(target.blocks)
        else
          && Ready(old(target.State())) && f < |old(target.blocks)|
          && target.blocks == old(target.blocks)[f := old(target.blocks)[f] + [Block(Top(old(target.State())), AlignUp(ByteLength(src)))]]
      ensures var g := old(transientMemory.currentVirtualFrameIdx);
        if transientMemory.State() == old(transientMemory.State()) then transientMemory.blocks == old(transientMemory.blocks)
        else
          && Ready(old(transientMemory.State())) && g < |old(transientMemory.blocks)|
          && transientMemory.blocks ==
               old(transientMemory.blocks)[g := old(transientMemory.blocks)[g] + [Block(Top(old(transientMemory.State())), AlignUp(ByteLength(src)))]]
      ensures ok ==>
        var f, g := old(target.currentVirtualFrameIdx), old(transientMemory.currentVirtualFrameIdx);
        && f < |old(target.blocks)| && g < |old(transientMemory.blocks)|
        && target.blocks == old(target.blocks)[f := old(target.blocks)[f] + [Block(region.dstOffset, AlignUp(region.size))]]
        && transientMemory.blocks ==
             old(transientMemory.blocks)[g := old(transientMemory.blocks)[g] + [Block(region.srcOffset, AlignUp(region.size))]]
      ensures target.buffer == old(target.buffer) && transientMemory.buffer == old(transientMemory.buffer)
      ensures target.settings == old(target.settings) && target.deviceMemory == old(target.deviceMemory)
      ensures transientMemory.settings == old(transientMemory.settings)
      ensures transientMemory.deviceMemory == old(transientMemory.deviceMemory)
    {
      region, copy := BufferCopy(0, 0, 0), HostCopy(Null, Null, 0);
      var size := src.numBytesPerElement * src.numElements;
      assert size == ByteLength(src);
      var dstOk, dstOffset := target.Allocate(size);
      if !dstOk {
        return false, region, copy;
      }
      assert target.State().cursors != old(target.State()).cursors;
      var srcOk, srcOffset := transientMemory.Allocate(size);
      if !srcOk {
        return false, region, copy;
      }
      assert transientMemory.State().cursors != old(transientMemory.State()).cursors;
      var pData, mapOk := transientMemory.Map();
      if !mapOk {
        return false, region, copy;
      }
      region := BufferCopy(srcOffset, dstOffset, size);
      copy := HostCopy(pData, src.pData, size);
      ok := true;
    }

    /** stageData(dataVec, targetAllocator): stage the items in order and
        stop at the first that cannot be staged. The regions are those of
        `Stage`, and so are both allocators' new states; `copies` are the
        memcpy calls made. */
    method StageData(dataVec: seq<TransferSrcData>, target: BufferAllocator)
      returns (regions: seq<BufferCopy>, ghost copies: seq<HostCopy>)
      requires Valid() && target.Valid() && target != transientMemory
      modifies target, transientMemory
      ensures Valid() && target.Valid()
      ensures var s := Stage(dataVec, old(target.State()), old(transientMemory.State()));
        && regions == s.regions && copies == s.copies
        && target.State() == s.target && transientMemory.State() == s.transient
      ensures target.buffer == old(target.buffer) && transientMemory.buffer == old(transientMemory.buffer)
      ensures target.settings == old(target.settings) && target.deviceMemory == old(target.deviceMemory)
      ensures transientMemory.settings == old(transientMemory.settings)
      ensures transientMemory.deviceMemory == old(transientMemory.deviceMemory)
    {
      ghost var s0 := Stage(dataVec, target.State(), transientMemory.State());
      regions, copies := [], [];
      StageFromStart(dataVec, target.State(), transientMemory.State());
      var i := 0;
      while i < |dataVec|
        invariant 0 <= i <= |dataVec|
        invariant target.Valid() && transientMemory.Valid()
        invariant target.buffer == old(target.buffer) && transientMemory.buffer == old(transientMemory.buffer)
        invariant target.settings == old(target.settings) && target.deviceMemory == old(target.deviceMemory)
        invariant transientMemory.settings == old(transientMemory.settings)
        invariant transientMemory.deviceMemory == old(transientMemory.deviceMemory)
        invariant StageFrom(dataVec, i, Staged(regions, copies, target.State(), transientMemory.State())) == s0
      {
        var ok, region, copy := StageItem(dataVec[i], target);
        if !ok {
          return;
        }
        copies := copies + [copy];
        regions := regions + [region];
        i := i + 1;
      }
    }

    /** storeDataCmd(dataVec, targetAllocator): stage the items, describe
        every staged item as a region of the target buffer, and queue on the
        current frame one command buffer recording `TransferCommands`: copy
        all staged regions from the transient buffer to the target buffer,
        then one buffer barrier over the span from the first region to the
        end of the last. At least one item must stage: the source reads the
        first and last region unconditionally. What the returned regions are
        and where they lie is `RegionsOf` the staged regions, as laid out by
        `StoredRegions`; the barrier covers them all by `TransferCommands`. */
    method StoreDataCmd(dataVec: seq<TransferSrcData>, target: BufferAllocator, cmdId: nat)
      returns (resultBuffers: seq<BufferRegion>)
      requires Valid() && target.Valid() && target != transientMemory
      requires Stage(dataVec, target.State(), transientMemory.State()).regions != []
      modifies this, target, transientMemory
      ensures Valid() && target.Valid() && currentVirtualFrame == old(currentVirtualFrame)
      ensures var s := Stage(dataVec, old(target.State()), old(transientMemory.State()));
        && target.State() == s.target && transientMemory.State() == s.transient
        && resultBuffers == RegionsOf(s.regions, dataVec, old(target.buffer))
        && Pending() == old(Pending()) + [CommandBuffer(cmdId, old(virtualFrames[currentVirtualFrame].commandPool), Primary,
                                                        TransferCommands(old(transientMemory.buffer), old(target.buffer), s.regions))]
      ensures target.buffer == old(target.buffer) && transientMemory.buffer == old(transientMemory.buffer)
      ensures target.settings == old(target.settings) && target.deviceMemory == old(target.deviceMemory)
      ensures transientMemory.settings == old(transientMemory.settings)
      ensures transientMemory.deviceMemory == old(transientMemory.deviceMemory)
      ensures |virtualFrames| == |old(virtualFrames)|
      ensures virtualFrames[currentVirtualFrame].(commandBuffers := []) ==
              old(virtualFrames[currentVirtualFrame]).(commandBuffers := [])
      ensures forall f :: 0 <= f < |virtualFrames| && f != currentVirtualFrame ==>
        virtualFrames[f] == old(virtualFrames[f])
    {
      ghost var frames0 := virtualFrames;
      var copyRegions, copies := StageData(dataVec, target);
      var targetBuffer := target.GetBuffer();
      resultBuffers := DescribeRegions(copyRegions, dataVec, targetBuffer);

      var cmd := AllocateTransientCommandBuffer(Primary, cmdId);
      cmd := cmd.(commands := TransferCommands(transientMemory.GetBuffer(), targetBuffer, copyRegions));
      assert virtualFrames == frames0;
      Submit(cmd);
    }
  }

  /** The regions storeDataCmd hands back: staged region `i` of `buffer`,
      holding item `i`'s elements. */
  function RegionsOf(regions: seq<BufferCopy>, items: seq<TransferSrcData>, buffer: Handle): (rs: seq<BufferRegion>)
    requires |regions| <= |items|
    ensures |rs| == |regions|
    ensures forall i :: 0 <= i < |rs| ==>
      rs[i] == BufferRegion(buffer, regions[i].dstOffset, regions[i].size, items[i].numElements)
  {
    seq(|regions|, i requires 0 <= i < |regions| => BufferRegion(buffer, regions[i].dstOffset, regions[i].size, items[i].numElements))
  }

  /** What storeDataCmd promises about the regions it returns: region `i`
      is as long as item `i`'s bytes, lies in the target's current frame
      between the target's cursor before and after staging, and comes after
      region `i - 1` without overlapping it. */
  lemma StoredRegions(items: seq<TransferSrcData>, target: AllocatorState, transient: AllocatorState, buffer: Handle)
    requires WellFormed(target) && WellFormed(transient) && Ready(target)
    ensures var s := Stage(items, target, transient);
      var rs := RegionsOf(s.regions, items, buffer);
      && Ready(s.target)
      && (forall i :: 0 <= i < |rs| ==>
            && rs[i].buffer == buffer && rs[i].numElements == items[i].numElements
            && rs[i].range == items[i].numBytesPerElement * items[i].numElements
            && Top(target) <= rs[i].offset
            && rs[i].offset + rs[i].range <= Top(s.target))
      && (forall i, j :: 0 <= i < j < |rs| ==> rs[i].offset + rs[i].range <= rs[j].offset)
  {
    StageDst(items, target, transient);
    StageSizes(items, target, transient);
  }

  /** storeDataCmd's loop over the staged regions. */
  method DescribeRegions(copyRegions: seq<BufferCopy>, dataVec: seq<TransferSrcData>, targetBuffer: Handle)
    returns (resultBuffers: seq<BufferRegion>)
    requires |copyRegions| <= |dataVec|
    ensures resultBuffers == RegionsOf(copyRegions, dataVec, targetBuffer)
  {
    resultBuffers := [];
    var i := 0;
    while i != |copyRegions|
      invariant 0 <= i <= |copyRegions|
      invariant resultBuffers == RegionsOf(copyRegions[..i], dataVec, targetBuffer)
    {
      var region, srcData := copyRegions[i], dataVec[i];
      resultBuffers := resultBuffers + [BufferRegion(targetBuffer, region.dstOffset, region.size, srcData.numElements)];
      i := i + 1;
      assert copyRegions[..i] == copyRegions[..i - 1] + [region];
    }
    assert copyRegions[..i] == copyRegions;
  }

  /** The commands storeDataCmd records: begin for one-time submission, copy
      the regions from `src` to `dst`, place one barrier making the transfer
      writes visible to shader reads, end. The barrier is on `dst` and spans
      `BarrierSpan(regions)`, so when the destination regions are in order
      and do not overlap it covers every byte the copy writes. */
  function TransferCommands(src: Handle, dst: Handle, regions: seq<BufferCopy>): (cmds: seq<Command>)
    requires |regions| > 0
    ensures |cmds| == 4 && cmds[0] == Begin(OneTimeSubmit) && cmds[1] == CopyBuffer(src, dst, regions) && cmds[3] == End
    ensures cmds[2].PipelineBarrier? && cmds[2].srcStage == TopOfPipe && cmds[2].dstStage == TopOfPipe
    ensures |cmds[2].bufferBarriers| == 1
    ensures var b := cmds[2].bufferBarriers[0];
      && b.offset == BarrierSpan(regions).offset && b.size == BarrierSpan(regions).size
      && b.buffer == dst && b.srcAccess == TransferWrite && b.dstAccess == ShaderRead
      && b.srcQueueFamily == QueueFamilyIgnored && b.dstQueueFamily == QueueFamilyIgnored
      && (AscendingDst(regions) ==>
            0 <= b.size
            && forall i :: 0 <= i < |regions| ==>
                 b.offset <= regions[i].dstOffset && regions[i].dstOffset + regions[i].size <= b.offset + b.size)
  {
    var span := BarrierSpan(regions);
    var barrier := BufferMemoryBarrier(TransferWrite, ShaderRead, QueueFamilyIgnored, QueueFamilyIgnored,
                                       dst, span.offset, span.size);
    [Begin(OneTimeSubmit), CopyBuffer(src, dst, regions), PipelineBarrier(TopOfPipe, TopOfPipe, [barrier]), End]
  }
}
