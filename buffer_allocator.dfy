/** The linear (bump) allocator that the render context stages through: one
    buffer bound to one device-memory reservation, split into `frameCount`
    virtual frames. Allocations come only from the current virtual frame
    until `Swap`; `Free` empties the current frame without giving any memory
    back to the device. */
module BufferAllocation {
  import opened VkTypes
  import opened Linear

  /** The device the allocator is created for (of::vk::RendererProperties). */
  datatype RendererProperties = RendererProperties(
    device: Handle,
    physicalDeviceMemoryProperties: Handle,
    physicalDeviceProperties: Handle)

  /** A copy of BufferAllocator::Settings: the allocator keeps its own copy,
      so later changes to the caller's Settings object do not reach it. */
  datatype Config = Config(
    size: nat,                              // bytes to reserve, for all frames together
    memFlags: set<MemoryProperty>,
    queueFamilyIndices: seq<nat>,
    device: Handle,
    physicalDeviceMemoryProperties: Handle,
    physicalDeviceProperties: Handle,
    bufferUsageFlags: set<BufferUsage>,
    frameCount: nat)                        // number of virtual frames

  /** The buffer usage a new Settings object starts with. */
  const DefaultBufferUsage: set<BufferUsage> :=
    {IndexBuffer, UniformBuffer, VertexBuffer, TransferSrc, TransferDst}

  /** The value of a default-constructed Settings object: nothing to reserve,
      no memory flags, no queue families, no device, default usage, one frame. */
  const DefaultConfig: Config :=
    Config(0, {}, [], NullHandle, NullHandle, NullHandle, DefaultBufferUsage, 1)

  /** BufferAllocator::Settings, filled in by chained setters. */
  class Settings {
    var size: nat
    var memFlags: set<MemoryProperty>
    var queueFamilyIndices: seq<nat>
    var device: Handle
    var physicalDeviceMemoryProperties: Handle
    var physicalDeviceProperties: Handle
    var bufferUsageFlags: set<BufferUsage>
    var frameCount: nat

    /** The value of this object, as the allocator copies it. */
    function Snapshot(): Config
      reads this
    {
      Config(size, memFlags, queueFamilyIndices, device, physicalDeviceMemoryProperties,
             physicalDeviceProperties, bufferUsageFlags, frameCount)
    }

    /** One virtual frame and index, uniform, vertex and transfer usage by default. */
    constructor ()
      ensures Snapshot() == DefaultConfig
      ensures frameCount == 1 && bufferUsageFlags == DefaultBufferUsage
    {
      size := 0;
      memFlags := {};
      queueFamilyIndices := [];
      device := NullHandle;
      physicalDeviceMemoryProperties := NullHandle;
      physicalDeviceProperties := NullHandle;
      bufferUsageFlags := DefaultBufferUsage;
      frameCount := 1;
    }

    method SetSize(size_: nat) returns (r: Settings)
      modifies this
      ensures r == this
      ensures Snapshot() == old(Snapshot()).(size := size_)
    {
      size := size_;
      r := this;
    }

    method SetMemFlags(flags_: set<MemoryProperty>) returns (r: Settings)
      modifies this
      ensures r == this
      ensures Snapshot() == old(Snapshot()).(memFlags := flags_)
    {
      memFlags := flags_;
      r := this;
    }

    method SetQueueFamilyIndices(indices_: seq<nat>) returns (r: Settings)
      modifies this
      ensures r == this
      ensures Snapshot() == old(Snapshot()).(queueFamilyIndices := indices_)
    {
      queueFamilyIndices := indices_;
      r := this;
    }

    method SetRendererProperties(props: RendererProperties) returns (r: Settings)
      modifies this
      ensures r == this
      ensures Snapshot() == old(Snapshot()).(device := props.device,
        physicalDeviceMemoryProperties := props.physicalDeviceMemoryProperties,
        physicalDeviceProperties := props.physicalDeviceProperties)
    {
      device := props.device;
      physicalDeviceMemoryProperties := props.physicalDeviceMemoryProperties;
      physicalDeviceProperties := props.physicalDeviceProperties;
      r := this;
    }

    method SetBufferUsageFlags(flags: set<BufferUsage>) returns (r: Settings)
      modifies this
      ensures r == this
      ensures Snapshot() == old(Snapshot()).(bufferUsageFlags := flags)
    {
      bufferUsageFlags := flags;
      r := this;
    }

    method SetFrameCount(count_: nat) returns (r: Settings)
      modifies this
      ensures r == this
      ensures Snapshot() == old(Snapshot()).(frameCount := count_)
    {
      frameCount := count_;
      r := this;
    }
  }

  /** The allocation-relevant state of a BufferAllocator, as a value: one
      cursor (next free location, relative to the slot start) and one mapped
      base address per virtual frame, the current frame, the slot size and
      the current address for writing. No cursors means "not set up". */
  datatype AllocatorState = AllocatorState(
    cursors: seq<nat>,
    bases: seq<Addr>,
    frame: nat,
    slotSize: nat,
    mapped: Addr)

  predicate Ready(st: AllocatorState)
  {
    |st.cursors| > 0
  }

  /** Consistency of an allocator state: once set up, the current frame is
      one of the frames, cursors are aligned and inside their slot, the
      current address is null exactly when the frame is not host-mapped, and
      the frames' base addresses are the one mapping of the whole reservation
      cut at the slot boundaries. */
  ghost predicate WellFormed(st: AllocatorState)
  {
    && |st.cursors| == |st.bases|
    && (Ready(st) ==>
         && st.frame < |st.cursors|
         && (forall f :: 0 <= f < |st.cursors| ==> st.cursors[f] <= st.slotSize && st.cursors[f] % Alignment == 0)
         && (st.mapped.Null? <==> st.bases[st.frame].Null?)
         && (forall f :: 0 <= f < |st.bases| ==> st.bases[f] == Offset(st.bases[0], SlotBase(f, st.slotSize))))
  }

  /** A freshly set-up state: every cursor at the start of its slot, the
      frames' bases the mapping cut at the slot boundaries, frame 0 current. */
  lemma FreshState(cursors: seq<nat>, bases: seq<Addr>, slotSize: nat, mapped: Addr)
    requires |cursors| == |bases| > 0
    requires forall f :: 0 <= f < |cursors| ==>
      cursors[f] == 0 && bases[f] == Offset(mapped, SlotBase(f, slotSize))
    ensures bases[0] == mapped
    ensures WellFormed(AllocatorState(cursors, bases, 0, slotSize, bases[0]))
  {
    assert bases[0] == Offset(mapped, SlotBase(0, slotSize));
  }

  /** The absolute offset of the current frame's next free location. */
  function Top(st: AllocatorState): nat
    requires WellFormed(st) && Ready(st)
  {
    SlotBase(st.frame, st.slotSize) + st.cursors[st.frame]
  }

  /** A successful allocation: the absolute offset handed out, and the state after it. */
  datatype Allocation = Allocation(offset: nat, after: AllocatorState)

  /** allocate(byteCount, offset) on a state. It fails when the allocator is
      not set up, the request is empty, or the rounded request does not fit in
      what is left of the current frame's slot; otherwise the block starts at
      the current frame's cursor, only that cursor moves, and the current
      address for writing becomes the host address of the new block. */
  function AllocateOn(st: AllocatorState, byteCount: nat): (r: Option<Allocation>)
    requires WellFormed(st)
    ensures r.Some? <==>
      Ready(st) && 0 < byteCount && st.cursors[st.frame] + AlignUp(byteCount) <= st.slotSize
    ensures r.Some? ==>
      var a := r.value.after;
      && WellFormed(a) && Ready(a)
      && a.frame == st.frame && a.slotSize == st.slotSize && a.bases == st.bases
      && |a.cursors| == |st.cursors|
      && (forall f :: 0 <= f < |st.cursors| && f != st.frame ==> a.cursors[f] == st.cursors[f])
      && r.value.offset == Top(st)
      && r.value.offset + byteCount <= Top(a) <= SlotBase(st.frame, st.slotSize) + st.slotSize
      && (r.value.offset - SlotBase(st.frame, st.slotSize)) % Alignment == 0
      && a.mapped == Offset(st.bases[0], r.value.offset)
  {
    if !Ready(st) then None
    else
      match Bump(st.slotSize, st.frame, st.cursors[st.frame], byteCount)
      case None => None
      case Some(g) =>
        var a := st.(cursors := st.cursors[st.frame := g.cursor],
                     mapped := Offset(st.bases[st.frame], st.cursors[st.frame]));
        assert WellFormed(a) by {
          assert a.cursors[st.frame] % Alignment == 0 by {
            assert g.cursor == st.cursors[st.frame] + (g.cursor - st.cursors[st.frame]);
          }
        }
        Some(Allocation(g.offset, a))
  }

  /** The state and layout after a successful allocation: the current
      frame's cursor moves by the rounded request and the new block joins that
      frame's sub-allocations without breaking the layout invariant. */
  lemma AllocateKeepsSlots(st: AllocatorState, blocks: seq<seq<Block>>, byteCount: nat)
    requires WellFormed(st) && Slots(st.cursors, blocks, st.slotSize)
    requires AllocateOn(st, byteCount).Some?
    ensures var a := AllocateOn(st, byteCount).value;
      && a.after == st.(cursors := st.cursors[st.frame := st.cursors[st.frame] + AlignUp(byteCount)],
                        mapped := Offset(st.bases[st.frame], st.cursors[st.frame]))
      && Slots(a.after.cursors, blocks[st.frame := blocks[st.frame] + [Block(a.offset, AlignUp(byteCount))]], st.slotSize)
  {
    SlotsAfterBump(st.cursors, blocks, st.slotSize, st.frame, byteCount);
  }

  /** Two allocations in a row from the same frame: the second begins at or
      after the end of the first (increasing, non-overlapping offsets). */
  lemma SuccessiveAllocations(st: AllocatorState, n1: nat, n2: nat)
    requires WellFormed(st)
    requires AllocateOn(st, n1).Some?
    requires AllocateOn(AllocateOn(st, n1).value.after, n2).Some?
    ensures var first := AllocateOn(st, n1).value;
      var second := AllocateOn(first.after, n2).value;
      first.offset + AlignUp(n1) == second.offset
  {
  }

  /** swap(): jump to the next virtual frame's segment (wrapping around) and
      point the current address for writing at that frame's base. */
  function SwapOn(st: AllocatorState): (r: AllocatorState)
    requires WellFormed(st) && Ready(st)
    ensures WellFormed(r) && Ready(r)
  {
    var next := NextFrame(st.frame, |st.cursors|);
    st.(frame := next, mapped := st.bases[next])
  }

  /** `k` swaps in a row. */
  function Swaps(st: AllocatorState, k: nat): (r: AllocatorState)
    requires WellFormed(st) && Ready(st)
    ensures WellFormed(r) && Ready(r)
    ensures r.cursors == st.cursors && r.bases == st.bases && r.slotSize == st.slotSize
  {
    if k == 0 then st else SwapOn(Swaps(st, k - 1))
  }

  /** After `k` swaps the allocator is `k` frames further on, wrapping
      around, and writes at the start of that frame; no cursor moved. */
  lemma {:induction false} SwapsAdvance(st: AllocatorState, k: nat)
    requires WellFormed(st) && Ready(st)
    ensures Swaps(st, k).frame == Advance(st.frame, k, |st.cursors|)
    ensures 0 < k ==> Swaps(st, k).mapped == st.bases[Swaps(st, k).frame]
  {
    if k > 0 {
      SwapsAdvance(st, k - 1);
    }
  }

  /** A full cycle of `frameCount` swaps with no allocation in between brings
      the allocator back to the state it started in, when that state was
      writing at the start of its frame (as right after setup or free). */
  lemma SwapCycle(st: AllocatorState)
    requires WellFormed(st) && Ready(st)
    requires st.mapped == st.bases[st.frame]
    ensures Swaps(st, |st.cursors|) == st
  {
    SwapsAdvance(st, |st.cursors|);
    AdvanceCycle(st.frame, |st.cursors|);
  }

  /** free(): remove all sub-allocations of the current frame. */
  function FreeOn(st: AllocatorState): (r: AllocatorState)
    requires WellFormed(st) && Ready(st)
    ensures WellFormed(r) && Ready(r)
    ensures r.cursors == st.cursors[st.frame := 0] && r.frame == st.frame
    ensures r.mapped == st.bases[st.frame]
  {
    st.(cursors := st.cursors[st.frame := 0], mapped := st.bases[st.frame])
  }

  /** After free the whole slot is available again: any request whose
      rounded size fits in a slot succeeds, at the start of the current slot. */
  lemma FreeReclaimsSlot(st: AllocatorState, byteCount: nat)
    requires WellFormed(st) && Ready(st)
    requires 0 < byteCount && AlignUp(byteCount) <= st.slotSize
    ensures AllocateOn(FreeOn(st), byteCount).Some?
    ensures AllocateOn(FreeOn(st), byteCount).value.offset == SlotBase(st.frame, st.slotSize)
  {
  }

  /** The linear allocator. Fields follow of::vk::BufferAllocator; `blocks`
      is the ghost record of the sub-allocations handed out per frame since
      that frame was last freed. */
  class BufferAllocator {
    var settings: Config                // mSettings
    var offsetEnd: seq<nat>             // next free location, per frame
    var baseAddress: seq<Addr>          // base address of mapped memory, per frame
    var buffer: Handle                  // owning
    var deviceMemory: Handle            // owning
    var currentMappedAddress: Addr      // current address for writing
    var currentVirtualFrameIdx: nat     // currently mapped segment
    ghost var blocks: seq<seq<Block>>

    predicate IsSetUp()
      reads this
    {
      |offsetEnd| > 0
    }

    function State(): AllocatorState
      reads this
    {
      AllocatorState(offsetEnd, baseAddress, currentVirtualFrameIdx,
        if settings.frameCount >= 1 then SlotSize(settings.size, settings.frameCount) else 0,
        currentMappedAddress)
    }

    /** Object invariant. Set up: one cursor and one base address per virtual
        frame, owned buffer and memory handles, frames mapped exactly when the
        memory is host-visible, and every frame's outstanding sub-allocations
        packed inside its own slot. Not set up: no frames and null handles. */
    ghost predicate Valid()
      reads this
    {
      && WellFormed(State())
      && |blocks| == |offsetEnd|
      && (IsSetUp() ==>
           && settings.frameCount == |offsetEnd|
           && buffer.Handle? && deviceMemory.Handle?
           && (baseAddress[0].Host? <==> HostVisible in settings.memFlags)
           && Slots(offsetEnd, blocks, State().slotSize))
      && (!IsSetUp() ==>
           && buffer.NullHandle? && deviceMemory.NullHandle?
           && currentMappedAddress.Null? && currentVirtualFrameIdx == 0)
    }

    /** BufferAllocator(): default settings, nothing reserved yet. */
    constructor ()
      ensures Valid() && !IsSetUp()
      ensures settings == DefaultConfig
    {
      settings := DefaultConfig;
      offsetEnd := [];
      baseAddress := [];
      buffer := NullHandle;
      deviceMemory := NullHandle;
      currentMappedAddress := Null;
      currentVirtualFrameIdx := 0;
      blocks := [];
    }

    /** setup(settings): keep a copy of the settings, take the reservation the
        device layer made (one memory block, one buffer bound to it, mapped once
        as a whole when host-visible) and start every frame empty, at frame 0.
        Fails when the device could not reserve or map the memory. */
    method Setup(config: Config, reservation: Reservation) returns (ok: bool)
      requires config.frameCount >= 1
      modifies this
      ensures Valid() && settings == config
      ensures ok <==> reservation.Reserved? && (HostVisible in config.memFlags ==> reservation.mapped.Host?)
      ensures ok ==>
        && IsSetUp()
        && buffer == Handle(reservation.bufferId) && deviceMemory == Handle(reservation.memoryId)
        && |offsetEnd| == config.frameCount && currentVirtualFrameIdx == 0
        && (forall f :: 0 <= f < |offsetEnd| ==> offsetEnd[f] == 0 && blocks[f] == [])
        && baseAddress[0] == (if HostVisible in config.memFlags then reservation.mapped else Null)
        && currentMappedAddress == baseAddress[0]
      ensures !ok ==> !IsSetUp()
    {
      settings := config;
      offsetEnd, baseAddress, blocks := [], [], [];
      currentMappedAddress, currentVirtualFrameIdx := Null, 0;
      if reservation.ReservationFailed? || (HostVisible in config.memFlags && reservation.mapped.Null?) {
        buffer, deviceMemory := NullHandle, NullHandle;
        return false;
      }
      var slot := SlotSize(config.size, config.frameCount);
      var mapped := if HostVisible in config.memFlags then reservation.mapped else Null;
      var cursors: seq<nat>, bases: seq<Addr>, i := [], [], 0;
      ghost var empty: seq<seq<Block>> := [];
      while i < config.frameCount
        invariant 0 <= i <= config.frameCount
        invariant |cursors| == |bases| == |empty| == i
        invariant forall f :: 0 <= f < i ==>
          cursors[f] == 0 && empty[f] == [] && bases[f] == Offset(mapped, SlotBase(f, slot))
      {
        cursors := cursors + [0];
        bases := bases + [Offset(mapped, SlotBase(i, slot))];
        empty := empty + [[]];
        i := i + 1;
      }
      FreshState(cursors, bases, slot, mapped);
      EmptySlots(cursors, empty, slot);
      offsetEnd, baseAddress, blocks := cursors, bases, empty;
      buffer := Handle(reservation.bufferId);
      deviceMemory := Handle(reservation.memoryId);
      currentMappedAddress := baseAddress[0];
      assert State() == AllocatorState(cursors, bases, 0, slot, bases[0]);
      ok := true;
    }

    /** The device calls that tearing this allocator down makes now: unmap
        (when mapped), destroy the buffer, then free the memory; nothing when
        it is not set up. */
    function ReleaseCalls(): (calls: seq<DeviceCall>)
      reads this
      requires Valid()
      ensures calls != [] <==> IsSetUp()
      ensures calls != [] ==>
        && |calls| >= 2
        && calls[|calls| - 2] == DestroyBuffer(buffer)
        && calls[|calls| - 1] == FreeMemory(deviceMemory)
    {
      if !IsSetUp() then []
      else
        (if baseAddress[0].Host? then [UnmapMemory(deviceMemory)] else [])
        + [DestroyBuffer(buffer), FreeMemory(deviceMemory)]
    }

    /** reset(): free GPU memory and de-initialise the allocator. A second
        reset makes no device call. */
    method Reset() returns (calls: seq<DeviceCall>)
      requires Valid()
      modifies this
      ensures Valid() && !IsSetUp() && settings == old(settings)
      ensures calls == old(ReleaseCalls())
    {
      calls := ReleaseCalls();
      offsetEnd, baseAddress, blocks := [], [], [];
      buffer, deviceMemory := NullHandle, NullHandle;
      currentMappedAddress, currentVirtualFrameIdx := Null, 0;
    }

    /** ~BufferAllocator(): wait for the device to go idle, then reset. */
    method Destroy() returns (calls: seq<DeviceCall>)
      requires Valid()
      modifies this
      ensures Valid() && !IsSetUp()
      ensures calls == [WaitIdle(old(settings.device))] + old(ReleaseCalls())
    {
      var released := Reset();
      calls := [WaitIdle(settings.device)] + released;
    }

    /** allocate(byteCount, offset): sub-allocate from the current virtual
        frame. Success is the returned bool; on success `offset` is the
        absolute offset of the block in the buffer, the block is recorded in
        the current frame, and the current address for writing is the block's
        host address. On failure nothing changes. */
    method Allocate(byteCount: nat) returns (ok: bool, offset: nat)
      requires Valid()
      modifies this
      ensures Valid()
      ensures var a := AllocateOn(old(State()), byteCount);
        && ok == a.Some?
        && (ok ==> offset == a.value.offset && State() == a.value.after)
      ensures ok ==>
        && settings == old(settings) && buffer == old(buffer) && deviceMemory == old(deviceMemory)
        && blocks == old(blocks)[currentVirtualFrameIdx :=
             old(blocks[currentVirtualFrameIdx]) + [Block(offset, AlignUp(byteCount))]]
      ensures !ok ==> unchanged(this)
    {
      ghost var st := State();
      if |offsetEnd| == 0 || byteCount == 0 {
        return false, 0;
      }
      var f := currentVirtualFrameIdx;
      var slot := SlotSize(settings.size, settings.frameCount);
      var aligned := AlignUp(byteCount);
      if offsetEnd[f] + aligned <= slot {
        ghost var a := AllocateOn(st, byteCount).value;
        AllocateKeepsSlots(st, blocks, byteCount);
        offset := SlotBase(f, slot) + offsetEnd[f];
        currentMappedAddress := Offset(baseAddress[f], offsetEnd[f]);
        blocks := blocks[f := blocks[f] + [Block(offset, aligned)]];
        offsetEnd := offsetEnd[f := offsetEnd[f] + aligned];
        assert State() == a.after;
        ok := true;
      } else {
        ok, offset := false, 0;
      }
    }

    /** map(pAddr): hand out the current address for writing; true exactly
        when it is not null, which for a set-up allocator is exactly when its
        memory is host-visible. Changes nothing. */
    method Map() returns (pAddr: Addr, ok: bool)
      requires Valid()
      ensures pAddr == currentMappedAddress
      ensures ok <==> pAddr.Host?
      ensures IsSetUp() ==> (ok <==> HostVisible in settings.memFlags)
      ensures !IsSetUp() ==> !ok
    {
      pAddr := currentMappedAddress;
      ok := currentMappedAddress != Null;
    }

    /** swap(): move to the next virtual frame's segment. */
    method Swap()
      requires Valid() && IsSetUp()
      modifies this
      ensures Valid()
      ensures State() == SwapOn(old(State()))
      ensures settings == old(settings) && buffer == old(buffer) && deviceMemory == old(deviceMemory)
      ensures blocks == old(blocks)
    {
      NextFrameIsMod(currentVirtualFrameIdx, settings.frameCount);
      currentVirtualFrameIdx := (currentVirtualFrameIdx + 1) % settings.frameCount;
      currentMappedAddress := baseAddress[currentVirtualFrameIdx];
    }

    /** free(): remove all sub-allocations within the current frame. The
        buffer and the device memory stay. */
    method Free()
      requires Valid() && IsSetUp()
      modifies this
      ensures Valid()
      ensures State() == FreeOn(old(State()))
      ensures settings == old(settings) && buffer == old(buffer) && deviceMemory == old(deviceMemory)
      ensures blocks == old(blocks)[currentVirtualFrameIdx := []]
    {
      ghost var after := FreeOn(State());
      var f := currentVirtualFrameIdx;
      SlotsAfterClear(offsetEnd, blocks, after.slotSize, f);
      offsetEnd := offsetEnd[f := 0];
      currentMappedAddress := baseAddress[f];
      blocks := blocks[f := []];
      assert State() == after;
    }

    /** getBuffer(): the owned buffer; null exactly when not set up. */
    function GetBuffer(): (b: Handle)
      reads this
      requires Valid()
      ensures b.NullHandle? <==> !IsSetUp()
    {
      buffer
    }

    /** getDeviceMemory(): the owned memory; null exactly when not set up. */
    function GetDeviceMemory(): (m: Handle)
      reads this
      requires Valid()
      ensures m.NullHandle? <==> !IsSetUp()
    {
      deviceMemory
    }
  }

  /** Frame isolation for a live allocator: no two of its outstanding
      sub-allocations overlap, whichever frames they were made in, and each
      lies inside its own frame's slot of the reservation. */
  lemma OutstandingBlocksDisjoint(a: BufferAllocator, f: nat, i: nat, g: nat, j: nat)
    requires a.Valid() && a.IsSetUp()
    requires f < |a.blocks| && i < |a.blocks[f]| && g < |a.blocks| && j < |a.blocks[g]|
    requires f != g || i != j
    ensures || a.blocks[f][i].offset + a.blocks[f][i].len <= a.blocks[g][j].offset
            || a.blocks[g][j].offset + a.blocks[g][j].len <= a.blocks[f][i].offset
    ensures a.blocks[f][i].offset + a.blocks[f][i].len <= a.settings.size
    ensures (a.blocks[f][i].offset - SlotBase(f, a.State().slotSize)) % Alignment == 0
    ensures a.State().slotSize % Alignment == 0 ==> a.blocks[f][i].offset % Alignment == 0
  {
    SlotsDisjoint(a.offsetEnd, a.blocks, a.State().slotSize, f, i, g, j);
    BlockInsideSlot(a.settings.size, a.settings.frameCount, a.offsetEnd, a.blocks, f, i);
  }
}
