/** The older linear allocator, of::vk::Allocator: the same reservation cut
    into virtual frames, but the caller names the frame on every `Allocate`
    and `Free`, and `Allocate` hands out the host address of the new block
    together with its offset. */
module VkAllocation {
  import opened VkTypes
  import opened Linear

  /** of::vk::Allocator::Settings. */
  datatype Settings = Settings(
    size: nat,          // how much memory to reserve on the device for this allocator
    renderer: Handle,
    device: Handle,
    frames: nat)        // number of frames to reserve within this allocator

  /** A default-constructed Settings: nothing to reserve, one frame. */
  const DefaultSettings: Settings := Settings(0, NullHandle, NullHandle, 1)

  /** An allocator set up with the default settings has a single empty slot,
      so every allocation from it fails. */
  lemma DefaultSettingsAllocateNothing(cursor: nat, byteCount: nat)
    ensures DefaultSettings.size == 0 && DefaultSettings.frames == 1
    ensures Bump(SlotSize(DefaultSettings.size, DefaultSettings.frames), 0, cursor, byteCount).None?
  {
  }

  class Allocator {
    const settings: Settings            // mSettings
    var offsetEnd: seq<nat>             // next free location, per frame
    var baseAddress: seq<Addr>          // base address of mapped memory, per frame
    var buffer: Handle                  // owning
    var deviceMemory: Handle            // owning
    ghost var blocks: seq<seq<Block>>   // sub-allocations per frame since that frame was freed

    predicate IsSetUp()
      reads this
    {
      |offsetEnd| > 0
    }

    /** Bytes per frame. */
    function SlotBytes(): nat
    {
      if settings.frames >= 1 then SlotSize(settings.size, settings.frames) else 0
    }

    /** Object invariant: set up, one cursor and one base address per frame,
        every frame's sub-allocations packed inside its own slot, and the base
        addresses the one mapping of the reservation cut at slot boundaries;
        otherwise no frames and null handles. */
    ghost predicate Valid()
      reads this
    {
      && |offsetEnd| == |baseAddress| == |blocks|
      && (IsSetUp() ==>
           && settings.frames == |offsetEnd|
           && buffer.Handle? && deviceMemory.Handle?
           && Slots(offsetEnd, blocks, SlotBytes())
           && (forall f :: 0 <= f < |baseAddress| ==> baseAddress[f] == Offset(baseAddress[0], SlotBase(f, SlotBytes()))))
      && (!IsSetUp() ==> buffer.NullHandle? && deviceMemory.NullHandle?)
    }

    /** Allocator(settings): keep the settings; nothing reserved yet. */
    constructor (settings: Settings)
      ensures this.settings == settings
      ensures Valid() && !IsSetUp()
    {
      this.settings := settings;
      offsetEnd, baseAddress, blocks := [], [], [];
      buffer, deviceMemory := NullHandle, NullHandle;
    }

    /** setup(): take the reservation the device layer made for
        `settings.size` bytes and start every frame empty. */
    method Setup(reservation: Reservation) returns (ok: bool)
      requires settings.frames >= 1
      modifies this
      ensures Valid()
      ensures ok <==> reservation.Reserved?
      ensures ok ==>
        && IsSetUp()
        && buffer == Handle(reservation.bufferId) && deviceMemory == Handle(reservation.memoryId)
        && |offsetEnd| == settings.frames
        && (forall f :: 0 <= f < |offsetEnd| ==> offsetEnd[f] == 0 && blocks[f] == [])
        && baseAddress[0] == reservation.mapped
      ensures !ok ==> !IsSetUp()
    {
      offsetEnd, baseAddress, blocks := [], [], [];
      if reservation.ReservationFailed? {
        buffer, deviceMemory := NullHandle, NullHandle;
        return false;
      }
      var slot := SlotBytes();
      var cursors: seq<nat>, bases: seq<Addr>, i := [], [], 0;
      ghost var empty: seq<seq<Block>> := [];
      while i < settings.frames
        invariant 0 <= i <= settings.frames
        invariant |cursors| == |bases| == |empty| == i
        invariant forall f :: 0 <= f < i ==>
          cursors[f] == 0 && empty[f] == [] && bases[f] == Offset(reservation.mapped, SlotBase(f, slot))
      {
        cursors := cursors + [0];
        bases := bases + [Offset(reservation.mapped, SlotBase(i, slot))];
        empty := empty + [[]];
        i := i + 1;
      }
      assert bases[0] == reservation.mapped;
      EmptySlots(cursors, empty, slot);
      offsetEnd, baseAddress, blocks := cursors, bases, empty;
      buffer := Handle(reservation.bufferId);
      deviceMemory := Handle(reservation.memoryId);
      ok := true;
    }

    /** The device calls that tearing this allocator down makes now: unmap
        (when mapped), destroy the buffer, then free the memory; nothing when
        it is not set up. */
    function ReleaseCalls(): (calls: seq<DeviceCall>)
      reads this
      requires Valid()
      ensures calls != [] <==> IsSetUp()
      ensures calls != [] ==>
        && |calls| >= 2
        && calls[|calls| - 2] == DestroyBuffer(buffer)
        && calls[|calls| - 1] == FreeMemory(deviceMemory)
    {
      if !IsSetUp() then []
      else
        (if baseAddress[0].Host? then [UnmapMemory(deviceMemory)] else [])
        + [DestroyBuffer(buffer), FreeMemory(deviceMemory)]
    }

    /** reset(): free the device memory and de-initialise. A second reset
        makes no device call. */
    method Reset() returns (calls: seq<DeviceCall>)
      requires Valid()
      modifies this
      ensures Valid() && !IsSetUp()
      ensures calls == old(ReleaseCalls())
    {
      calls := ReleaseCalls();
      offsetEnd, baseAddress, blocks := [], [], [];
      buffer, deviceMemory := NullHandle, NullHandle;
    }

    /** ~Allocator(): always resets. */
    method Destroy() returns (calls: seq<DeviceCall>)
      requires Valid()
      modifies this
      ensures Valid() && !IsSetUp()
      ensures calls == old(ReleaseCalls())
    {
      calls := Reset();
    }

    /** allocate(byteCount, pAddr, offset, frame): sub-allocate from frame
        `frame_`. Only that frame's cursor is read and advanced. On success
        `offset` is the absolute offset of the block in the buffer and `pAddr`
        its host address: the mapping base plus that same offset. */
    method Allocate(byteCount: nat, frame_: nat) returns (ok: bool, pAddr: Addr, offset: nat)
      requires Valid()
      requires IsSetUp() ==> frame_ < settings.frames
      modifies this
      ensures Valid()
      ensures baseAddress == old(baseAddress) && buffer == old(buffer) && deviceMemory == old(deviceMemory)
      ensures var g := if old(IsSetUp()) then Bump(SlotBytes(), frame_, old(offsetEnd)[frame_], byteCount) else None;
        && ok == g.Some?
        && (ok ==>
             && offset == g.value.offset
             && offsetEnd == old(offsetEnd)[frame_ := g.value.cursor]
             && blocks == old(blocks)[frame_ := old(blocks)[frame_] + [Block(offset, AlignUp(byteCount))]]
             && pAddr == Offset(baseAddress[0], offset))
        && (!ok ==> offsetEnd == old(offsetEnd) && blocks == old(blocks))
    {
      if |offsetEnd| == 0 || byteCount == 0 {
        return false, Null, 0;
      }
      var slot := SlotBytes();
      var aligned := AlignUp(byteCount);
      if offsetEnd[frame_] + aligned <= slot {
        SlotsAfterBump(offsetEnd, blocks, slot, frame_, byteCount);
        offset := SlotBase(frame_, slot) + offsetEnd[frame_];
        pAddr := Offset(baseAddress[frame_], offsetEnd[frame_]);
        blocks := blocks[frame_ := blocks[frame_] + [Block(offset, aligned)]];
        offsetEnd := offsetEnd[frame_ := offsetEnd[frame_] + aligned];
        ok := true;
      } else {
        ok, pAddr, offset := false, Null, 0;
      }
    }

    /** free(frame): remove all sub-allocations within frame `frame_`; the
        other frames, the buffer and the device memory stay as they are. */
    method Free(frame_: nat)
      requires Valid() && IsSetUp() && frame_ < settings.frames
      modifies this
      ensures Valid()
      ensures offsetEnd == old(offsetEnd)[frame_ := 0]
      ensures blocks == old(blocks)[frame_ := []]
      ensures baseAddress == old(baseAddress) && buffer == old(buffer) && deviceMemory == old(deviceMemory)
    {
      SlotsAfterClear(offsetEnd, blocks, SlotBytes(), frame_);
      offsetEnd := offsetEnd[frame_ := 0];
      blocks := blocks[frame_ := []];
    }

    /** getBuffer(): the owned buffer; null exactly when not set up. */
    function GetBuffer(): (b: Handle)
      reads this
      requires Valid()
      ensures b.NullHandle? <==> !IsSetUp()
    {
      buffer
    }
  }

  /** Frame isolation: outstanding sub-allocations of a live allocator never
      overlap, whichever frames they were made from, and all lie inside the
      reservation. */
  lemma OutstandingBlocksDisjoint(a: Allocator, f: nat, i: nat, g: nat, j: nat)
    requires a.Valid() && a.IsSetUp()
    requires f < |a.blocks| && i < |a.blocks[f]| && g < |a.blocks| && j < |a.blocks[g]|
    requires f != g || i != j
    ensures || a.blocks[f][i].offset + a.blocks[f][i].len <= a.blocks[g][j].offset
            || a.blocks[g][j].offset + a.blocks[g][j].len <= a.blocks[f][i].offset
    ensures a.blocks[f][i].offset + a.blocks[f][i].len <= a.settings.size
    ensures (a.blocks[f][i].offset - SlotBase(f, a.SlotBytes())) % Alignment == 0
    ensures a.SlotBytes() % Alignment == 0 ==> a.blocks[f][i].offset % Alignment == 0
  {
    SlotsDisjoint(a.offsetEnd, a.blocks, a.SlotBytes(), f, i, g, j);
    BlockInsideSlot(a.settings.size, a.settings.frames, a.offsetEnd, a.blocks, f, i);
  }
}
