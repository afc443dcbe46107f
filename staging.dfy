/** The staging protocol of the render context, as values: for each item,
    allocate its bytes first from the target allocator and then from the
    context's transient (host-visible) allocator, copy the bytes to the
    transient allocator's mapped memory, and record a copy region; stop at the
    first item that cannot be staged. */
module Staging {
  import opened VkTypes
  import opened Linear
  import opened BufferAllocation

  /** TransferSrcData: where the caller's elements are, how many, how big. */
  datatype TransferSrcData = TransferSrcData(pData: Addr, numElements: nat, numBytesPerElement: nat)

  /** vk::BufferCopy: copy `size` bytes from `srcOffset` in the source buffer
      to `dstOffset` in the destination buffer. */
  datatype BufferCopy = BufferCopy(srcOffset: nat, dstOffset: nat, size: nat)

  /** One memcpy of `size` bytes from host address `src` to host address `dst`. */
  datatype HostCopy = HostCopy(dst: Addr, src: Addr, size: nat)

  /** Byte length of an item: bytes per element times element count. */
  function ByteLength(src: TransferSrcData): nat
  {
    src.numBytesPerElement * src.numElements
  }

  /** The outcome of staging a batch: the copy regions recorded, the memcpy
      calls made, and the two allocators' states afterwards. */
  datatype Staged = Staged(
    regions: seq<BufferCopy>,
    copies: seq<HostCopy>,
    target: AllocatorState,
    transient: AllocatorState)

  /** One item of stageData: allocate its byte length from the target
      first; only when that succeeds from the transient allocator; only when
      that succeeds ask the transient allocator for its write address, and
      copy the item's bytes there when it is not null. The outcome holds one
      region and one copy on success, none on failure, and the allocators'
      states either way: a failure keeps whatever the earlier steps took. */
  function StageOne(item: TransferSrcData, target: AllocatorState, transient: AllocatorState): (r: Staged)
    requires WellFormed(target) && WellFormed(transient)
    ensures WellFormed(r.target) && WellFormed(r.transient)
    ensures |r.regions| <= 1 && |r.copies| == |r.regions|
  {
    var size := ByteLength(item);
    match AllocateOn(target, size)
    case None => Staged([], [], target, transient)
    case Some(dst) =>
      match AllocateOn(transient, size)
      case None => Staged([], [], dst.after, transient)
      case Some(src) =>
        if src.after.mapped.Null? then Staged([], [], dst.after, src.after)
        else Staged([BufferCopy(src.offset, dst.offset, size)], [HostCopy(src.after.mapped, item.pData, size)],
                    dst.after, src.after)
  }

  /** Trying one item, staged or not, never moves either allocator to
      another frame and never moves a cursor back. A staged item's region is
      copied from the transient allocator's cursor to the target's cursor,
      and both cursors move past it by its rounded-up length; its bytes are
      written at the host address of the source offset, which is not null. */
  lemma StageOneRegion(item: TransferSrcData, target: AllocatorState, transient: AllocatorState)
    requires WellFormed(target) && WellFormed(transient)
    ensures var h := StageOne(item, target, transient);
      && (Ready(target) ==>
            && Ready(h.target) && h.target.frame == target.frame && h.target.slotSize == target.slotSize
            && Top(target) <= Top(h.target))
      && (Ready(transient) ==>
            && Ready(h.transient) && h.transient.frame == transient.frame && h.transient.bases == transient.bases
            && Top(transient) <= Top(h.transient))
    ensures var h := StageOne(item, target, transient);
      h.regions != [] ==>
        && Ready(target) && Ready(transient) && Ready(h.target) && Ready(h.transient)
        && h.regions[0] == BufferCopy(Top(transient), Top(target), ByteLength(item))
        && h.copies[0] == HostCopy(Offset(transient.bases[0], Top(transient)), item.pData, ByteLength(item))
        && h.copies[0].dst.Host?
        && h.target.frame == target.frame && h.target.slotSize == target.slotSize
        && h.transient.frame == transient.frame && h.transient.bases == transient.bases
        && Top(h.target) == Top(target) + AlignUp(ByteLength(item))
        && Top(h.transient) == Top(transient) + AlignUp(ByteLength(item))
  {
  }

  /** stageData(dataVec, targetAllocator): stage the items in order; at the
      first item that cannot be staged the batch stops, keeping the regions
      of the items before it and whatever the failed item had already taken
      from the allocators. */
  function Stage(items: seq<TransferSrcData>, target: AllocatorState, transient: AllocatorState): (r: Staged)
    requires WellFormed(target) && WellFormed(transient)
    ensures WellFormed(r.target) && WellFormed(r.transient)
    ensures |r.regions| <= |items| && |r.copies| == |r.regions|
    ensures |r.regions| > 0 ==> Ready(target) && Ready(transient)
    decreases |items|
  {
    if items == [] then Staged([], [], target, transient)
    else
      var h := StageOne(items[0], target, transient);
      if h.regions == [] then h
      else
        var rest := Stage(items[1..], h.target, h.transient);
        Staged(h.regions + rest.regions, h.copies + rest.copies, rest.target, rest.transient)
  }

  /** Region `i` and copy `i` come from item `i`: the region is as long as
      the item's bytes, and the copy reads that many bytes from the item's
      data. */
  ghost predicate FromItems(regions: seq<BufferCopy>, copies: seq<HostCopy>, items: seq<TransferSrcData>)
  {
    && |regions| == |copies| <= |items|
    && forall i :: 0 <= i < |regions| ==>
         && regions[i].size == items[i].numBytesPerElement * items[i].numElements
         && copies[i] == HostCopy(copies[i].dst, items[i].pData, regions[i].size)
  }

  lemma FromItemsCons(r: BufferCopy, c: HostCopy, regions: seq<BufferCopy>, copies: seq<HostCopy>,
                      items: seq<TransferSrcData>)
    requires items != [] && r.size == ByteLength(items[0]) && c.src == items[0].pData && c.size == r.size
    requires FromItems(regions, copies, items[1..])
    ensures FromItems([r] + regions, [c] + copies, items)
  {
  }

  /** Region `i` comes from item `i`: its size is that item's byte length, and
      the bytes copied for it are read from that item's data. */
  lemma {:induction false} StageSizes(items: seq<TransferSrcData>, target: AllocatorState, transient: AllocatorState)
    requires WellFormed(target) && WellFormed(transient)
    ensures var s := Stage(items, target, transient);
      FromItems(s.regions, s.copies, items)
    decreases |items|
  {
    if items != [] {
      var h := StageOne(items[0], target, transient);
      StageOneRegion(items[0], target, transient);
      if h.regions != [] {
        StageSizes(items[1..], h.target, h.transient);
        var rest := Stage(items[1..], h.target, h.transient);
        FromItemsCons(h.regions[0], h.copies[0], rest.regions, rest.copies, items);
        assert [h.regions[0]] == h.regions && [h.copies[0]] == h.copies;
      }
    }
  }

  /** Destination regions are increasing and non-overlapping. */
  ghost predicate AscendingDst(rs: seq<BufferCopy>)
  {
    forall i, j :: 0 <= i < j < |rs| ==> rs[i].dstOffset + rs[i].size <= rs[j].dstOffset
  }

  /** Source (staging) regions are increasing and non-overlapping. */
  ghost predicate AscendingSrc(rs: seq<BufferCopy>)
  {
    forall i, j :: 0 <= i < j < |rs| ==> rs[i].srcOffset + rs[i].size <= rs[j].srcOffset
  }

  /** Every destination region lies within [lo, hi). */
  ghost predicate DstWithin(rs: seq<BufferCopy>, lo: int, hi: int)
  {
    forall i :: 0 <= i < |rs| ==> lo <= rs[i].dstOffset && rs[i].dstOffset + rs[i].size <= hi
  }

  /** Every source region lies within [lo, hi). */
  ghost predicate SrcWithin(rs: seq<BufferCopy>, lo: int, hi: int)
  {
    forall i :: 0 <= i < |rs| ==> lo <= rs[i].srcOffset && rs[i].srcOffset + rs[i].size <= hi
  }

  /** Copy `i` writes to the host address of region `i`'s source offset in
      the mapping that starts at `base`, which is not null. */
  ghost predicate CopiesAt(copies: seq<HostCopy>, regions: seq<BufferCopy>, base: Addr)
  {
    && |copies| == |regions|
    && forall i :: 0 <= i < |copies| ==> copies[i].dst == Offset(base, regions[i].srcOffset) && copies[i].dst.Host?
  }

  lemma DstCons(r: BufferCopy, rest: seq<BufferCopy>, lo: int, mid: int, hi: int)
    requires lo <= r.dstOffset && r.dstOffset + r.size <= mid <= hi
    requires DstWithin(rest, mid, hi) && AscendingDst(rest)
    ensures DstWithin([r] + rest, lo, hi) && AscendingDst([r] + rest)
  {
  }

  lemma SrcCons(r: BufferCopy, c: HostCopy, rest: seq<BufferCopy>, copies: seq<HostCopy>,
                base: Addr, lo: int, mid: int, hi: int)
    requires lo <= r.srcOffset && r.srcOffset + r.size <= mid <= hi
    requires c.dst == Offset(base, r.srcOffset) && c.dst.Host?
    requires SrcWithin(rest, mid, hi) && AscendingSrc(rest) && CopiesAt(copies, rest, base)
    ensures SrcWithin([r] + rest, lo, hi) && AscendingSrc([r] + rest) && CopiesAt([c] + copies, [r] + rest, base)
  {
  }

  /** Staging never changes the target's frame: the destination regions are
      increasing, non-overlapping, and lie between the target's cursor before
      and after the batch, inside its current slot. */
  lemma {:induction false} StageDst(items: seq<TransferSrcData>, target: AllocatorState, transient: AllocatorState)
    requires WellFormed(target) && WellFormed(transient) && Ready(target)
    ensures var s := Stage(items, target, transient);
      && Ready(s.target) && s.target.frame == target.frame && s.target.slotSize == target.slotSize
      && Top(target) <= Top(s.target) <= SlotBase(target.frame, target.slotSize) + target.slotSize
      && DstWithin(s.regions, Top(target), Top(s.target))
      && AscendingDst(s.regions)
    decreases |items|
  {
    if items != [] {
      var h := StageOne(items[0], target, transient);
      StageOneRegion(items[0], target, transient);
      if h.regions != [] {
        StageDst(items[1..], h.target, h.transient);
        var rest := Stage(items[1..], h.target, h.transient);
        DstCons(h.regions[0], rest.regions, Top(target), Top(h.target), Top(rest.target));
        assert [h.regions[0]] == h.regions;
      }
    }
  }

  /** The same for the staging side: source regions are increasing and
      non-overlapping inside the transient allocator's current slot, and each
      memcpy writes to the mapped address of its region's source offset (the
      mapping base plus that offset), which is never null. */
  lemma {:induction false} StageSrc(items: seq<TransferSrcData>, target: AllocatorState, transient: AllocatorState)
    requires WellFormed(target) && WellFormed(transient) && Ready(transient)
    ensures var s := Stage(items, target, transient);
      && Ready(s.transient) && s.transient.frame == transient.frame && s.transient.bases == transient.bases
      && Top(transient) <= Top(s.transient) <= SlotBase(transient.frame, transient.slotSize) + transient.slotSize
      && SrcWithin(s.regions, Top(transient), Top(s.transient))
      && AscendingSrc(s.regions)
      && CopiesAt(s.copies, s.regions, transient.bases[0])
    decreases |items|
  {
    if items != [] {
      var h := StageOne(items[0], target, transient);
      StageOneRegion(items[0], target, transient);
      if h.regions != [] {
        StageSrc(items[1..], h.target, h.transient);
        var rest := Stage(items[1..], h.target, h.transient);
        SrcCons(h.regions[0], h.copies[0], rest.regions, rest.copies, transient.bases[0],
                Top(transient), Top(h.transient), Top(rest.transient));
        assert [h.regions[0]] == h.regions && [h.copies[0]] == h.copies;
      }
    }
  }

  /** Items are staged strictly one after another: staging `items + more` is
      staging `items` and then, only if every one of them was staged,
      continuing with `more` from the allocators' new states. When some item
      of `items` failed, the items after it, `more` included, are never
      looked at, and the regions made before the failure are kept. */
  lemma StageAppend(items: seq<TransferSrcData>, more: seq<TransferSrcData>,
                    target: AllocatorState, transient: AllocatorState)
    requires WellFormed(target) && WellFormed(transient)
    ensures var s := Stage(items, target, transient);
      if |s.regions| == |items| then
        var t := Stage(more, s.target, s.transient);
        Stage(items + more, target, transient) ==
          Staged(s.regions + t.regions, s.copies + t.copies, t.target, t.transient)
      else
        Stage(items + more, target, transient) == s
  {
    if |Stage(items, target, transient).regions| == |items| {
      StageAppendStaged(items, more, target, transient);
    } else {
      StageAppendStopped(items, more, target, transient);
    }
  }

  /** `items` all staged: `more` goes on from where they left the allocators. */
  lemma {:induction false} StageAppendStaged(items: seq<TransferSrcData>, more: seq<TransferSrcData>,
                                             target: AllocatorState, transient: AllocatorState)
    requires WellFormed(target) && WellFormed(transient)
    requires |Stage(items, target, transient).regions| == |items|
    ensures var s := Stage(items, target, transient);
      var t := Stage(more, s.target, s.transient);
      Stage(items + more, target, transient) ==
        Staged(s.regions + t.regions, s.copies + t.copies, t.target, t.transient)
    decreases |items|
  {
    if items == [] {
      assert items + more == more;
      var t := Stage(more, target, transient);
      assert [] + t.regions == t.regions && [] + t.copies == t.copies;
    } else {
      AppendTail(items, more);
      var h := StageOne(items[0], target, transient);
      StageAppendStaged(items[1..], more, h.target, h.transient);
      var rest := Stage(items[1..], h.target, h.transient);
      var t := Stage(more, rest.target, rest.transient);
      AppendAssoc(h.regions, rest.regions, t.regions);
      AppendAssoc(h.copies, rest.copies, t.copies);
    }
  }

  /** Some item of `items` failed: `more` is never looked at. */
  lemma {:induction false} StageAppendStopped(items: seq<TransferSrcData>, more: seq<TransferSrcData>,
                                              target: AllocatorState, transient: AllocatorState)
    requires WellFormed(target) && WellFormed(transient)
    requires |Stage(items, target, transient).regions| < |items|
    ensures Stage(items + more, target, transient) == Stage(items, target, transient)
    decreases |items|
  {
    AppendTail(items, more);
    var h := StageOne(items[0], target, transient);
    if h.regions != [] {
      StageAppendStopped(items[1..], more, h.target, h.transient);
    }
  }

  /** The regions of a batch's first part are a prefix of the whole batch's
      regions: a later failure never takes back regions already produced. */
  lemma StagePrefix(front: seq<TransferSrcData>, back: seq<TransferSrcData>,
                    target: AllocatorState, transient: AllocatorState)
    requires WellFormed(target) && WellFormed(transient)
    ensures Stage(front, target, transient).regions <= Stage(front + back, target, transient).regions
  {
    StageAppend(front, back, target, transient);
  }

  lemma AppendTail<T>(a: seq<T>, b: seq<T>)
    requires a != []
    ensures (a + b)[0] == a[0] && (a + b)[1..] == a[1..] + b
  {
  }

  lemma AppendAssoc<T>(a: seq<T>, b: seq<T>, c: seq<T>)
    ensures a + (b + c) == (a + b) + c
  {
  }

  lemma SliceTail<T>(a: seq<T>, i: nat)
    requires i < |a|
    ensures a[i..] != [] && a[i..][0] == a[i] && a[i..][1..] == a[i + 1..]
  {
  }

  /** Staging as stageData's loop goes about it: `done` holds what the
      items before `i` produced and the allocators' states after them; try
      item `i`, stop when it fails, otherwise add what it produced and go on
      with item `i + 1`. */
  function StageFrom(items: seq<TransferSrcData>, i: nat, done: Staged): (r: Staged)
    requires i <= |items| && WellFormed(done.target) && WellFormed(done.transient)
    decreases |items| - i
  {
    if i == |items| then done
    else
      var h := StageOne(items[i], done.target, done.transient);
      if h.regions == [] then Staged(done.regions, done.copies, h.target, h.transient)
      else StageFrom(items, i + 1, Staged(done.regions + h.regions, done.copies + h.copies, h.target, h.transient))
  }

  /** The loop's way agrees with `Stage`: going on from item `i` after
      `done` gives `done` followed by staging the remaining items from the
      states `done` left the allocators in. */
  lemma {:induction false} StageFromIsStage(items: seq<TransferSrcData>, i: nat, done: Staged)
    requires i <= |items| && WellFormed(done.target) && WellFormed(done.transient)
    ensures var r := Stage(items[i..], done.target, done.transient);
      StageFrom(items, i, done) == Staged(done.regions + r.regions, done.copies + r.copies, r.target, r.transient)
    decreases |items| - i
  {
    if i == |items| {
      assert items[i..] == [];
      AppendEmpty(done.regions);
      AppendEmpty(done.copies);
    } else {
      SliceTail(items, i);
      var h := StageOne(items[i], done.target, done.transient);
      if h.regions == [] {
        AppendEmpty(done.regions);
        AppendEmpty(done.copies);
      } else {
        var d := Staged(done.regions + h.regions, done.copies + h.copies, h.target, h.transient);
        StageFromIsStage(items, i + 1, d);
        var rest := Stage(items[i + 1..], h.target, h.transient);
        AppendAssoc(done.regions, h.regions, rest.regions);
        AppendAssoc(done.copies, h.copies, rest.copies);
      }
    }
  }

  /** Staging a whole batch is going on from its first item with nothing
      done yet. */
  lemma StageFromStart(items: seq<TransferSrcData>, target: AllocatorState, transient: AllocatorState)
    requires WellFormed(target) && WellFormed(transient)
    ensures StageFrom(items, 0, Staged([], [], target, transient)) == Stage(items, target, transient)
  {
    StageFromIsStage(items, 0, Staged([], [], target, transient));
    assert items[0..] == items;
    var r := Stage(items, target, transient);
    assert [] + r.regions == r.regions && [] + r.copies == r.copies;
  }

  lemma AppendEmpty<T>(a: seq<T>)
    ensures a + [] == a
  {
  }

  /** The target is asked first: when an item's target allocation succeeds
      and its transient allocation fails, the batch stops with no region for
      that item, yet the target's cursor has already moved past it while the
      transient allocator is unchanged. */
  lemma TargetAdvancesOnTransientFailure(item: TransferSrcData, rest: seq<TransferSrcData>,
                                         target: AllocatorState, transient: AllocatorState)
    requires WellFormed(target) && WellFormed(transient)
    requires AllocateOn(target, ByteLength(item)).Some?
    requires AllocateOn(transient, ByteLength(item)).None?
    ensures var s := Stage([item] + rest, target, transient);
      && s.regions == []
      && s.transient == transient
      && s.target == AllocateOn(target, ByteLength(item)).value.after
      && Top(s.target) == Top(target) + AlignUp(ByteLength(item))
  {
    assert ([item] + rest)[0] == item;
  }

  /** An item with no elements, or with zero-byte elements, is an empty
      request, which the allocators refuse: the batch ends at that item and
      neither allocator moves. */
  lemma EmptyItemStops(item: TransferSrcData, rest: seq<TransferSrcData>,
                       target: AllocatorState, transient: AllocatorState)
    requires WellFormed(target) && WellFormed(transient)
    requires item.numElements == 0 || item.numBytesPerElement == 0
    ensures Stage([item] + rest, target, transient) == Staged([], [], target, transient)
  {
    assert ([item] + rest)[0] == item;
    assert ByteLength(item) == 0;
  }

  /** The region a buffer barrier covers: an offset and a size. The size is
      an integer because the source subtracts unsigned offsets: a negative
      value here is one the source would wrap around. */
  datatype Span = Span(offset: nat, size: int)

  /** The conservative barrier span of storeDataCmd: from the first region's
      destination offset to the end of the last region. When the regions are
      increasing and non-overlapping, as staging always produces them, it
      covers every region and is the smallest span that does. */
  function BarrierSpan(regions: seq<BufferCopy>): (s: Span)
    requires |regions| > 0
    ensures s.offset == regions[0].dstOffset
    ensures s.offset + s.size == regions[|regions| - 1].dstOffset + regions[|regions| - 1].size
    ensures AscendingDst(regions) ==>
      && 0 <= s.size
      && forall i :: 0 <= i < |regions| ==>
           s.offset <= regions[i].dstOffset && regions[i].dstOffset + regions[i].size <= s.offset + s.size
  {
    var first := regions[0];
    var last := regions[|regions| - 1];
    Span(first.dstOffset, (last.dstOffset + last.size) - first.dstOffset)
  }
}
