/** The arithmetic shared by both linear allocators: the reservation is cut
    into `frameCount` equal slots ("virtual frames"), each slot has a cursor
    (the next free location), and an allocation bumps the cursor of one slot
    by the request rounded up to 256 bytes. */
module Linear {
  import opened VkTypes

  /** mAlignment: the headers' default alignment, the largest any Vulkan
      implementation may require; the source calculates the real one on setup. */
  const Alignment: nat := 256

  /** The request size rounded up to the alignment: the least multiple of
      256 that is at least `n`. */
  function AlignUp(n: nat): (r: nat)
    ensures r % Alignment == 0
    ensures n <= r < n + Alignment
  {
    Alignment * ((n + Alignment - 1) / Alignment)
  }

  /** Bytes per virtual frame: the reservation divided evenly among the frames. */
  function SlotSize(size: nat, frameCount: nat): nat
    requires frameCount >= 1
  {
    size / frameCount
  }

  /** Absolute byte offset at which the slot of frame `f` starts. */
  function SlotBase(f: nat, slotSize: nat): nat
  {
    f * slotSize
  }

  /** Slot `f` ends no later than slot `g` begins whenever f < g. */
  lemma SlotBaseMonotone(f: nat, g: nat, slotSize: nat)
    requires f < g
    ensures SlotBase(f, slotSize) + slotSize <= SlotBase(g, slotSize)
    decreases g - f
  {
    if f + 1 < g {
      SlotBaseMonotone(f + 1, g, slotSize);
    }
    assert SlotBase(f + 1, slotSize) == SlotBase(f, slotSize) + slotSize;
  }

  /** Every slot lies inside the reservation. */
  lemma SlotInsideReservation(size: nat, frameCount: nat, f: nat)
    requires frameCount >= 1 && f < frameCount
    ensures SlotBase(f, SlotSize(size, frameCount)) + SlotSize(size, frameCount) <= size
  {
    var s := SlotSize(size, frameCount);
    assert SlotBase(f, s) + s == (f + 1) * s;
    MulMonotone(f + 1, frameCount, s);
    assert frameCount * s <= size;
  }

  lemma {:induction false} MulMonotone(a: nat, b: nat, c: nat)
    requires a <= b
    ensures a * c <= b * c
    decreases c
  {
    if c > 0 {
      MulMonotone(a, b, c - 1);
      assert a * c == a * (c - 1) + a;
      assert b * c == b * (c - 1) + b;
    }
  }

  /** A slot base is a multiple of the alignment when the slot size is. */
  lemma SlotBaseAligned(f: nat, slotSize: nat)
    requires slotSize % Alignment == 0
    ensures SlotBase(f, slotSize) % Alignment == 0
  {
    var k := slotSize / Alignment;
    assert SlotBase(f, slotSize) == Alignment * (f * k);
  }

  /** The alignment of a block is only relative to its slot: 768 bytes over
      two frames gives 384-byte slots, and frame 1's first block then starts
      at 384, which is not a multiple of 256. */
  lemma UnalignedSlotBase()
    ensures SlotSize(768, 2) == 384
    ensures Bump(SlotSize(768, 2), 1, 0, 1).Some?
    ensures Bump(SlotSize(768, 2), 1, 0, 1).value.offset == 384
    ensures Bump(SlotSize(768, 2), 1, 0, 1).value.offset % Alignment != 0
  {
  }

  /** The virtual frame after `x` when there are `n` of them: the next one,
      wrapping around to frame 0 after the last. */
  function NextFrame(x: nat, n: nat): nat
  {
    if x + 1 < n then x + 1 else 0
  }

  /** `(x + 1) % n`, as the frame index is advanced, is the next frame. */
  lemma NextFrameIsMod(x: nat, n: nat)
    requires x < n
    ensures (x + 1) % n == NextFrame(x, n)
  {
  }

  /** The frame reached from frame `f` after `k` advances. */
  function Advance(f: nat, k: nat, n: nat): (r: nat)
    requires f < n
    ensures r < n
  {
    if k == 0 then f else NextFrame(Advance(f, k - 1, n), n)
  }

  /** Before wrapping around, `k` advances move `k` frames on. */
  lemma {:induction false} AdvanceNoWrap(f: nat, k: nat, n: nat)
    requires f + k < n
    ensures Advance(f, k, n) == f + k
  {
    if k > 0 {
      AdvanceNoWrap(f, k - 1, n);
    }
  }

  /** Advancing `a` then `b` times is advancing `a + b` times. */
  lemma {:induction false} AdvanceCompose(f: nat, a: nat, b: nat, n: nat)
    requires f < n
    ensures Advance(f, a + b, n) == Advance(Advance(f, a, n), b, n)
  {
    if b > 0 {
      AdvanceCompose(f, a, b - 1, n);
    }
  }

  /** `n` advances among `n` frames come back to the starting frame. */
  lemma AdvanceCycle(f: nat, n: nat)
    requires f < n
    ensures Advance(f, n, n) == f
  {
    AdvanceNoWrap(f, n - f - 1, n);
    AdvanceCompose(f, n - f, f, n);
    if f > 0 {
      AdvanceNoWrap(0, f, n);
    }
  }

  /** One successful bump: the absolute offset handed out and the slot's
      advanced cursor. */
  datatype Grant = Grant(offset: nat, cursor: nat)

  /** Bump allocation of `byteCount` bytes from slot `frame`, whose cursor
      is `cursor`: succeeds exactly when the request is non-empty and its
      rounded size still fits in the slot. */
  function Bump(slotSize: nat, frame: nat, cursor: nat, byteCount: nat): (r: Option<Grant>)
    ensures r.Some? <==> 0 < byteCount && cursor + AlignUp(byteCount) <= slotSize
    ensures r.Some? ==> r.value.offset == SlotBase(frame, slotSize) + cursor
    ensures r.Some? ==> r.value.offset + byteCount <= SlotBase(frame, slotSize) + r.value.cursor
    ensures r.Some? ==> r.value.cursor <= slotSize
    ensures r.Some? ==> (r.value.cursor - cursor) % Alignment == 0 && r.value.cursor - cursor < byteCount + Alignment
  {
    var aligned := AlignUp(byteCount);
    if 0 < byteCount && cursor + aligned <= slotSize then
      Some(Grant(SlotBase(frame, slotSize) + cursor, cursor + aligned))
    else
      None
  }

  /** A sub-allocation handed to a caller: `len` reserved bytes starting at
      the absolute offset `offset`. */
  datatype Block = Block(offset: nat, len: nat)

  /** `bs` are the sub-allocations made, in order, since the slot was last
      emptied: non-empty aligned blocks laid end to end from `from` up to the
      cursor position `to`. */
  ghost predicate Packed(bs: seq<Block>, from: nat, to: nat)
    decreases |bs|
  {
    if bs == [] then from == to
    else
      && bs[0].offset == from
      && 0 < bs[0].len
      && bs[0].len % Alignment == 0
      && Packed(bs[1..], from + bs[0].len, to)
  }

  /** Appending the block that starts at the cursor keeps a slot packed. */
  lemma {:induction false} PackedAppend(bs: seq<Block>, from: nat, to: nat, len: nat)
    requires Packed(bs, from, to)
    requires 0 < len && len % Alignment == 0
    ensures Packed(bs + [Block(to, len)], from, to + len)
    decreases |bs|
  {
    if bs == [] {
      assert ([] + [Block(to, len)])[1..] == [];
    } else {
      PackedAppend(bs[1..], from + bs[0].len, to, len);
      assert (bs + [Block(to, len)])[1..] == bs[1..] + [Block(to, len)];
    }
  }

  lemma AlignedSum(x: int, y: int)
    requires x % Alignment == 0 && y % Alignment == 0
    ensures (x + y) % Alignment == 0
  {
  }

  /** What a packed slot means for its callers: the cursor is aligned
      relative to the slot start, every block lies between the slot start and
      the cursor at an aligned distance from the start, and earlier blocks end
      before later ones begin (increasing, non-overlapping offsets). */
  lemma {:induction false} PackedLayout(bs: seq<Block>, from: nat, to: nat)
    requires Packed(bs, from, to)
    ensures from <= to && (to - from) % Alignment == 0
    ensures forall i :: 0 <= i < |bs| ==> PlacedIn(bs[i], from, to)
    ensures forall i, j :: 0 <= i < j < |bs| ==> bs[i].offset + bs[i].len <= bs[j].offset
    decreases |bs|
  {
    if bs != [] {
      var next := from + bs[0].len;
      PackedLayout(bs[1..], next, to);
      AlignedSum(to - next, bs[0].len);
      forall i | 0 <= i < |bs|
        ensures PlacedIn(bs[i], from, to)
      {
        if i > 0 {
          assert bs[i] == bs[1..][i - 1];
          assert PlacedIn(bs[i], next, to);
          AlignedSum(bs[i].offset - next, bs[0].len);
        }
      }
      forall i, j | 0 <= i < j < |bs|
        ensures bs[i].offset + bs[i].len <= bs[j].offset
      {
        assert bs[j] == bs[1..][j - 1];
        assert PlacedIn(bs[j], next, to);
        if i > 0 {
          assert bs[i] == bs[1..][i - 1];
        }
      }
    }
  }

  /** Block `b` lies between `from` and `to`, at an aligned distance from `from`. */
  ghost predicate PlacedIn(b: Block, from: nat, to: nat)
  {
    from <= b.offset && b.offset + b.len <= to && (b.offset - from) % Alignment == 0
  }

  /** The per-frame layout invariant of an allocator: every frame's cursor
      stays inside its slot, and its outstanding blocks are packed from the
      slot start up to the cursor. */
  ghost predicate Slots(cursors: seq<nat>, blocks: seq<seq<Block>>, slotSize: nat)
  {
    && |cursors| == |blocks|
    && forall f :: 0 <= f < |cursors| ==>
         && cursors[f] <= slotSize
         && Packed(blocks[f], SlotBase(f, slotSize), SlotBase(f, slotSize) + cursors[f])
  }

  /** The slots of a freshly set-up allocator: all cursors at zero, nothing handed out. */
  lemma EmptySlots(cursors: seq<nat>, blocks: seq<seq<Block>>, slotSize: nat)
    requires |cursors| == |blocks|
    requires forall f :: 0 <= f < |cursors| ==> cursors[f] == 0 && blocks[f] == []
    ensures Slots(cursors, blocks, slotSize)
  {
  }

  /** A successful bump in frame `f` records its block and keeps the layout
      invariant; no other frame changes. */
  lemma SlotsAfterBump(cursors: seq<nat>, blocks: seq<seq<Block>>, slotSize: nat, f: nat, byteCount: nat)
    requires Slots(cursors, blocks, slotSize) && f < |cursors|
    requires Bump(slotSize, f, cursors[f], byteCount).Some?
    ensures var g := Bump(slotSize, f, cursors[f], byteCount).value;
      Slots(cursors[f := g.cursor], blocks[f := blocks[f] + [Block(g.offset, g.cursor - cursors[f])]], slotSize)
  {
    var g := Bump(slotSize, f, cursors[f], byteCount).value;
    var base := SlotBase(f, slotSize);
    PackedLayout(blocks[f], base, base + cursors[f]);
    PackedAppend(blocks[f], base, base + cursors[f], g.cursor - cursors[f]);
  }

  /** Emptying frame `f` keeps the layout invariant; no other frame changes. */
  lemma SlotsAfterClear(cursors: seq<nat>, blocks: seq<seq<Block>>, slotSize: nat, f: nat)
    requires Slots(cursors, blocks, slotSize) && f < |cursors|
    ensures Slots(cursors[f := 0], blocks[f := []], slotSize)
  {
  }

  /** Frame isolation: any two outstanding sub-allocations of an allocator,
      in the same frame or in different frames, never overlap. */
  lemma SlotsDisjoint(cursors: seq<nat>, blocks: seq<seq<Block>>, slotSize: nat, f: nat, i: nat, g: nat, j: nat)
    requires Slots(cursors, blocks, slotSize)
    requires f < |blocks| && i < |blocks[f]| && g < |blocks| && j < |blocks[g]|
    requires f != g || i != j
    ensures || blocks[f][i].offset + blocks[f][i].len <= blocks[g][j].offset
            || blocks[g][j].offset + blocks[g][j].len <= blocks[f][i].offset
  {
    PackedLayout(blocks[f], SlotBase(f, slotSize), SlotBase(f, slotSize) + cursors[f]);
    PackedLayout(blocks[g], SlotBase(g, slotSize), SlotBase(g, slotSize) + cursors[g]);
    if f < g {
      SlotBaseMonotone(f, g, slotSize);
    } else if g < f {
      SlotBaseMonotone(g, f, slotSize);
    }
  }

  /** Every outstanding block lies inside its own frame's slot, hence inside
      the reservation, and is aligned relative to the slot start; its
      absolute offset is aligned too when the slot size is a multiple of the
      alignment. */
  lemma BlockInsideSlot(size: nat, frameCount: nat, cursors: seq<nat>, blocks: seq<seq<Block>>, f: nat, i: nat)
    requires frameCount >= 1 && |cursors| == frameCount
    requires Slots(cursors, blocks, SlotSize(size, frameCount))
    requires f < |blocks| && i < |blocks[f]|
    ensures var s := SlotSize(size, frameCount);
      && SlotBase(f, s) <= blocks[f][i].offset
      && blocks[f][i].offset + blocks[f][i].len <= SlotBase(f, s) + s <= size
      && (blocks[f][i].offset - SlotBase(f, s)) % Alignment == 0
      && (s % Alignment == 0 ==> blocks[f][i].offset % Alignment == 0)
  {
    var s := SlotSize(size, frameCount);
    PackedLayout(blocks[f], SlotBase(f, s), SlotBase(f, s) + cursors[f]);
    SlotInsideReservation(size, frameCount, f);
    if s % Alignment == 0 {
      SlotBaseAligned(f, s);
      AlignedSum(SlotBase(f, s), blocks[f][i].offset - SlotBase(f, s));
    }
  }
}
