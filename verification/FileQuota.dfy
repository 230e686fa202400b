/** The blocks that the inode layer syncs (src/fs/inode.c, src/fs/cache.c), computed from the file, the range and
    the bitmap before the call. */
module FileQuota {
  import opened Basics
  import opened Counting
  import opened Bytes
  import opened LogSpec
  import opened BlockMap
  import opened FreeBlocks
  import opened Quota

  const BIT_PER_BLOCK: nat := 4096
  const INODE_PER_BLOCK: nat := 8

  // Where the inode blocks and the bitmap blocks start.
  datatype Layout = Layout(inode_start: nat, bitmap_start: nat)

  // BBLOCK.
  function BitBlock(y: Layout, b: nat): nat { y.bitmap_start + b / BIT_PER_BLOCK }

  // to_block_no.
  function InodeBlock(y: Layout, ino: nat): nat { y.inode_start + ino / INODE_PER_BLOCK }

  ghost function BitBlocks(y: Layout, s: set<nat>): set<nat> { set b | b in s :: BitBlock(y, b) }

  lemma BitBlocksBoth(y: Layout, s: set<nat>, t: set<nat>)
    ensures BitBlocks(y, s + t) == BitBlocks(y, s) + BitBlocks(y, t)
  {
  }

  lemma BitBlocksOne(y: Layout, b: nat)
    ensures BitBlocks(y, {b}) == {BitBlock(y, b)}
  {
  }

  // What the allocation of the blocks s syncs: the blocks, cleared, and their bits.
  ghost function NewTouch(y: Layout, s: set<nat>): set<nat> { s + BitBlocks(y, s) }

  lemma NewTouchBoth(y: Layout, s: set<nat>, t: set<nat>)
    ensures NewTouch(y, s + t) == NewTouch(y, s) + NewTouch(y, t)
  {
    BitBlocksBoth(y, s, t);
  }

  // What inode_map syncs at index i: the blocks that it allocates, and the indirect block for a new slot of it.
  ghost function MapTouch(y: Layout, e: Entry, st: Store, i: nat): set<nat>
    requires Formed(e, st.blocks) && i < MAX_BLOCKS
  {
    NewTouch(y, NewSet(st.used, Cost(e, st.blocks, i)))
    + (if i >= NUM_DIRECT && e.indirect != 0 && MapAt(e, st.blocks, i) == 0 then {e.indirect as nat} else {})
  }

  // The indices of the blocks that hold a range.
  ghost function Indices(off: nat, n: nat): set<nat> {
    if n == 0 then {} else set i: nat | i < BlocksFor(off + n) && From(off / BLOCK_SIZE, i)
  }

  predicate From(a: nat, i: nat) { a <= i }

  lemma NextIndex(off: nat, tot: nat, m: nat)
    requires 0 < m <= Room(off + tot)
    ensures Indices(off, tot + m) == Indices(off, tot) + {(off + tot) / BLOCK_SIZE}
  {
    var at := off + tot;
    var i := at / BLOCK_SIZE;
    assert BlocksFor(at + m) == i + 1;
    if tot > 0 {
      assert BlocksFor(at) == i || BlocksFor(at) == i + 1;
      assert off / BLOCK_SIZE <= i;
    } else {
      assert Indices(off, m) == {i};
    }
  }

  // The blocks that the file has in a range.
  ghost function OldData(e: Entry, bs: seq<Block>, off: nat, n: nat): set<nat>
    requires Formed(e, bs)
  {
    set i | i in Indices(off, n) && i < BlocksFor(e.num_bytes) && i < MAX_BLOCKS :: MapAt(e, bs, i) as nat
  }

  // What the loop of inode_write syncs: the blocks of the range that are there, those that it allocates, and the
  // indirect block if it gets new slots.
  ghost function DataTouch(y: Layout, e: Entry, st: Store, off: nat, n: nat): set<nat>
    requires Formed(e, st.blocks)
  {
    var g := Growth(e.num_bytes, off + n);
    OldData(e, st.blocks, off, n) + NewTouch(y, NewSet(st.used, g))
        + (if e.indirect != 0 && g > 0 then {e.indirect as nat} else {})
  }

  // What inode_write syncs: that, and the inode block if the file grows.
  ghost function WriteTouch(y: Layout, ino: nat, e: Entry, st: Store, off: nat, n: nat): set<nat>
    requires Formed(e, st.blocks)
  {
    DataTouch(y, e, st, off, n) + (if off + n > e.num_bytes then {InodeBlock(y, ino)} else {})
  }

  // The blocks of the file.
  ghost function Owned(e: Entry, bs: seq<Block>): set<nat>
    requires Formed(e, bs)
  {
    (set i | 0 <= i < MAX_BLOCKS && MapAt(e, bs, i) != 0 :: MapAt(e, bs, i) as nat)
        + (if e.indirect != 0 then {e.indirect as nat} else {})
  }

  lemma OwnedIs(e: Entry, bs: seq<Block>, b: nat)
    requires Formed(e, bs)
    ensures b in Owned(e, bs) <==> Owns(e, bs, b)
  {
  }

  // What inode_clear syncs: the bits of the file's blocks, and the inode block.
  ghost function ClearTouch(y: Layout, ino: nat, e: Entry, bs: seq<Block>): set<nat>
    requires Formed(e, bs)
  {
    BitBlocks(y, Owned(e, bs)) + {InodeBlock(y, ino)}
  }

  // ---- the write, chunk by chunk ----

  // After tot bytes: the blocks allocated are the lowest free ones, as many as the growth takes, and what the file
  // has new is among them.
  ghost predicate Tracked(e0: Entry, st0: Store, off: nat, e: Entry, st: Store, n: nat, tot: nat) {
    && Formed(e0, st0.blocks) && Formed(e, st.blocks) && n <= MAX_BLOCKS && BlocksFor(e0.num_bytes) <= n
    && var taken := NewSet(st0.used, Growth(e0.num_bytes, off + tot));
    && st.used == st0.used + taken
    && (forall i :: 0 <= i < BlocksFor(e0.num_bytes) ==> MapAt(e, st.blocks, i) == MapAt(e0, st0.blocks, i))
    && (forall i :: BlocksFor(e0.num_bytes) <= i < n ==> MapAt(e, st.blocks, i) in taken)
    && (e.indirect == e0.indirect || (e0.indirect == 0 && e.indirect in taken))
  }

  lemma TrackedStart(e0: Entry, st0: Store, off: nat)
    requires Dense(e0, st0.blocks, BlocksFor(e0.num_bytes)) && off <= e0.num_bytes
    ensures Tracked(e0, st0, off, e0, st0, BlocksFor(e0.num_bytes), 0)
    ensures forall y :: DataTouch(y, e0, st0, off, 0) == {}
  {
    assert Growth(e0.num_bytes, off + 0) == 0;
    assert NewSet(st0.used, 0) == {};
    assert st0.used == st0.used + {};
    forall y ensures DataTouch(y, e0, st0, off, 0) == {} {
      assert BitBlocks(y, {}) == {};
    }
  }

  // A chunk in a block that the file has.
  lemma TouchOld(y: Layout, e0: Entry, st0: Store, off: nat, e: Entry, st: Store, n: nat, tot: nat, m: nat, i: nat)
    requires Tracked(e0, st0, off, e, st, n, tot) && 0 < m <= Room(off + tot) && i == (off + tot) / BLOCK_SIZE && i < n
    requires Growth(e0.num_bytes, off + tot + m) == Growth(e0.num_bytes, off + tot)
    ensures DataTouch(y, e0, st0, off, tot + m) == DataTouch(y, e0, st0, off, tot) + {MapAt(e, st.blocks, i)}
    ensures Tracked(e0, st0, off, e, st, n, tot + m)
  {
    hide Growth, BlocksFor, MapAt, Formed;
    assert off + tot + m == off + (tot + m);
    NextIndex(off, tot, m);
    hide Indices;
    assert OldData(e0, st0.blocks, off, tot + m)
        == OldData(e0, st0.blocks, off, tot)
            + (if i < BlocksFor(e0.num_bytes) then {MapAt(e0, st0.blocks, i) as nat} else {});
  }

  // A chunk in the next block, which is new and may need a new indirect block.
  lemma TrackNew(e0: Entry, st0: Store, off: nat, e: Entry, st: Store, n: nat, tot: nat, at: nat, e1: Entry, st1: Store)
    requires Tracked(e0, st0, off, e, st, n, tot) && n < MAX_BLOCKS && StoreOk(st0)
    requires Mapped(e, st, e1, st1, n) && MapAt(e, st.blocks, n) == 0
    requires Growth(e0.num_bytes, off + at) == Growth(e0.num_bytes, off + tot) + Cost(e, st.blocks, n)
    requires st1.used == st.used + NewSet(st.used, Cost(e, st.blocks, n))
    ensures Tracked(e0, st0, off, e1, st1, n + 1, at)
  {
    hide Growth, BlocksFor, NewSet, Cost, Mapped, MapAt;
    var g, c := Growth(e0.num_bytes, off + tot), Cost(e, st.blocks, n);
    var taken, more := NewSet(st0.used, g), NewSet(st.used, c);
    NewSplit(st0.used, g, c);
    NewFree(st0.used, g);
    NewTouched(e, st, e1, st1, n, more);
    MappedRest(e, st, e1, st1, n);
    assert st1.used == st0.used + (taken + more);
  }

  lemma MappedRest(e: Entry, st: Store, e1: Entry, st1: Store, i: nat)
    requires Formed(e, st.blocks) && Mapped(e, st, e1, st1, i)
    ensures Formed(e1, st1.blocks)
    ensures forall j :: 0 <= j < MAX_BLOCKS && j != i ==> MapAt(e1, st1.blocks, j) == MapAt(e, st.blocks, j)
  {
    hide MapAt;
  }

  lemma GrowthStep(size: nat, at: nat, n: nat, i: nat, m: nat, e: Entry, bs: seq<Block>)
    requires n == BlocksFor(Max(size, at)) && i == at / BLOCK_SIZE && 0 < m <= Room(at)
    requires Dense(e, bs, n) && i < MAX_BLOCKS
    ensures i <= n && BlocksFor(Max(size, at + m)) == if i < n then n else n + 1
    ensures Growth(size, at + m) == Growth(size, at) + Cost(e, bs, i)
    ensures i < n ==> Growth(size, at + m) == Growth(size, at)
  {
    hide Dense, Cost;
    ChunkBlocks(size, at, n, i, m);
    DenseCost(e, bs, n, i);
    GrowthMono(size, at, at + m);
  }

  // What such a chunk syncs.
  lemma TouchNew(y: Layout, e0: Entry, st0: Store, off: nat, e: Entry, st: Store, n: nat, tot: nat, m: nat, e1: Entry,
                 st1: Store)
    requires Tracked(e0, st0, off, e, st, n, tot) && n < MAX_BLOCKS && 0 < m <= Room(off + tot)
    requires n == (off + tot) / BLOCK_SIZE
    requires Mapped(e, st, e1, st1, n) && MapAt(e, st.blocks, n) == 0 && (e.indirect != 0 <==> n > NUM_DIRECT)
    requires e0.indirect != 0 ==> n > NUM_DIRECT
    requires Growth(e0.num_bytes, off + (tot + m)) == Growth(e0.num_bytes, off + tot) + Cost(e, st.blocks, n)
    requires st1.used == st.used + NewSet(st.used, Cost(e, st.blocks, n))
    ensures Formed(e1, st1.blocks)
    ensures DataTouch(y, e0, st0, off, tot + m)
            == DataTouch(y, e0, st0, off, tot) + MapTouch(y, e, st, n) + {MapAt(e1, st1.blocks, n)}
  {
    hide Growth, BlocksFor, NewSet, Indices, NewTouch, Mapped, OldData;
    var g, c := Growth(e0.num_bytes, off + tot), Cost(e, st.blocks, n);
    var taken, more := NewSet(st0.used, g), NewSet(st.used, c);
    NewSplit(st0.used, g, c);
    NewTouchBoth(y, taken, more);
    NewTouched(e, st, e1, st1, n, more);
    NewIn(y, more, MapAt(e1, st1.blocks, n));
    SameOld(e0, st0, off, tot, m, n);
    if e.indirect in taken {
      NewIn(y, taken, e.indirect);
    }
    hide MapAt;
    TouchAlgebra(OldData(e0, st0.blocks, off, tot), NewTouch(y, taken), NewTouch(y, more), MapAt(e1, st1.blocks, n),
                 e0.indirect, e.indirect, g > 0);
  }

  lemma NewIn(y: Layout, s: set<nat>, b: nat)
    requires b in s
    ensures b in NewTouch(y, s)
  {
  }

  // No block that the file had is in the part of the range beyond them.
  lemma SameOld(e0: Entry, st0: Store, off: nat, tot: nat, m: nat, n: nat)
    requires Formed(e0, st0.blocks) && 0 < m <= Room(off + tot) && n == (off + tot) / BLOCK_SIZE
    requires BlocksFor(e0.num_bytes) <= n
    ensures OldData(e0, st0.blocks, off, tot + m) == OldData(e0, st0.blocks, off, tot)
  {
    hide Indices, BlocksFor, MapAt;
    NextIndex(off, tot, m);
  }

  lemma TouchAlgebra(a: set<nat>, t: set<nat>, m: set<nat>, x: nat, e0: nat, e: nat, before: bool)
    requires x in m && (e0 != 0 ==> e == e0) && (e0 == 0 && e != 0 ==> e in t)
    ensures a + (t + m) + (if e0 != 0 then {e0} else {})
         == a + t + (if e0 != 0 && before then {e0} else {}) + (m + (if e != 0 then {e} else {})) + {x}
  {
  }

  lemma NewTouched(e: Entry, st: Store, e1: Entry, st1: Store, i: nat, more: set<nat>)
    requires Mapped(e, st, e1, st1, i) && MapAt(e, st.blocks, i) == 0 && st1.used == st.used + more
    ensures Formed(e1, st1.blocks) && MapAt(e1, st1.blocks, i) in more
    ensures e1.indirect == e.indirect || (e.indirect == 0 && e1.indirect in more)
  {
    var x := MapAt(e1, st1.blocks, i);
    assert x in st1.used && e1.indirect in st1.used;
  }

  // Storing into a block leaves the map alone.
  lemma TrackedPoked(e0: Entry, st0: Store, off: nat, e: Entry, st: Store, n: nat, tot: nat, i: nat, pos: nat,
                     data: seq<Byte>)
    requires Tracked(e0, st0, off, e, st, n, tot) && StoreOk(st) && Sound(e, st)
    requires i < MAX_BLOCKS && MapAt(e, st.blocks, i) != 0 && pos + |data| <= BLOCK_SIZE
    ensures MapAt(e, st.blocks, i) < |st.blocks| && Tracked(e0, st0, off, e, Poked(e, st, i, pos, data), n, tot)
  {
    hide StoreOk, Sound, MapAt, BlocksFor, Growth, NewSet;
    PokedMap(e, st, i, pos, data);
  }

  // One chunk: what it syncs, and what is tracked after it.
  lemma TrackedStep(y: Layout, e0: Entry, st0: Store, off: nat, e: Entry, st: Store, n: nat, tot: nat, m: nat, i: nat,
                    e1: Entry, st1: Store)
    requires Tracked(e0, st0, off, e, st, n, tot) && StoreOk(st0) && Dense(e0, st0.blocks, BlocksFor(e0.num_bytes))
    requires Dense(e, st.blocks, n)
    requires n == BlocksFor(Max(e0.num_bytes, off + tot)) && 0 < m <= Room(off + tot) && i == (off + tot) / BLOCK_SIZE
    requires i < MAX_BLOCKS
    requires Mapped(e, st, e1, st1, i) && st1.used == st.used + NewSet(st.used, Cost(e, st.blocks, i))
    ensures Formed(e1, st1.blocks)
    ensures DataTouch(y, e0, st0, off, tot + m)
            == DataTouch(y, e0, st0, off, tot) + (MapTouch(y, e, st, i) + {MapAt(e1, st1.blocks, i) as nat})
    ensures Tracked(e0, st0, off, e1, st1, BlocksFor(Max(e0.num_bytes, off + (tot + m))), tot + m)
  {
    hide Tracked, Mapped, DataTouch, NewSet, BlocksFor, Growth, Max, Cost, MapTouch;
    assert off + (tot + m) == off + tot + m;
    GrowthStep(e0.num_bytes, off + tot, n, i, m, e, st.blocks);
    if i < n {
      MapNothing(y, e, st, e1, st1, i);
      TouchOld(y, e0, st0, off, e, st, n, tot, m, i);
    } else {
      MoreThanBefore(e0, st0, off, e, st, n, tot);
      TrackNew(e0, st0, off, e, st, n, tot, tot + m, e1, st1);
      TouchNew(y, e0, st0, off, e, st, n, tot, m, e1, st1);
    }
  }

  // A block that is there costs nothing.
  lemma MapNothing(y: Layout, e: Entry, st: Store, e1: Entry, st1: Store, i: nat)
    requires Formed(e, st.blocks) && i < MAX_BLOCKS && Mapped(e, st, e1, st1, i) && MapAt(e, st.blocks, i) != 0
    ensures e1 == e && st1 == st && MapTouch(y, e, st, i) == {}
  {
    hide MapAt;
    assert NewSet(st.used, 0) == {};
  }

  lemma MoreThanBefore(e0: Entry, st0: Store, off: nat, e: Entry, st: Store, n: nat, tot: nat)
    requires Tracked(e0, st0, off, e, st, n, tot) && Dense(e0, st0.blocks, BlocksFor(e0.num_bytes))
    ensures e0.indirect != 0 ==> n > NUM_DIRECT
  {
    hide MapAt, Growth, NewSet;
  }

  // Marked blocks change only where the loop syncs.
  ghost predicate Touching(y: Layout, e0: Entry, st0: Store, off: nat, st: Store, tot: nat) {
    && Formed(e0, st0.blocks) && |st.blocks| == |st0.blocks|
    && forall b :: b in st0.used && b < |st0.blocks| && b !in DataTouch(y, e0, st0, off, tot) ==>
         st.blocks[b] == st0.blocks[b]
  }

  lemma TouchingStep(y: Layout, e0: Entry, st0: Store, off: nat, e: Entry, st: Store, tot: nat, e1: Entry, st1: Store,
                     m: nat, i: nat, pos: nat, data: seq<Byte>)
    requires Touching(y, e0, st0, off, st, tot) && st0.used <= st.used && Mapped(e, st, e1, st1, i)
    requires MapAt(e1, st1.blocks, i) < |st1.blocks| && pos + |data| <= BLOCK_SIZE
    requires DataTouch(y, e0, st0, off, tot + m)
             == DataTouch(y, e0, st0, off, tot) + (MapTouch(y, e, st, i) + {MapAt(e1, st1.blocks, i) as nat})
    ensures Touching(y, e0, st0, off, Poked(e1, st1, i, pos, data), tot + m)
  {
    hide DataTouch, NewTouch, NewSet, MapAt;
    var st2 := Poked(e1, st1, i, pos, data);
    forall b | b in st0.used && b < |st0.blocks| && b !in DataTouch(y, e0, st0, off, tot + m)
      ensures st2.blocks[b] == st0.blocks[b]
    {
      assert b !in MapTouch(y, e, st, i) && b != MapAt(e1, st1.blocks, i);
    }
  }

  // ---- smaller ranges touch less ----

  lemma IndicesMono(off: nat, a: nat, b: nat)
    requires a <= b
    ensures Indices(off, a) <= Indices(off, b)
  {
    assert BlocksFor(off + a) <= BlocksFor(off + b);
    hide BlocksFor;
  }

  lemma NewTouchMono(y: Layout, s: set<nat>, t: set<nat>)
    requires s <= t
    ensures NewTouch(y, s) <= NewTouch(y, t)
  {
  }

  lemma DataMono(y: Layout, e: Entry, st: Store, off: nat, a: nat, b: nat)
    requires Formed(e, st.blocks) && a <= b
    ensures DataTouch(y, e, st, off, a) <= DataTouch(y, e, st, off, b)
  {
    hide Indices, NewTouch, NewSet, Growth, MapAt, BlocksFor;
    IndicesMono(off, a, b);
    GrowthMono(e.num_bytes, off + a, off + b);
    var g, h := Growth(e.num_bytes, off + a), Growth(e.num_bytes, off + b);
    NewLess(st.used, g, h);
    NewTouchMono(y, NewSet(st.used, g), NewSet(st.used, h));
  }

  // What inode_map syncs in the middle of a write is part of what the write syncs.
  lemma MapWithin(y: Layout, e0: Entry, st0: Store, off: nat, e: Entry, st: Store, n: nat, tot: nat, at: nat, i: nat)
    requires Tracked(e0, st0, off, e, st, n, tot) && i < MAX_BLOCKS
    requires Growth(e0.num_bytes, off + at) == Growth(e0.num_bytes, off + tot) + Cost(e, st.blocks, i)
    ensures MapTouch(y, e, st, i) <= DataTouch(y, e0, st0, off, at)
  {
    hide NewSet, Growth, MapAt, BlocksFor, OldData, NewTouch;
    var g, c := Growth(e0.num_bytes, off + tot), Cost(e, st.blocks, i);
    var taken, more := NewSet(st0.used, g), NewSet(st.used, c);
    NewSplit(st0.used, g, c);
    NewTouchMono(y, more, taken + more);
    NewTouchMono(y, taken, taken + more);
    if e.indirect in taken {
      NewIn(y, taken, e.indirect);
    }
  }

  // ---- the parts of inode_map ----

  // One allocation, charged: possible exactly if a block is free and the quota suffices.
  ghost predicate Possible(y: Layout, l: Ledger, ctx: nat, st: Store, k: nat, touch: set<nat>)
    requires CtxOk(l, ctx)
  {
    |st.used| + k <= |st.blocks| && Affords(l, ctx, touch)
  }

  lemma TouchDirect(y: Layout, e: Entry, st: Store, i: nat)
    requires Formed(e, st.blocks) && i < NUM_DIRECT && e.addrs[i] == 0
    ensures Cost(e, st.blocks, i) == 1 && NewSet(st.used, 1) == {Lowest(st.used)}
    ensures MapTouch(y, e, st, i) == NewTouch(y, {Lowest(st.used)})
  {
    NewOne(st.used);
  }

  lemma TouchSlot(y: Layout, e: Entry, st: Store, i: nat)
    requires Formed(e, st.blocks) && NUM_DIRECT <= i < MAX_BLOCKS && e.indirect != 0 && MapAt(e, st.blocks, i) == 0
    ensures Cost(e, st.blocks, i) == 1 && NewSet(st.used, 1) == {Lowest(st.used)}
    ensures MapTouch(y, e, st, i) == NewTouch(y, {Lowest(st.used)}) + {e.indirect as nat}
  {
    NewOne(st.used);
  }

  // A new indirect block c, then a slot of it.
  lemma TouchBoth(y: Layout, e: Entry, st: Store, i: nat, e1: Entry, st1: Store)
    requires Formed(e, st.blocks) && NUM_DIRECT <= i < MAX_BLOCKS && e.indirect == 0
    requires e1 == e.(indirect := e1.indirect) && e1.indirect == Lowest(st.used) && e1.indirect != 0
    requires st1.used == st.used + {e1.indirect as nat}
    requires Formed(e1, st1.blocks) && MapAt(e1, st1.blocks, i) == 0
    ensures Cost(e, st.blocks, i) == 2 && Cost(e1, st1.blocks, i) == 1
    ensures NewSet(st.used, 2) == {e1.indirect as nat} + NewSet(st1.used, 1)
    ensures MapTouch(y, e, st, i) == NewTouch(y, {e1.indirect as nat}) + MapTouch(y, e1, st1, i)
  {
    var c: nat := e1.indirect;
    assert NewSet(st.used, 2) == {c} + NewSet(st1.used, 1);
    hide NewSet, Lowest, MapAt;
    NewTouchBoth(y, {c}, NewSet(st1.used, 1));
    NewIn(y, {c}, c);
  }
}
