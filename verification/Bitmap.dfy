/** The bitmap of used blocks (src/fs/cache.c): allocation and release of blocks, bit by bit. */
module Bitmap {
  import opened Basics
  import opened LogSpec
  import opened BlockMap
  import opened FreeBlocks
  import opened Quota
  import opened FileQuota
  import opened Inode

  type MapBlock = s: seq<bv8> | |s| == BLOCK_SIZE witness seq(BLOCK_SIZE, _ => 0)
  type Bitmap = seq<MapBlock>

  function Mask(k: nat): bv8
    requires k < 8
  {
    (1 as bv8) << k
  }

  function Test(x: bv8, k: nat): bool
    requires k < 8
  {
    x & Mask(k) != 0
  }

  lemma TestSet(x: bv8, k: nat, j: nat)
    requires k < 8 && j < 8
    ensures Test(x | Mask(k), j) <==> j == k || Test(x, j)
  {
    Masks();
  }

  lemma TestClear(x: bv8, k: nat, j: nat)
    requires k < 8 && j < 8
    ensures Test(x & !Mask(k), j) <==> j != k && Test(x, j)
  {
    Masks();
  }

  lemma Masks()
    ensures Mask(0) == 1 && Mask(1) == 2 && Mask(2) == 4 && Mask(3) == 8 && Mask(4) == 16 && Mask(5) == 32
    ensures Mask(6) == 64 && Mask(7) == 128
  {
  }

  // Where the bit of block b is: BBLOCK, the byte in that block, and the bit in that byte.
  function MapOf(b: nat): nat { b / BIT_PER_BLOCK }

  function SlotOf(b: nat): (r: nat)
    ensures r < BLOCK_SIZE
  {
    b % BIT_PER_BLOCK / 8
  }

  function PosOf(b: nat): (r: nat)
    ensures r < 8
  {
    b % BIT_PER_BLOCK % 8
  }

  // Blocks with the same map block, byte and bit are the same.
  lemma SamePlace(b: nat, c: nat)
    ensures b == c <==> MapOf(b) == MapOf(c) && SlotOf(b) == SlotOf(c) && PosOf(b) == PosOf(c)
  {
  }

  function ByteOf(m: Bitmap, b: nat): bv8
    requires MapOf(b) < |m|
  {
    m[MapOf(b)][SlotOf(b)]
  }

  predicate BitOf(m: Bitmap, b: nat) { MapOf(b) < |m| && Test(ByteOf(m, b), PosOf(b)) }

  // The bit of block b: in the map block b / 4096, there in the byte b / 8 modulo 512, and there at b modulo 8, from
  // the lowest bit on.
  lemma BitPlace(m: Bitmap, b: nat)
    ensures BitOf(m, b) <==> b / 4096 < |m| && (m[b / 4096][b / 8 % 512] >> (b % 8)) & 1 == 1
  {
    hide Test, SlotOf, PosOf;
    PlaceOf(b);
    if b / 4096 < |m| {
      TestShift(m[b / 4096][b / 8 % 512], b % 8);
    }
  }

  lemma PlaceOf(b: nat)
    ensures MapOf(b) == b / 4096 && SlotOf(b) == b / 8 % 512 && PosOf(b) == b % 8
  {
  }

  lemma TestShift(x: bv8, k: nat)
    requires k < 8
    ensures Test(x, k) <==> (x >> k) & 1 == 1
  {
    Masks();
  }

  // The map with the byte of b replaced.
  function WithByte(m: Bitmap, b: nat, x: bv8): (r: Bitmap)
    requires MapOf(b) < |m|
  {
    m[MapOf(b) := m[MapOf(b)][SlotOf(b) := x]]
  }

  // The byte of b with its bit set, or cleared.
  function ByteSet(m: Bitmap, b: nat): bv8
    requires MapOf(b) < |m|
  {
    ByteOf(m, b) | Mask(PosOf(b))
  }

  function ByteClear(m: Bitmap, b: nat): bv8
    requires MapOf(b) < |m|
  {
    ByteOf(m, b) & !Mask(PosOf(b))
  }

  lemma SetBit(m: Bitmap, b: nat, c: nat)
    requires MapOf(b) < |m|
    ensures BitOf(WithByte(m, b, ByteSet(m, b)), c) <==> c == b || BitOf(m, c)
  {
    hide Test, Mask, MapOf, SlotOf, PosOf;
    SamePlace(b, c);
    TestSet(ByteOf(m, b), PosOf(b), PosOf(c));
  }

  lemma ClearBit(m: Bitmap, b: nat, c: nat)
    requires MapOf(b) < |m|
    ensures BitOf(WithByte(m, b, ByteClear(m, b)), c) <==> c != b && BitOf(m, c)
  {
    hide Test, Mask, MapOf, SlotOf, PosOf;
    SamePlace(b, c);
    TestClear(ByteOf(m, b), PosOf(b), PosOf(c));
  }

  // The blocks that the bitmap marks.
  ghost function Marked(m: Bitmap, n: nat): set<nat> {
    set b: nat | b < n && BitOf(m, b)
  }

  /** The device: its bitmap blocks, its blocks, and what the log is charged. */
  class Device {
    const lay: Layout
    var bitmap: Bitmap
    var blocks: seq<Block>
    var ledger: Ledger

    // There are bits for all blocks.
    ghost predicate Valid()
      reads this
    {
      |blocks| <= |bitmap| * BIT_PER_BLOCK && |blocks| < U32_MAX && BitOf(bitmap, 0) && |blocks| > 0
    }

    // The store that the files are built on.
    ghost function Abstract(): Store
      reads this
    {
      Store(blocks, Marked(bitmap, |blocks|))
    }

    constructor (lay: Layout, bitmap: Bitmap, blocks: seq<Block>, ledger: Ledger)
      requires 0 < |blocks| <= |bitmap| * BIT_PER_BLOCK && |blocks| < U32_MAX && BitOf(bitmap, 0)
      ensures Valid() && Abstract() == Store(blocks, Marked(bitmap, |blocks|)) && this.ledger == ledger
    {
      this.lay, this.bitmap, this.blocks, this.ledger := lay, bitmap, blocks, ledger;
    }

    // cache_alloc: what FileSystem.Alloc promises of the store, bit by bit. If the counter of blocks, which has 32
    // bits, wraps around, the scan goes on forever.
    method Alloc(ctx: nat) returns (r: Outcome<nat>, forever: bool)
      requires Valid() && CtxOk(ledger, ctx)
      modifies this
      ensures r.Done?
              <==> Possible(lay, old(ledger), ctx, old(Abstract()), 1, NewTouch(lay, {Lowest(old(Abstract()).used)}))
      ensures r.Done? ==> Valid() && r.value == Lowest(old(Abstract()).used) && r.value < |old(blocks)|
      ensures r.Done? ==> Abstract() == Taken(old(Abstract()), r.value)
      ensures r.Done? ==> ledger == Charged(old(ledger), ctx, NewTouch(lay, {r.value}))
      ensures forever <==> (forall b :: 0 <= b < |old(blocks)| ==> BitOf(old(bitmap), b))
                           && |old(blocks)| > U32_MAX - BIT_PER_BLOCK
      ensures forever ==> r.Panic?
    {
      hide Test, Mask, MapOf, SlotOf, PosOf, NewTouch, Affords, Charged, IsLowest;
      AbstractOk(blocks, bitmap);
      FullCount(Abstract());
      var b := 0;
      while b < |blocks|
        invariant bitmap == old(bitmap) && blocks == old(blocks) && ledger == old(ledger)
        invariant b % BIT_PER_BLOCK == 0 && b <= U32_MAX - BIT_PER_BLOCK
        invariant forall c :: 0 <= c < b && c < |blocks| ==> BitOf(bitmap, c)
      {
        var bi := 0;
        while bi < BIT_PER_BLOCK && b + bi < |blocks|
          invariant 0 <= bi <= BIT_PER_BLOCK && bitmap == old(bitmap) && blocks == old(blocks) && ledger == old(ledger)
          invariant forall c :: 0 <= c < b + bi && c < |blocks| ==> BitOf(bitmap, c)
        {
          Place(b + bi, |bitmap|, |blocks|);
          if !Test(ByteOf(bitmap, b + bi), PosOf(b + bi)) {
            r := AllocAt(ctx, b + bi);
            return r, false;
          }
          bi := bi + 1;
        }
        if b + BIT_PER_BLOCK >= U32_MAX {
          return Panic, true;
        }
        b := b + BIT_PER_BLOCK;
      }
      return Panic, false;
    }

    // The bit is set and synced, then the block cleared and synced.
    method AllocAt(ctx: nat, b: nat) returns (r: Outcome<nat>)
      requires Valid() && CtxOk(ledger, ctx) && b < |blocks| && MapOf(b) < |bitmap| && !BitOf(bitmap, b)
      requires forall c :: 0 <= c < b ==> BitOf(bitmap, c)
      modifies this
      ensures r.Done? <==> Affords(old(ledger), ctx, NewTouch(lay, {b})) && Lowest(old(Abstract()).used) == b
      ensures r.Done? ==> r.value == b && Valid() && Abstract() == Taken(old(Abstract()), b)
      ensures r.Done? ==> ledger == Charged(old(ledger), ctx, NewTouch(lay, {b}))
      ensures Lowest(old(Abstract()).used) == b
    {
      hide Test, Mask, MapOf, SlotOf, PosOf, NewTouch, Affords, Charged, ByteOf, ByteSet;
      LowestIs(Marked(bitmap, |blocks|), b);
      hide IsLowest;
      TouchOne(lay, ledger, ctx, b);
      TakeBit(bitmap, |blocks|, b);
      SetBit(bitmap, b, 0);
      bitmap := WithByte(bitmap, b, ByteSet(bitmap, b));
      hide BitOf, WithByte;
      var ok;
      ok, ledger := SyncBlock(ledger, ctx, BitBlock(lay, b));
      if !ok {
        return Panic;
      }
      blocks := blocks[b := Zero()];
      ok, ledger := SyncBlock(ledger, ctx, b);
      return if ok then Done(b) else Panic;
    }

    // cache_free: PANIC exactly if the bit is clear, or the quota does not suffice for its block.
    method Free(ctx: nat, b: nat) returns (ok: bool)
      requires Valid() && CtxOk(ledger, ctx) && MapOf(b) < |bitmap|
      modifies this
      ensures ok <==> BitOf(old(bitmap), b) && Affords(old(ledger), ctx, {BitBlock(lay, b)})
      ensures ok ==> (b != 0 ==> Valid()) && blocks == old(blocks) && Abstract().used == old(Abstract()).used - {b}
      ensures ok ==> OnlyCleared(old(bitmap), bitmap, b)
      ensures ok ==> ledger == Charged(old(ledger), ctx, {BitBlock(lay, b)})
    {
      hide Test, Mask, MapOf, SlotOf, PosOf, Affords, Charged, BitOf, WithByte, Marked, OnlyCleared, ByteOf, ByteClear;
      BitIs(bitmap, b);
      if !Test(ByteOf(bitmap, b), PosOf(b)) {
        return false;
      }
      DropBit(bitmap, |blocks|, b);
      SameLength(bitmap, b, ByteClear(bitmap, b));
      bitmap := WithByte(bitmap, b, ByteClear(bitmap, b));
      ok, ledger := SyncBlock(ledger, ctx, BitBlock(lay, b));
    }
  }

  lemma AbstractOk(blocks: seq<Block>, m: Bitmap)
    requires |blocks| < U32_MAX && BitOf(m, 0) && |blocks| > 0
    ensures StoreOk(Store(blocks, Marked(m, |blocks|)))
  {
  }

  lemma BitIs(m: Bitmap, b: nat)
    requires MapOf(b) < |m|
    ensures BitOf(m, b) <==> Test(ByteOf(m, b), PosOf(b))
  {
  }

  lemma SameLength(m: Bitmap, b: nat, x: bv8)
    requires MapOf(b) < |m|
    ensures |WithByte(m, b, x)| == |m|
  {
  }

  lemma Place(b: nat, maps: nat, n: nat)
    requires b < n <= maps * BIT_PER_BLOCK
    ensures MapOf(b) < maps
  {
  }

  lemma TakeBit(m: Bitmap, n: nat, b: nat)
    requires MapOf(b) < |m| && b < n
    ensures Marked(WithByte(m, b, ByteSet(m, b)), n) == Marked(m, n) + {b}
  {
    hide BitOf, WithByte, Mask, ByteOf;
    forall c: nat | c < n ensures BitOf(WithByte(m, b, ByteSet(m, b)), c) <==> c == b || BitOf(m, c) {
      SetBit(m, b, c);
    }
  }

  // The bit of b is clear now, and no other bit has changed.
  ghost predicate OnlyCleared(m: Bitmap, m': Bitmap, b: nat) {
    forall c: nat :: BitOf(m', c) <==> c != b && BitOf(m, c)
  }

  lemma DropBit(m: Bitmap, n: nat, b: nat)
    requires MapOf(b) < |m|
    ensures Marked(WithByte(m, b, ByteClear(m, b)), n) == Marked(m, n) - {b}
    ensures OnlyCleared(m, WithByte(m, b, ByteClear(m, b)), b)
    ensures b != 0 && BitOf(m, 0) ==> BitOf(WithByte(m, b, ByteClear(m, b)), 0)
  {
    hide BitOf, WithByte, Mask, ByteOf;
    forall c: nat ensures BitOf(WithByte(m, b, ByteClear(m, b)), c) <==> c != b && BitOf(m, c) {
      ClearBit(m, b, c);
    }
  }
}
