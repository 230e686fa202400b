/** The swap area (src/fs/cache.c): extents of eight blocks, found by a search for eight free ones in a row. */
module Swap {
  import opened Basics
  import opened Counting

  const SWAP_START: nat := 800
  const SWAP_END: nat := 1000
  const SLOTS: nat := 200
  const EXTENTS: nat := 25

  datatype Found = Found(bno: nat) | Panic

  // The marks are those of whole extents, at offsets divisible by eight.
  ghost predicate Extents(valid: seq<bool>, held: set<nat>) {
    && |valid| == SLOTS && (forall k :: k in held ==> k < EXTENTS)
    && forall i :: 0 <= i < SLOTS ==> (valid[i] <==> i / 8 in held)
  }

  // Where the search stands: the slots from left to right are free, whole extents before left are held, and left
  // is inside an extent only while that one is held.
  ghost predicate Searching(valid: seq<bool>, held: set<nat>, left: nat, right: nat) {
    && left <= right <= SLOTS && right - left < 8
    && (forall k :: 0 <= k < left / 8 ==> k in held)
    && (forall i :: left <= i < right && i < |valid| ==> !valid[i])
    && (left % 8 != 0 ==> left == right && left / 8 in held)
  }

  // A free slot never ends in the middle of an extent that began free.
  lemma FreeSlot(valid: seq<bool>, held: set<nat>, left: nat, right: nat)
    requires Extents(valid, held) && Searching(valid, held, left, right) && right < SLOTS && !valid[right]
    ensures left % 8 == 0 && left <= right && right / 8 == left / 8 && left / 8 !in held
    ensures forall k :: 0 <= k < left / 8 ==> k in held
    ensures right + 1 - left == 8 || Searching(valid, held, left, right + 1)
    ensures right + 1 - left == 8 ==> left + 8 <= SLOTS
  {
    if left < right {
      assert !valid[left];
    }
  }

  lemma SameExtent(valid: seq<bool>, held: set<nat>, i: nat, j: nat)
    requires Extents(valid, held) && i < SLOTS && j < SLOTS && i / 8 == j / 8
    ensures valid[i] == valid[j]
  {
  }

  // A whole extent gets marks.
  lemma ExtentTaken(valid: seq<bool>, valid': seq<bool>, held: set<nat>, left: nat)
    requires Extents(valid, held) && left % 8 == 0 && left + 8 <= SLOTS && |valid'| == |valid|
    requires forall i :: 0 <= i < |valid| ==> valid'[i] == if left <= i < left + 8 then true else valid[i]
    ensures Extents(valid', held + {left / 8}) && left / 8 < EXTENTS && SWAP_START + left == SWAP_START + 8 * (left / 8)
  {
    forall i | 0 <= i < SLOTS ensures left <= i < left + 8 <==> i / 8 == left / 8 {
    }
  }

  lemma HeldSlot(valid: seq<bool>, held: set<nat>, left: nat, right: nat)
    requires Extents(valid, held) && Searching(valid, held, left, right) && right < SLOTS && valid[right]
    ensures left == right && Searching(valid, held, right + 1, right + 1)
  {
    SameExtent(valid, held, left, right);
    if (right + 1) % 8 == 0 {
      assert (right + 1) / 8 == right / 8 + 1;
    } else {
      assert (right + 1) / 8 == right / 8;
    }
  }

  lemma NothingLeft(valid: seq<bool>, held: set<nat>, left: nat)
    requires Extents(valid, held) && Searching(valid, held, left, SLOTS)
    ensures held == Range(EXTENTS)
  {
    assert left == SLOTS;
    assert forall k :: 0 <= k < EXTENTS ==> k in held;
  }

  lemma StartSearch(valid: seq<bool>, held: set<nat>)
    requires Extents(valid, held)
    ensures |valid| == SLOTS && Searching(valid, held, 0, 0)
  {
  }

  lemma SlotsOf(valid: seq<bool>, held: set<nat>)
    requires Extents(valid, held)
    ensures |valid| == SLOTS
  {
  }

  lemma Eighth(left: nat)
    requires left % 8 == 0 && left + 8 <= SLOTS
    ensures 8 * (left / 8) == left && left / 8 < EXTENTS && (SWAP_START + left - SWAP_START) / 8 == left / 8
  {
  }

  // The lowest extent that is not held exists exactly if not all are.
  lemma NotAll(held: set<nat>, k: nat)
    requires k < EXTENTS && k !in held
    ensures held != Range(EXTENTS)
  {
  }

  class SwapArea {
    const valid: array<bool>
    ghost var held: set<nat>

    ghost predicate Valid()
      reads this, valid
    {
      Extents(valid[..], held)
    }

    constructor ()
      ensures Valid() && held == {} && fresh(valid)
    {
      valid := new bool[SLOTS](_ => false);
      held := {};
    }

    // find_and_set_8_blocks: the lowest extent that is not held; PANIC exactly if all 25 are.
    method FindAndSet() returns (r: Found)
      requires Valid()
      modifies this, valid
      ensures Valid()
      ensures r.Panic? <==> old(held) == Range(EXTENTS)
      ensures r.Panic? ==> held == old(held)
      ensures r.Found? ==>
                var k := (r.bno - SWAP_START) / 8;
                && r.bno == SWAP_START + 8 * k && k < EXTENTS && k !in old(held) && held == old(held) + {k}
                && forall j :: 0 <= j < k ==> j in old(held)
    {
      hide Extents, Range;
      var has_eight, left := Search();
      if has_eight {
        Eighth(left);
        NotAll(held, left / 8);
        MarkExtent(left);
        return Found(SWAP_START + left);
      }
      return Panic;
    }

    // The eight slots from left on are marked.
    method MarkExtent(left: nat)
      requires Valid() && left % 8 == 0 && left + 8 <= SLOTS
      modifies this, valid
      ensures Valid() && held == old(held) + {left / 8}
    {
      hide Extents;
      SlotsOf(valid[..], held);
      ghost var was := valid[..];
      MarkAll(left, left + 8, true);
      ExtentTaken(was, valid[..], held, left);
      held := held + {left / 8};
    }

    // The search: eight free slots in a row are the lowest extent that is not held.
    method Search() returns (has_eight: bool, left: nat)
      requires Valid()
      ensures has_eight ==> left + 8 <= SLOTS && left % 8 == 0 && left / 8 !in held && forall j :: 0 <= j < left / 8 ==>
                j in held
      ensures !has_eight ==> held == Range(EXTENTS)
    {
      hide Searching, Extents;
      StartSearch(valid[..], held);
      var right := 0;
      left, has_eight := 0, false;
      while right < SWAP_END - SWAP_START
        invariant valid.Length == SLOTS && right <= SLOTS && Searching(valid[..], held, left, right) && !has_eight
      {
        if !valid[right] {
          FreeSlot(valid[..], held, left, right);
          right := right + 1;
          if right - left == 8 {
            has_eight := true;
            break;
          }
        } else {
          HeldSlot(valid[..], held, left, right);
          left := right + 1;
          right := right + 1;
        }
      }
      if !has_eight {
        NothingLeft(valid[..], held, left);
      }
    }

    // The slots from left to right set to v.
    method MarkAll(left: nat, right: nat, v: bool)
      requires left <= right <= valid.Length
      modifies valid
      ensures forall i :: 0 <= i < valid.Length ==> valid[i] == if left <= i < right then v else old(valid[i])
    {
      var i := left;
      while i < right
        invariant left <= i <= right
        invariant forall j :: 0 <= j < valid.Length ==> valid[j] == if left <= j < i then v else old(valid[j])
      {
        valid[i] := v;
        i := i + 1;
      }
    }

    // release_8_blocks: the eight slots from the block number on, as far as there are any; a number below the swap
    // area clears nothing. An extent's number frees that extent; any other number leaves whole extents exactly if
    // neither extent that it reaches into was held.
    method Release(bno: U32)
      requires Valid()
      modifies this, valid
      ensures forall i :: 0 <= i < SLOTS ==>
                valid[i] == if SWAP_START <= bno <= SWAP_START + i < bno + 8 then false else old(valid[i])
      ensures held == if IsExtent(bno) then old(held) - {ExtentOf(bno)} else old(held)
      ensures Valid() <==> IsExtent(bno) || bno < SWAP_START || bno >= SWAP_END
                           || (ExtentOf(bno) !in old(held) && ExtentOf(bno) + 1 !in old(held))
    {
      var i := Offset(bno);
      OffsetIs(bno);
      var end := (i + 8) % U32_MAX;
      while i < end && i < SWAP_END - SWAP_START
        invariant Offset(bno) <= i && held == old(held) && valid.Length == SLOTS && (Offset(bno) < SLOTS ==> i <= end)
        invariant forall j :: 0 <= j < SLOTS ==> valid[j] == if Offset(bno) <= j < i then false else old(valid[j])
        decreases SLOTS - i
      {
        valid[i] := false;
        i := i + 1;
      }
      FreedExtents(old(valid[..]), valid[..], held, Offset(bno));
      if IsExtent(bno) {
        held := held - {ExtentOf(bno)};
      }
    }

    // What a search took is free again after its release, and nothing else has changed.
    method SwapOutAndIn() returns (r: Found)
      requires Valid()
      modifies this, valid
      ensures Valid() && held == old(held)
      ensures forall i :: 0 <= i < SLOTS ==> valid[i] == old(valid[i])
    {
      hide Extents, Range;
      ghost var was := valid[..];
      r := FindAndSet();
      if r.Found? {
        Release(r.bno);
        assert held == old(held);
      }
      SameMarks(was, valid[..], held);
      forall i | 0 <= i < SLOTS ensures valid[i] == was[i] {
        assert valid[..][i] == was[i];
      }
    }
  }

  // The number of an extent's first block, and the extent in which a block lies.
  predicate IsExtent(bno: U32) { SWAP_START <= bno && (bno - SWAP_START) % 8 == 0 }

  function ExtentOf(bno: U32): int { (bno - SWAP_START) / 8 }

  lemma SameMarks(valid: seq<bool>, valid': seq<bool>, held: set<nat>)
    requires Extents(valid, held) && Extents(valid', held)
    ensures |valid| == |valid'| == SLOTS && forall i :: 0 <= i < SLOTS ==> valid'[i] == valid[i]
  {
  }

  // bno - SWAP_START on unsigned 32-bit words.
  function Offset(bno: U32): nat { (bno - SWAP_START) % U32_MAX }

  lemma OffsetIs(bno: U32)
    ensures bno < SWAP_START ==> SLOTS <= Offset(bno)
    ensures SWAP_START <= bno ==> Offset(bno) == bno - SWAP_START
  {
  }

  // The eight slots from off on are free, and the others as they were.
  ghost predicate Freed(valid: seq<bool>, valid': seq<bool>, off: nat) {
    |valid'| == |valid| && forall i :: 0 <= i < |valid| ==> valid'[i] == if off <= i < off + 8 then false else valid[i]
  }

  lemma FreedExtents(valid: seq<bool>, valid': seq<bool>, held: set<nat>, off: nat)
    requires Extents(valid, held) && Freed(valid, valid', off)
    ensures off % 8 == 0 ==> Extents(valid', held - {off / 8})
    ensures off % 8 != 0 ==> (Extents(valid', held) <==> off >= SLOTS || (off / 8 !in held && off / 8 + 1 !in held))
  {
    if off % 8 == 0 {
      forall i | 0 <= i < SLOTS ensures off <= i < off + 8 <==> i / 8 == off / 8 {
      }
    } else {
      FreedAcross(valid, valid', held, off);
    }
  }

  lemma FreedAcross(valid: seq<bool>, valid': seq<bool>, held: set<nat>, off: nat)
    requires Extents(valid, held) && Freed(valid, valid', off) && off % 8 != 0
    ensures Extents(valid', held) <==> off >= SLOTS || (off / 8 !in held && off / 8 + 1 !in held)
  {
    var k := off / 8;
    forall i | 0 <= i < SLOTS && off <= i < off + 8 ensures i / 8 == k || i / 8 == k + 1 {
    }
    if off < SLOTS && k in held {
      assert !valid'[off];
    }
    if off < SLOTS && k + 1 in held {
      assert (8 * k + 8) / 8 == k + 1;
      assert !valid'[8 * k + 8];
    }
  }
}
