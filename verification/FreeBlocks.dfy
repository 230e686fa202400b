/** The blocks that allocations take: the lowest free ones, in order. */
module FreeBlocks {
  import opened Counting

  // The number b is free, and every lower one is used.
  ghost predicate IsLowest(used: set<nat>, b: nat) {
    b !in used && forall c :: 0 <= c < b ==> c in used
  }

  lemma {:induction false} LowestExists(used: set<nat>, b: nat)
    requires forall c :: 0 <= c < b ==> c in used
    ensures exists r :: IsLowest(used, r)
    decreases |used| - b
  {
    if b in used {
      BelowUsed(used, b + 1);
      LowestExists(used, b + 1);
    } else {
      assert IsLowest(used, b);
    }
  }

  lemma BelowUsed(used: set<nat>, b: nat)
    requires forall c :: 0 <= c < b ==> c in used
    ensures b <= |used|
  {
    Larger(Range(b), used);
  }

  ghost function Lowest(used: set<nat>): (r: nat)
    ensures IsLowest(used, r)
  {
    LowestExists(used, 0);
    var r :| IsLowest(used, r);
    r
  }

  lemma LowestIs(used: set<nat>, b: nat)
    requires IsLowest(used, b)
    ensures Lowest(used) == b
  {
    assert IsLowest(used, Lowest(used));
  }

  // The k lowest free numbers.
  ghost function NewSet(used: set<nat>, k: nat): (r: set<nat>)
    decreases k
  {
    if k == 0 then {} else {Lowest(used)} + NewSet(used + {Lowest(used)}, k - 1)
  }

  lemma {:induction false} NewFree(used: set<nat>, k: nat)
    ensures NewSet(used, k) !! used && |NewSet(used, k)| == k
    decreases k
  {
    if k > 0 {
      NewFree(used + {Lowest(used)}, k - 1);
    }
  }

  lemma NewOne(used: set<nat>)
    ensures NewSet(used, 0) == {} && NewSet(used, 1) == {Lowest(used)}
  {
    assert NewSet(used + {Lowest(used)}, 0) == {};
  }

  // Taking j, and then k more, takes the j + k lowest.
  lemma {:induction false} NewSplit(used: set<nat>, j: nat, k: nat)
    ensures NewSet(used, j + k) == NewSet(used, j) + NewSet(used + NewSet(used, j), k)
    decreases j
  {
    if j == 0 {
      assert used + {} == used;
    } else {
      var b := Lowest(used);
      NewSplit(used + {b}, j - 1, k);
      assert used + {b} + NewSet(used + {b}, j - 1) == used + NewSet(used, j);
    }
  }

  lemma NewLess(used: set<nat>, j: nat, k: nat)
    requires j <= k
    ensures NewSet(used, j) <= NewSet(used, k)
  {
    NewSplit(used, j, k - j);
  }

  // They are all below what is marked and taken together.
  lemma {:induction false} NewBound(used: set<nat>, k: nat)
    ensures forall c :: c in NewSet(used, k) ==> c < |used| + k
    decreases k
  {
    if k > 0 {
      var b := Lowest(used);
      BelowUsed(used, b);
      NewBound(used + {b}, k - 1);
    }
  }
}
