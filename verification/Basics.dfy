/** What the other modules share: addresses, 64-bit words, and lists without repetition. */
module Basics {
  // An address.
  type Ptr = int
  const NULL: Ptr := 0

  const WORD: nat := 0x1_0000_0000_0000_0000
  type U64 = x: int | 0 <= x < 0x1_0000_0000_0000_0000

  const U32_MAX: nat := 0x1_0000_0000
  type U32 = x: int | 0 <= x < 0x1_0000_0000

  ghost predicate Distinct(q: seq<Ptr>) {
    forall i, j :: 0 <= i < j < |q| ==> q[i] != q[j]
  }

  // The list with x taken out once.
  function Without(q: seq<Ptr>, x: Ptr): (r: seq<Ptr>)
    ensures (forall y :: y in r ==> y in q) && (forall y :: y in q && y != x ==> y in r)
    ensures |r| == if x in q then |q| - 1 else |q|
  {
    if q == [] then [] else if q[0] == x then q[1..] else [q[0]] + Without(q[1..], x)
  }

  lemma {:induction false} WithoutDistinct(q: seq<Ptr>, x: Ptr)
    requires Distinct(q)
    ensures Distinct(Without(q, x)) && x !in Without(q, x)
  {
    if q != [] {
      var t := q[1..];
      assert q == [q[0]] + t && q[0] !in t;
      WithoutDistinct(t, x);
    }
  }

  lemma EmptyOrMember(s: set<Ptr>)
    ensures s == {} || exists a :: a in s
  {
    if forall a :: a !in s {
      assert s == {};
    }
  }
}
