/** Run queues: the wrapping comparison of virtual run times, the sorted queue it orders, and the
    searches that the scheduler and the timers make in the red-black trees. */
module RunQueue {
  import opened Basics
  import opened RbShape
  import RbTree
  import RbErase

  const HALF: nat := 0x8000_0000_0000_0000

  // a - b as a signed 64-bit number.
  function Diff(a: U64, b: U64): int {
    var d := (a - b) % WORD;
    if d < HALF then d else d - WORD
  }

  // __sched_cmp and __timer_cmp: by wrapping difference of the keys, then by address.
  predicate Less(key: map<Ptr, U64>, x: Ptr, y: Ptr)
    requires x in key && y in key
  {
    var d := Diff(key[x], key[y]);
    d < 0 || (d == 0 && x < y)
  }

  ghost predicate StrictTotalOrder(key: map<Ptr, U64>, s: set<Ptr>)
    requires s <= key.Keys
  {
    && (forall x, y :: x in s && y in s && x != y ==> (Less(key, x, y) <==> !Less(key, y, x)))
    && (forall x, y, z :: x in s && y in s && z in s && Less(key, x, y) && Less(key, y, z) ==> Less(key, x, z))
  }

  // How far a key is from the base of a window.
  function Offset(t: U64, base: U64): nat { (t - base) % WORD }

  // All keys lie within a window shorter than half the range, starting at b.
  ghost predicate Window(key: map<Ptr, U64>, s: set<Ptr>, b: U64)
    requires s <= key.Keys
  {
    forall x :: x in s ==> Offset(key[x], b) < HALF
  }

  lemma ModDiff(a: int, b: int, c: int)
    ensures (a - b) % WORD == ((a - c) % WORD - (b - c) % WORD) % WORD
  {
    var qa, qb := (a - c) / WORD, (b - c) / WORD;
    assert a - c == qa * WORD + (a - c) % WORD && b - c == qb * WORD + (b - c) % WORD;
    ModShift((a - c) % WORD - (b - c) % WORD, qa - qb);
  }

  lemma ModShift(x: int, k: int)
    ensures (x + k * WORD) % WORD == x % WORD
  {
    var q := x / WORD;
    assert x + k * WORD == (q + k) * WORD + x % WORD;
  }

  // Inside a window the wrapping difference is the difference of the offsets.
  lemma DiffOffset(a: U64, b: U64, base: U64)
    requires (a - base) % WORD < HALF && (b - base) % WORD < HALF
    ensures Diff(a, b) == (a - base) % WORD - (b - base) % WORD
  {
    ModDiff(a, b, base);
  }

  lemma WindowOrders(key: map<Ptr, U64>, s: set<Ptr>, b: U64)
    requires s <= key.Keys && Window(key, s, b)
    ensures StrictTotalOrder(key, s)
  {
    forall x, y | x in s && y in s
      ensures Less(key, x, y)
              <==> (key[x] - b) % WORD < (key[y] - b) % WORD || ((key[x] - b) % WORD == (key[y] - b) % WORD && x < y)
    {
      DiffOffset(key[x], key[y], b);
    }
  }

  lemma {:induction false} Minimum(key: map<Ptr, U64>, s: set<Ptr>) returns (m: Ptr)
    requires s != {} && s <= key.Keys && StrictTotalOrder(key, s)
    ensures m in s && forall x :: x in s && x != m ==> Less(key, m, x)
    decreases |s|
  {
    EmptyOrMember(s);
    var a :| a in s;
    var t := s - {a};
    if t == {} {
      m := a;
      assert forall x :: x in s && x != a ==> x in t;
    } else {
      var n := Minimum(key, t);
      m := if Less(key, a, n) then a else n;
    }
  }

  lemma DiffNegative(a: U64, b: U64)
    requires Diff(a, b) < 0 && Diff(b, a) >= 0
    ensures (b - a) % WORD < HALF
  {
  }

  // The comparison is a strict total order on a set exactly when the keys of the set fit in a window.
  lemma OrderIffWindow(key: map<Ptr, U64>, s: set<Ptr>)
    requires s <= key.Keys && s != {}
    ensures StrictTotalOrder(key, s) <==> exists b: U64 :: Window(key, s, b)
  {
    if b: U64 :| Window(key, s, b) {
      WindowOrders(key, s, b);
    }
    if StrictTotalOrder(key, s) {
      var m := Minimum(key, s);
      forall x | x in s ensures (key[x] - key[m]) % WORD < HALF {
        if x != m {
          assert Less(key, m, x) && !Less(key, x, m);
          if Diff(key[m], key[x]) < 0 {
            DiffNegative(key[m], key[x]);
          }
        }
      }
      assert Window(key, s, key[m]);
    }
  }

  // Three keys a third of the range apart go round in a circle.
  lemma CircleIsNoOrder()
    ensures var key: map<Ptr, U64> := map[8 := 0, 16 := 0x5555_5555_5555_5555, 24 := 0xAAAA_AAAA_AAAA_AAAA];
            !StrictTotalOrder(key, {8, 16, 24})
  {
    var key: map<Ptr, U64> := map[8 := 0, 16 := 0x5555_5555_5555_5555, 24 := 0xAAAA_AAAA_AAAA_AAAA];
    assert Less(key, 8, 16) && Less(key, 16, 24) && Less(key, 24, 8);
  }

  // ---- the queue as the sequence that its tree holds in order ----

  ghost predicate Keyed(key: map<Ptr, U64>, q: seq<Ptr>) {
    forall x :: x in q ==> x in key
  }

  ghost predicate Sorted(key: map<Ptr, U64>, q: seq<Ptr>) {
    Keyed(key, q) && forall i, j :: 0 <= i < j < |q| ==> Less(key, q[i], q[j])
  }

  // All run times lie in one window, so that the comparison orders them.
  ghost predicate InWindow(key: map<Ptr, U64>) {
    exists b: U64 :: Window(key, key.Keys, b)
  }

  lemma WindowLess(key: map<Ptr, U64>, x: Ptr, y: Ptr)
    requires InWindow(key) && x in key && y in key && x != y
    ensures Less(key, x, y) <==> !Less(key, y, x)
  {
    hide Less;
    var b: U64 :| Window(key, key.Keys, b);
    WindowOrders(key, key.Keys, b);
  }

  // In a window the comparison is that of the distances from its start; of two equal run times the one at the lower
  // address comes first.
  lemma WindowBefore(key: map<Ptr, U64>, x: Ptr, y: Ptr, b: U64)
    requires x in key && y in key && Offset(key[x], b) < HALF && Offset(key[y], b) < HALF
    ensures Less(key, x, y) <==>
              Offset(key[x], b) < Offset(key[y], b) || (Offset(key[x], b) == Offset(key[y], b) && x < y)
  {
    DiffOffset(key[x], key[y], b);
  }

  lemma WindowTrans(key: map<Ptr, U64>, x: Ptr, y: Ptr, z: Ptr)
    requires InWindow(key) && x in key && y in key && z in key && Less(key, x, y) && Less(key, y, z)
    ensures Less(key, x, z)
  {
    hide Less;
    var b: U64 :| Window(key, key.Keys, b);
    WindowOrders(key, key.Keys, b);
  }

  lemma OffsetMore(t: U64, base: U64, delta: nat)
    requires Offset(t, base) + delta < WORD
    ensures Offset((t + delta) % WORD, base) == Offset(t, base) + delta
  {
    var q, r := (t + delta) / WORD, (t - base) / WORD;
    assert (t + delta) % WORD - base == (t - base) % WORD + delta + (r - q) * WORD;
    ModShift((t - base) % WORD + delta, r - q);
  }

  // The queue after an insertion.
  function Insert(key: map<Ptr, U64>, q: seq<Ptr>, x: Ptr): (r: seq<Ptr>)
    requires Keyed(key, q) && x in key
    ensures |r| == |q| + 1 && forall y :: y in r <==> y in q || y == x
  {
    if q == [] then [x]
    else if Less(key, x, q[0]) then [x] + q
    else
      var t := q[1..];
      assert q == [q[0]] + t;
      [q[0]] + Insert(key, t, x)
  }

  lemma {:induction false} InsertSorted(key: map<Ptr, U64>, q: seq<Ptr>, x: Ptr)
    requires Sorted(key, q) && x in key && x !in q && InWindow(key)
    ensures Sorted(key, Insert(key, q, x))
  {
    hide Less, InWindow;
    if q != [] {
      var t := q[1..];
      assert q == [q[0]] + t && q[0] in q;
      if Less(key, x, q[0]) {
        forall y | y in t ensures Less(key, x, y) {
          var m :| 0 <= m < |t| && t[m] == y;
          assert q[m + 1] == y;
          WindowTrans(key, x, q[0], y);
        }
      } else {
        InsertSorted(key, t, x);
        WindowLess(key, x, q[0]);
        var r := Insert(key, t, x);
        forall y | y in r ensures Less(key, q[0], y) {
          if y != x {
            var m :| 0 <= m < |t| && t[m] == y;
            assert q[m + 1] == y;
          }
        }
      }
    }
  }

  lemma LessSame(key: map<Ptr, U64>, key': map<Ptr, U64>, x: Ptr, y: Ptr)
    requires x in key && y in key && x in key' && y in key' && key'[x] == key[x] && key'[y] == key[y] && Less(key, x, y)
    ensures Less(key', x, y)
  {
  }

  lemma SortedSame(key: map<Ptr, U64>, key': map<Ptr, U64>, q: seq<Ptr>)
    requires Sorted(key, q) && forall y :: y in q ==> y in key' && key'[y] == key[y]
    ensures Sorted(key', q)
  {
    hide Less;
    forall i, j | 0 <= i < j < |q| ensures Less(key', q[i], q[j]) {
      LessSame(key, key', q[i], q[j]);
    }
  }

  lemma {:induction false} RemoveSorted(key: map<Ptr, U64>, key': map<Ptr, U64>, q: seq<Ptr>, x: Ptr)
    requires Sorted(key, q) && x in q && Distinct(q) && forall y :: y in q && y != x ==> y in key' && key'[y] == key[y]
    ensures Sorted(key', Without(q, x))
  {
    hide Less;
    var t := q[1..];
    assert q == [q[0]] + t && q[0] !in t;
    assert Sorted(key, t);
    if q[0] != x {
      RemoveSorted(key, key', t, x);
      WithoutDistinct(t, x);
      var r := Without(t, x);
      forall k | 0 <= k < |r| ensures Less(key', q[0], r[k]) {
        assert r[k] in r;
        var m :| 0 <= m < |t| && t[m] == r[k];
        assert q[m + 1] == t[m];
        LessSame(key, key', q[0], r[k]);
      }
    } else {
      SortedSame(key, key', t);
    }
  }

  lemma SortedDistinct(key: map<Ptr, U64>, q: seq<Ptr>)
    requires Sorted(key, q)
    ensures Distinct(q)
  {
    forall i, j | 0 <= i < j < |q| ensures q[i] != q[j] {
      assert Less(key, q[i], q[j]);
    }
  }

  // ---- the connection with the red-black tree ----

  function Cmp(key: map<Ptr, U64>): (Ptr, Ptr) -> bool {
    (x: Ptr, y: Ptr) => x in key && y in key && Less(key, x, y)
  }

  // Keys inside a window give the trees an order that they can search by: only a node itself is equivalent to it.
  lemma WindowTree(key: map<Ptr, U64>, s: set<Ptr>, b: U64)
    requires s <= key.Keys && Window(key, s, b)
    ensures RbTree.Transitive(Cmp(key), s)
    ensures forall x, y :: x in s && y in s ==> (RbTree.Equivalent(Cmp(key), x, y) <==> x == y)
  {
    hide Less, Window;
    WindowOrders(key, s, b);
    forall x | x in s ensures !Less(key, x, x) {
      Irreflexive(key, x);
    }
  }

  lemma Irreflexive(key: map<Ptr, U64>, x: Ptr)
    requires x in key
    ensures !Less(key, x, x)
  {
  }

  // The first node in order, which _rb_first returns, is the least.
  lemma FirstLeast(key: map<Ptr, U64>, t: Tree, x: Ptr)
    requires RbTree.Sorted(Cmp(key), InOrder(t)) && x in Nodes(t)
    ensures InOrder(t) != []
    ensures x == InOrder(t)[0] || (x in key && InOrder(t)[0] in key && Less(key, InOrder(t)[0], x))
  {
    hide Less;
    InOrderNodes(t);
    var s := InOrder(t);
    var i :| 0 <= i < |s| && s[i] == x;
    assert i > 0 ==> Cmp(key)(s[0], s[i]);
  }

  // What RbTree.RbRoot.Insert leaves in order is the queue after the insertion: there is only one such sequence.
  lemma {:induction false} TreeInsert(key: map<Ptr, U64>, q: seq<Ptr>, q': seq<Ptr>, x: Ptr)
    requires Sorted(key, q) && x in key && x !in q && InWindow(key)
    requires RbTree.Inserted(q, q', x) && RbTree.Sorted(Cmp(key), q')
    ensures q' == Insert(key, q, x)
  {
    var k :| 0 <= k <= |q| && q' == q[..k] + [x] + q[k..];
    InsertAt(key, q, x, k);
  }

  lemma {:induction false} InsertAt(key: map<Ptr, U64>, q: seq<Ptr>, x: Ptr, k: nat)
    requires Keyed(key, q) && x in key && k <= |q| && RbTree.Sorted(Cmp(key), q[..k] + [x] + q[k..]) && InWindow(key)
    requires x !in q
    ensures Insert(key, q, x) == q[..k] + [x] + q[k..]
  {
    hide Less, InWindow;
    var s := q[..k] + [x] + q[k..];
    if k == 0 {
      if q != [] {
        assert s[0] == x && s[1] == q[0] && Cmp(key)(s[0], s[1]);
      }
    } else {
      assert s[0] == q[0] && s[k] == x && Cmp(key)(s[0], s[k]);
      assert q[0] in q;
      WindowLess(key, q[0], x);
      var t := q[1..];
      assert q == [q[0]] + t;
      var s' := t[..k - 1] + [x] + t[k - 1..];
      assert s == [q[0]] + s';
      assert forall i, j :: 0 <= i < j < |s'| ==>
               s'[i] == s[i + 1] && s'[j] == s[j + 1] && Cmp(key)(s[i + 1], s[j + 1]);
      InsertAt(key, t, x, k - 1);
    }
  }

  // What RbTree.RbRoot.Erase leaves in order is the queue after the erasure.
  lemma TreeErase(q: seq<Ptr>, q': seq<Ptr>, x: Ptr)
    requires Distinct(q) && RbErase.Removed(q, q', x)
    ensures q' == Without(q, x)
  {
    hide Without, Distinct;
    var k :| 0 <= k <= |q'| && q == q'[..k] + [x] + q'[k..];
    Around(q', k, x);
    RemoveAt(q, k);
  }

  lemma Around(q: seq<Ptr>, k: nat, x: Ptr)
    requires k <= |q|
    ensures var r := q[..k] + [x] + q[k..]; r[k] == x && r[..k] + r[k + 1..] == q
  {
  }

  lemma {:induction false} RemoveAt(q: seq<Ptr>, k: nat)
    requires k < |q| && Distinct(q)
    ensures Without(q, q[k]) == q[..k] + q[k + 1..]
  {
    if k > 0 {
      var t := q[1..];
      RemoveAt(t, k - 1);
      assert t[k - 1] == q[k];
    }
  }

  // _rb_first_ex_p: the first node in order that is not a skipped group.
  function FirstEx(t: Tree, skip: set<Ptr>): Ptr {
    match t
    case Leaf => NULL
    case Fork(l, n, _, r) =>
      var left := FirstEx(l, skip);
      if left != NULL then left else if n !in skip then n else FirstEx(r, skip)
  }

  function FirstIn(q: seq<Ptr>, skip: set<Ptr>): (r: Ptr) {
    if q == [] then NULL else if q[0] !in skip then q[0] else FirstIn(q[1..], skip)
  }

  lemma {:induction false} FirstInConcat(a: seq<Ptr>, b: seq<Ptr>, skip: set<Ptr>)
    requires NULL !in a
    ensures FirstIn(a + b, skip) == if FirstIn(a, skip) != NULL then FirstIn(a, skip) else FirstIn(b, skip)
  {
    if a == [] {
      assert a + b == b;
    } else {
      assert (a + b)[1..] == a[1..] + b && a[0] in a;
      FirstInConcat(a[1..], b, skip);
    }
  }

  lemma {:induction false} FirstExInOrder(t: Tree, skip: set<Ptr>)
    requires NULL !in Nodes(t)
    ensures FirstEx(t, skip) == FirstIn(InOrder(t), skip)
  {
    if t.Fork? {
      FirstExInOrder(t.l, skip);
      FirstExInOrder(t.r, skip);
      InOrderNodes(t.l);
      FirstInConcat(InOrder(t.l), [t.n] + InOrder(t.r), skip);
      assert InOrder(t.l) + ([t.n] + InOrder(t.r)) == InOrder(t);
      assert ([t.n] + InOrder(t.r))[1..] == InOrder(t.r);
    }
  }

  // Where the first entry that is not skipped stands.
  lemma {:induction false} FirstInAt(q: seq<Ptr>, skip: set<Ptr>) returns (i: nat)
    requires NULL !in q
    ensures i <= |q| && forall j :: 0 <= j < i ==> q[j] in skip
    ensures if i < |q| then q[i] !in skip && FirstIn(q, skip) == q[i] else FirstIn(q, skip) == NULL
  {
    if q == [] || q[0] !in skip {
      i := 0;
    } else {
      var k := FirstInAt(q[1..], skip);
      i := k + 1;
    }
  }
}
