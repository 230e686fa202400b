/** Counting semaphores (src/common/sem.c): every post is worth one grant, and sleepers are granted in the
    order in which they came. */
module Sem {
  import opened Basics

  // The value, the sleepers with the newest first, and the sleepers that were granted and have not run since.
  // A sleeper is named by its process.
  datatype Sem = Sem(val: int, sleepers: seq<Ptr>, up: set<Ptr>)

  ghost predicate SemOk(s: Sem) {
    && |s.sleepers| == (if s.val < 0 then -s.val else 0)
    && Distinct(s.sleepers)
    && (forall p :: p in s.sleepers ==> p !in s.up)
  }

  // Neither asleep on the semaphore nor granted by it.
  predicate Away(s: Sem, p: Ptr) { p !in s.sleepers && p !in s.up }

  // Grants that are there to be taken, by the next wait or by a sleeper that was granted.
  function Tokens(s: Sem): nat { (if s.val > 0 then s.val else 0) + |s.up| }

  // _post_sem.
  function Posted(s: Sem): Sem {
    if s.val < 0 && s.sleepers != [] then
      Sem(s.val + 1, s.sleepers[..|s.sleepers| - 1], s.up + {s.sleepers[|s.sleepers| - 1]})
    else
      s.(val := s.val + 1)
  }

  lemma PostedOk(s: Sem)
    requires SemOk(s)
    ensures SemOk(Posted(s)) && Tokens(Posted(s)) == Tokens(s) + 1
    ensures forall p :: Away(Posted(s), p) <==> Away(s, p)
    ensures s.val < 0 <==> s.sleepers != []
  {
    if s.val < 0 {
      var n := |s.sleepers| - 1;
      var last := s.sleepers[n];
      assert s.sleepers == s.sleepers[..n] + [last];
      assert last in s.sleepers;
    }
  }

  // The processes that sleep or were granted.
  ghost function Everyone(s: Sem): set<Ptr> { s.up + set p | p in s.sleepers }

  // A post adds one to the value, takes at most one sleeper off the list and loses nobody.
  lemma PostedCounts(s: Sem)
    requires SemOk(s)
    ensures Posted(s).val == s.val + 1 && |Posted(s).sleepers| == (if s.val < 0 then |s.sleepers| - 1 else |s.sleepers|)
    ensures s.val >= 0 ==> s.sleepers == [] && Posted(s).sleepers == []
    ensures s.val < 0 ==> |s.sleepers| == -s.val
    ensures Everyone(Posted(s)) == Everyone(s)
  {
    if s.val < 0 {
      var n := |s.sleepers| - 1;
      assert s.sleepers == s.sleepers[..n] + [s.sleepers[n]];
    }
  }

  lemma SameEveryone(s: Sem, v: int)
    ensures Everyone(s.(val := v)) == Everyone(s)
  {
  }

  lemma NobodyAsleep(s: Sem)
    requires s.sleepers == []
    ensures Everyone(s) == s.up
  {
  }

  // _wait_sem up to the sleep.
  function Waited(s: Sem, p: Ptr): Sem {
    if s.val > 0 then s.(val := s.val - 1) else Sem(s.val - 1, [p] + s.sleepers, s.up)
  }

  lemma WaitedOk(s: Sem, p: Ptr)
    requires SemOk(s) && Away(s, p)
    ensures SemOk(Waited(s, p)) && Tokens(Waited(s, p)) == Tokens(s) - (if s.val > 0 then 1 else 0)
    ensures Away(Waited(s, p), p) <==> s.val > 0
    ensures forall q :: q != p ==> (Away(Waited(s, p), q) <==> Away(s, q))
  {
    assert |[p] + s.sleepers| == |s.sleepers| + 1;
  }

  // _wait_sem after the sleep: a sleeper that was not granted leaves the list.
  function Resumed(s: Sem, p: Ptr): Sem {
    if p in s.up then s.(up := s.up - {p}) else Sem(s.val + 1, Without(s.sleepers, p), s.up)
  }

  lemma ResumedOk(s: Sem, p: Ptr)
    requires SemOk(s) && !Away(s, p)
    ensures SemOk(Resumed(s, p)) && Tokens(Resumed(s, p)) == Tokens(s) - (if p in s.up then 1 else 0)
    ensures forall q :: Away(Resumed(s, p), q) <==> q == p || Away(s, q)
    ensures p !in s.up ==> s.val + 1 <= 0
  {
    if p !in s.up {
      WithoutDistinct(s.sleepers, p);
    }
  }

  // The order of grants: a sleeper with k sleepers before it is granted by the post after k more.
  function Posts(s: Sem, n: nat): Sem
    decreases n
  {
    if n == 0 then s else Posts(Posted(s), n - 1)
  }

  lemma {:induction false} OldestFirst(s: Sem, k: nat, n: nat)
    requires SemOk(s) && k < |s.sleepers| && n <= |s.sleepers|
    ensures s.sleepers[|s.sleepers| - 1 - k] in Posts(s, n).up <==> k < n
    decreases n
  {
    var p := s.sleepers[|s.sleepers| - 1 - k];
    assert p in s.sleepers;
    if n > 0 {
      PostedOk(s);
      var t := Posted(s);
      if k > 0 {
        assert t.sleepers[|t.sleepers| - 1 - (k - 1)] == p;
        hide Posted, SemOk;
        OldestFirst(t, k - 1, n - 1);
      } else {
        PostsKeep(t, n - 1, p);
      }
    }
  }

  lemma {:induction false} PostsKeep(s: Sem, n: nat, p: Ptr)
    requires p in s.up
    ensures p in Posts(s, n).up
    decreases n
  {
    if n > 0 {
      PostsKeep(Posted(s), n - 1, p);
    }
  }

  lemma {:induction false} PostsThen(s: Sem, n: nat)
    ensures Posts(s, n + 1) == Posted(Posts(s, n))
    decreases n
  {
    if n > 0 {
      PostsThen(Posted(s), n - 1);
    }
  }

  // ---- what happens to a sleeper while the lock is free ----

  // What other processes do with the semaphore; for post_all_sem see PostAllEvents.
  datatype Event = Post | Get | GetAll | Wait(q: Ptr) | Leave(q: Ptr)

  function Then(s: Sem, e: Event): Sem {
    match e
    case Post => Posted(s)
    case Get => if s.val > 0 then s.(val := s.val - 1) else s
    case GetAll => if s.val > 0 then s.(val := 0) else s
    case Wait(q) => Waited(s, q)
    case Leave(q) => Resumed(s, q)
  }

  function Run(s: Sem, es: seq<Event>): Sem
    decreases |es|
  {
    if es == [] then s else Run(Then(s, es[0]), es[1..])
  }

  // post_all_sem is a post for every sleeper, one more, and a get.
  lemma {:induction false} PostAllEvents(s: Sem)
    requires SemOk(s)
    ensures Run(s, seq(|s.sleepers| + 1, _ => Post) + [Get]) == Sem(if s.val > 0 then s.val else 0, [], Everyone(s))
    decreases |s.sleepers|
  {
    hide SemOk, Everyone;
    PostedOk(s);
    PostedCounts(s);
    var es := seq(|s.sleepers| + 1, _ => Post) + [Get];
    var t := Posted(s);
    assert es[0] == Post;
    if s.sleepers == [] {
      assert es[1..] == [Get] && [Get][1..] == [];
      assert Run(s, es) == Run(t, [Get]) == Run(Then(t, Get), []);
      NobodyAsleep(s);
    } else {
      assert es[1..] == seq(|t.sleepers| + 1, _ => Post) + [Get];
      PostAllEvents(t);
    }
  }

  // Events of processes other than p: who waits was away, and who leaves was not.
  predicate Legal(s: Sem, p: Ptr, es: seq<Event>)
    decreases |es|
  {
    es == [] || (LegalOne(s, p, es[0]) && Legal(Then(s, es[0]), p, es[1..]))
  }

  predicate LegalOne(s: Sem, p: Ptr, e: Event) {
    match e
    case Wait(q) => q != p && Away(s, q)
    case Leave(q) => q != p && !Away(s, q)
    case _ => true
  }

  // The sleepers that came before p.
  function Older(q: seq<Ptr>, p: Ptr): seq<Ptr> {
    if q == [] then [] else if q[0] == p then q[1..] else Older(q[1..], p)
  }

  // How many of the events bring p forward: posts, and sleepers before it that leave without a grant.
  function Advances(s: Sem, p: Ptr, es: seq<Event>): nat
    decreases |es|
  {
    if es == [] then 0 else (if Advance(s, p, es[0]) then 1 else 0) + Advances(Then(s, es[0]), p, es[1..])
  }

  predicate Advance(s: Sem, p: Ptr, e: Event) {
    e == Post || (e.Leave? && p in s.sleepers && e.q in Older(s.sleepers, p))
  }

  lemma {:induction false} OlderIn(q: seq<Ptr>, p: Ptr)
    ensures forall x :: x in Older(q, p) ==> x in q
  {
    if q != [] && q[0] != p {
      OlderIn(q[1..], p);
    }
  }

  // A sleeper that leaves shortens the list before p exactly if it stood there.
  lemma {:induction false} OlderWithout(q: seq<Ptr>, p: Ptr, x: Ptr)
    requires Distinct(q) && p in q && x in q && x != p
    ensures |Older(Without(q, x), p)| == |Older(q, p)| - (if x in Older(q, p) then 1 else 0)
  {
    var t := q[1..];
    assert q == [q[0]] + t && q[0] !in t;
    OlderIn(t, p);
    if q[0] == x {
      assert Without(q, x) == t;
    } else if q[0] != p {
      OlderWithout(t, p, x);
      assert Without(q, x)[1..] == Without(t, x);
    } else {
      assert Without(q, x)[1..] == Without(t, x);
    }
  }

  // The oldest sleeper goes: it is p itself if nobody is before p.
  lemma {:induction false} OlderButLast(q: seq<Ptr>, p: Ptr)
    requires Distinct(q) && p in q
    ensures Older(q, p) == [] <==> q[|q| - 1] == p
    ensures Older(q, p) != [] ==> p in q[..|q| - 1] && |Older(q[..|q| - 1], p)| == |Older(q, p)| - 1
  {
    var t := q[1..];
    assert q == [q[0]] + t && q[0] !in t;
    if q[0] != p {
      OlderButLast(t, p);
      assert q[..|q| - 1][1..] == t[..|t| - 1];
    } else if t != [] {
      assert q[..|q| - 1][1..] == t[..|t| - 1] && q[..|q| - 1][0] == p;
    }
  }

  // One event: a sleeper p stays asleep or is granted, and comes forward by the events that count.
  lemma StepAsleep(s: Sem, p: Ptr, e: Event)
    requires SemOk(s) && p in s.sleepers && LegalOne(s, p, e)
    ensures var t, k := Then(s, e), |Older(s.sleepers, p)|;
            && SemOk(t) && (p in t.sleepers || p in t.up)
            && (p in t.up <==> k == 0 && e == Post)
            && (p in t.sleepers ==> |Older(t.sleepers, p)| == k - (if Advance(s, p, e) then 1 else 0))
  {
    hide Older;
    match e {
      case Post =>
        PostedOk(s);
        OlderButLast(s.sleepers, p);
      case Wait(q) =>
        WaitedOk(s, q);
        OlderNewer(s.sleepers, p, q);
      case Leave(q) =>
        ResumedOk(s, q);
        if q in s.sleepers {
          OlderWithout(s.sleepers, p, q);
        } else {
          OlderIn(s.sleepers, p);
        }
      case _ =>
    }
  }

  lemma OlderNewer(q: seq<Ptr>, p: Ptr, x: Ptr)
    requires x != p
    ensures Older([x] + q, p) == Older(q, p)
  {
    assert ([x] + q)[1..] == q;
  }

  // A process that was granted stays so until it runs.
  lemma {:induction false} UpStays(s: Sem, p: Ptr, es: seq<Event>)
    requires SemOk(s) && p in s.up && Legal(s, p, es)
    ensures SemOk(Run(s, es)) && p in Run(s, es).up
    decreases |es|
  {
    if es != [] {
      StepUp(s, p, es[0]);
      UpStays(Then(s, es[0]), p, es[1..]);
    }
  }

  lemma StepUp(s: Sem, p: Ptr, e: Event)
    requires SemOk(s) && p in s.up && LegalOne(s, p, e)
    ensures SemOk(Then(s, e)) && p in Then(s, e).up
  {
    match e {
      case Post => PostedOk(s);
      case Wait(q) => WaitedOk(s, q);
      case Leave(q) => ResumedOk(s, q);
      case _ =>
    }
  }

  // A sleeper is granted exactly if more events bring it forward than there are sleepers before it.
  lemma {:induction false} GrantedIff(s: Sem, p: Ptr, es: seq<Event>)
    requires SemOk(s) && p in s.sleepers && Legal(s, p, es)
    ensures SemOk(Run(s, es)) && !Away(Run(s, es), p)
    ensures p in Run(s, es).up <==> |Older(s.sleepers, p)| < Advances(s, p, es)
    decreases |es|
  {
    if es != [] {
      hide SemOk, Older, Then, LegalOne;
      var t := Then(s, es[0]);
      StepAsleep(s, p, es[0]);
      if p in t.up {
        UpStays(t, p, es[1..]);
      } else {
        GrantedIff(t, p, es[1..]);
      }
    } else {
      assert p !in s.up;
    }
  }

  // The process that found no grant is the newest sleeper: everyone else is before it.
  lemma KilledIff(s: Sem, p: Ptr, es: seq<Event>)
    requires SemOk(s) && Away(s, p) && s.val <= 0 && Legal(Waited(s, p), p, es)
    ensures var t := Run(Waited(s, p), es); SemOk(t) && !Away(t, p)
    ensures p in Run(Waited(s, p), es).up <==> |s.sleepers| < Advances(Waited(s, p), p, es)
  {
    var t := Waited(s, p);
    WaitedOk(s, p);
    assert t.sleepers[0] == p && t.sleepers[1..] == s.sleepers;
    GrantedIff(t, p, es);
  }

  // Nobody else at work: the killed process leaves no trace.
  lemma KilledAlone(s: Sem, p: Ptr)
    requires SemOk(s) && Away(s, p) && s.val <= 0
    ensures Resumed(Waited(s, p), p) == s
  {
    assert Waited(s, p).sleepers[0] == p && Waited(s, p).sleepers[1..] == s.sleepers;
  }

  // With posts alone, a process that found no grant is granted exactly if they are more than the sleepers before it.
  lemma KilledGap(s: Sem, p: Ptr, n: nat)
    requires SemOk(s) && Away(s, p) && s.val <= 0
    ensures p in Posts(Waited(s, p), n).up <==> |s.sleepers| < n
  {
    var es := seq(n, _ => Post);
    OnlyPosts(Waited(s, p), p, n);
    KilledIff(s, p, es);
  }

  lemma {:induction false} OnlyPosts(s: Sem, p: Ptr, n: nat)
    ensures var es := seq(n, _ => Post); Legal(s, p, es) && Run(s, es) == Posts(s, n) && Advances(s, p, es) == n
    decreases n
  {
    if n > 0 {
      assert seq(n, _ => Post)[1..] == seq(n - 1, _ => Post);
      OnlyPosts(Posted(s), p, n - 1);
    }
  }

  // No grant is there, and one post in the gap still lets the killed process through.
  lemma KilledPassed(p: Ptr)
    ensures p in Posted(Waited(Sem(0, [], {}), p)).up
  {
    KilledGap(Sem(0, [], {}), p, 1);
    PostsThen(Waited(Sem(0, [], {}), p), 0);
  }

  // Nor are there more posts than sleepers: the one before it gives up, and one post lets the killed process through.
  lemma KilledBehind(p: Ptr, q: Ptr)
    requires p != q
    ensures var s := Sem(-1, [q], {});
            SemOk(s) && Legal(Waited(s, p), p, [Leave(q), Post]) && p in Run(Waited(s, p), [Leave(q), Post]).up
  {
    var s, es := Sem(-1, [q], {}), [Leave(q), Post];
    var t := Waited(s, p);
    assert t.sleepers == [p, q] && q in t.sleepers;
    assert Without([p, q], q) == [p] + Without([q], q);
    assert Then(t, Leave(q)) == Sem(-1, [p], {});
    assert es[1..] == [Post] && [Post][1..] == [];
    assert Posted(Sem(-1, [p], {})).up == {p};
    assert Run(t, es) == Run(Sem(-1, [p], {}), [Post]) == Run(Posted(Sem(-1, [p], {})), []);
  }

  /** A semaphore, with the posts and grants of its history. */
  class Semaphore {
    var val: int
    var sleeplist: seq<Ptr>
    var up: set<Ptr>
    ghost var initial: int
    ghost var posts: int
    ghost var grants: int

    ghost function Value(): Sem
      reads this
    {
      Sem(val, sleeplist, up)
    }

    // Every post is a grant made or a grant left, and every sleeper is one owed.
    ghost predicate Valid()
      reads this
    {
      SemOk(Value()) && val == initial + posts - grants - |sleeplist|
    }

    constructor (v: int)
      requires v >= 0
      ensures Valid() && Value() == Sem(v, [], {}) && initial == v && posts == 0 && grants == 0
    {
      val, sleeplist, up := v, [], {};
      initial, posts, grants := v, 0, 0;
    }

    // _post_sem; wake is the process that is activated. The ASSERT holds.
    method Post() returns (woke: bool, wake: Ptr)
      requires Valid()
      modifies this
      ensures Valid() && Value() == Posted(old(Value())) && initial == old(initial) && posts == old(posts) + 1
      ensures woke <==> old(val) < 0
      ensures grants == if woke then old(grants) + 1 else old(grants)
      ensures woke ==> old(sleeplist) != [] && wake == old(sleeplist)[|old(sleeplist)| - 1]
      ensures val == old(val) + 1 && old(sleeplist) == sleeplist + (if woke then [wake] else [])
      ensures up == old(up) + if woke then {wake} else {}
    {
      PostedOk(Value());
      woke, wake := false, NULL;
      val := val + 1;
      posts := posts + 1;
      if val <= 0 {
        assert sleeplist != [];
        woke, wake := true, sleeplist[|sleeplist| - 1];
        up := up + {wake};
        sleeplist := sleeplist[..|sleeplist| - 1];
        grants := grants + 1;
      }
    }

    // _get_sem.
    method Get() returns (r: bool)
      requires Valid()
      modifies this
      ensures Valid() && initial == old(initial) && posts == old(posts) && (r <==> old(val) > 0)
      ensures Value() == (if r then old(Value()).(val := old(val) - 1) else old(Value()))
      ensures grants == if r then old(grants) + 1 else old(grants)
    {
      r := false;
      if val > 0 {
        val := val - 1;
        grants := grants + 1;
        r := true;
      }
    }

    // get_all_sem.
    method GetAll() returns (r: int)
      requires Valid()
      modifies this
      ensures Valid() && initial == old(initial) && posts == old(posts) && grants == old(grants) + r
      ensures r == (if old(val) > 0 then old(val) else 0)
      ensures Value() == old(Value()).(val := if old(val) > 0 then 0 else old(val))
    {
      r := 0;
      if val > 0 {
        r := val;
        val := 0;
        grants := grants + r;
      }
    }

    // post_all_sem: all sleepers are granted and counted; what was available stays.
    method PostAll() returns (r: int)
      requires Valid()
      modifies this
      ensures Valid() && initial == old(initial) && r == |old(sleeplist)|
      ensures sleeplist == [] && val == (if old(val) > 0 then old(val) else 0)
      ensures up == old(Everyone(Value()))
    {
      r := -1;
      var got := false;
      while !got
        invariant Valid() && initial == old(initial)
        invariant Everyone(Value()) == old(Everyone(Value()))
        invariant if got then sleeplist == [] && val == (if old(val) > 0 then old(val) else 0) && r == |old(sleeplist)|
                  else val == old(val) + r + 1 && r + 1 + |sleeplist| == |old(sleeplist)| && (val <= 0 || r == -1)
        decreases !got, |sleeplist|
      {
        hide Everyone, Posted;
        PostedCounts(Value());
        var woke, p := Post();
        hide SemOk;
        r := r + 1;
        got := Get();
        SameEveryone(Value(), val + (if got then 1 else 0));
      }
      NobodyAsleep(Value());
    }

    // _wait_sem up to the sleep: true if a grant was there.
    method WaitStart(p: Ptr) returns (r: bool)
      requires Valid() && Away(Value(), p)
      modifies this
      ensures Valid() && Value() == Waited(old(Value()), p) && initial == old(initial) && posts == old(posts)
      ensures (r <==> old(val) > 0) && grants == if r then old(grants) + 1 else old(grants)
      ensures val == old(val) - 1 && up == old(up) && sleeplist == if r then old(sleeplist) else [p] + old(sleeplist)
    {
      WaitedOk(Value(), p);
      val := val - 1;
      if val >= 0 {
        grants := grants + 1;
        return true;
      }
      sleeplist := [p] + sleeplist;
      return false;
    }

    // _wait_sem after the sleep: true if the sleeper was granted. The ASSERT holds.
    method WaitEnd(p: Ptr) returns (r: bool)
      requires Valid() && !Away(Value(), p)
      modifies this
      ensures Valid() && Value() == Resumed(old(Value()), p) && initial == old(initial) && posts == old(posts)
      ensures grants == old(grants)
      ensures r <==> p in old(up)
      ensures if r then val == old(val) && sleeplist == old(sleeplist) && up == old(up) - {p}
              else val == old(val) + 1 && sleeplist == Without(old(sleeplist), p) && up == old(up)
    {
      ResumedOk(Value(), p);
      r := p in up;
      if !r {
        val := val + 1;
        assert val <= 0;
        sleeplist := Without(sleeplist, p);
      } else {
        up := up - {p};
      }
    }

    // The wait of a killed process, which does not sleep: sched returns at once, whether the wait is alertable or
    // not. Between the two steps, without the lock, other processes do what es says.
    method WaitKilled(p: Ptr, es: seq<Event>) returns (r: bool)
      requires Valid() && Away(Value(), p) && (val <= 0 ==> Legal(Waited(Value(), p), p, es))
      modifies this
      ensures Valid()
      ensures r <==> old(val) > 0 || |old(sleeplist)| < Advances(Waited(old(Value()), p), p, es)
      ensures Value() == if old(val) > 0 then Waited(old(Value()), p) else Resumed(Run(Waited(old(Value()), p), es), p)
      ensures es == [] && !r ==> Value() == old(Value())
    {
      ghost var s := Value();
      r := WaitStart(p);
      if r {
        return;
      }
      ghost var t := Value();
      KilledIff(s, p, es);
      KilledAlone(s, p);
      var k := 0;
      while k < |es|
        invariant 0 <= k <= |es| && Valid() && Legal(Value(), p, es[k..]) && Run(Value(), es[k..]) == Run(t, es)
      {
        assert es[k..][0] == es[k] && es[k..][1..] == es[k + 1..];
        Happen(es[k], p);
        k := k + 1;
      }
      r := WaitEnd(p);
    }

    // One event.
    method Happen(e: Event, ghost p: Ptr)
      requires Valid() && LegalOne(Value(), p, e)
      modifies this
      ensures Valid() && Value() == Then(old(Value()), e)
    {
      match e {
        case Post => var _, _ := Post();
        case Get => var _ := Get();
        case GetAll => var _ := GetAll();
        case Wait(q) => var _ := WaitStart(q);
        case Leave(q) => var _ := WaitEnd(q);
      }
    }
  }
}
