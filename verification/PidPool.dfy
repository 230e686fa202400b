/** Pools of pids (src/kernel/container.h, src/kernel/proc.c): a stack of the pids that are free. */
module PidPool {
  import opened Counting
  import opened Basics

  const PID_NUM: nat := 100

  // struct pid_pool: the pids from avail on are free.
  datatype Pool = Pool(freelist: seq<nat>, avail: nat)

  ghost predicate PoolOk(p: Pool) {
    && |p.freelist| == PID_NUM && p.avail <= PID_NUM
    && (forall i :: p.avail <= i < PID_NUM ==> p.freelist[i] < PID_NUM)
    && (forall i, j :: p.avail <= i < j < PID_NUM ==> p.freelist[i] != p.freelist[j])
  }

  ghost predicate InUse(p: Pool, id: int)
    requires |p.freelist| == PID_NUM
  {
    0 <= id < PID_NUM && forall i :: p.avail <= i < PID_NUM ==> p.freelist[i] != id
  }

  // A pool of which the first k pids are taken.
  function Fresh(k: nat): (p: Pool) { Pool(seq(PID_NUM, i => i), k) }

  lemma FreshOk(k: nat)
    requires k <= PID_NUM
    ensures PoolOk(Fresh(k)) && forall id :: InUse(Fresh(k), id) <==> 0 <= id < k
  {
    forall id ensures InUse(Fresh(k), id) <==> 0 <= id < k {
      if k <= id < PID_NUM {
        assert Fresh(k).freelist[id] == id;
      }
    }
  }

  function Taken(p: Pool): Pool { p.(avail := p.avail + 1) }

  lemma TakeOk(p: Pool)
    requires PoolOk(p) && p.avail < PID_NUM
    ensures var id := p.freelist[p.avail];
            PoolOk(Taken(p)) && !InUse(p, id) && forall x :: InUse(Taken(p), x) <==> InUse(p, x) || x == id
  {
    var id := p.freelist[p.avail];
    forall x ensures InUse(Taken(p), x) <==> InUse(p, x) || x == id {
    }
  }

  function Given(p: Pool, id: nat): Pool
    requires 0 < p.avail <= |p.freelist|
  {
    Pool(p.freelist[p.avail - 1 := id], p.avail - 1)
  }

  // A pid in use was taken, so there is room to give it back.
  lemma Room(p: Pool, id: int)
    requires PoolOk(p) && InUse(p, id)
    ensures p.avail > 0
  {
    if p.avail == 0 {
      AllTaken(p.freelist, id);
      assert false;
    }
  }

  lemma GiveOk(p: Pool, id: int)
    requires PoolOk(p) && InUse(p, id)
    ensures p.avail > 0 && PoolOk(Given(p, id)) && forall x :: InUse(Given(p, id), x) <==> InUse(p, x) && x != id
  {
    Room(p, id);
    var q := Given(p, id);
    forall x ensures InUse(q, x) <==> InUse(p, x) && x != id {
      assert q.freelist[q.avail] == id;
      assert forall i :: p.avail <= i < PID_NUM ==> q.freelist[i] == p.freelist[i];
    }
  }

  // ---- who has which pid ----

  // The pids in use are those in kept and those of the holders, each of which has its own.
  ghost predicate Issued(p: Pool, kept: set<nat>, ids: map<Ptr, nat>) {
    && PoolOk(p) && (forall id: nat :: InUse(p, id) <==> id in kept || id in Held(ids))
    && Own(ids) && forall x :: x in ids ==> ids[x] !in kept
  }

  ghost function Held(ids: map<Ptr, nat>): set<nat> { set x | x in ids :: ids[x] }

  ghost predicate Own(ids: map<Ptr, nat>) {
    forall x, y :: x in ids && y in ids && ids[x] == ids[y] ==> x == y
  }

  lemma IssueFresh(k: nat)
    requires k <= PID_NUM
    ensures Issued(Fresh(k), Range(k), map[])
  {
    FreshOk(k);
  }

  lemma IssueTake(p: Pool, kept: set<nat>, ids: map<Ptr, nat>, x: Ptr)
    requires Issued(p, kept, ids) && p.avail < PID_NUM && x !in ids
    ensures Issued(Taken(p), kept, ids[x := p.freelist[p.avail]])
  {
    TakeOk(p);
    var id, ids' := p.freelist[p.avail], ids[x := p.freelist[p.avail]];
    hide PoolOk, InUse;
    assert id !in kept && id !in Held(ids);
    forall y | y in ids ensures ids[y] != id {
      assert ids[y] in Held(ids);
    }
    HeldMore(ids, x, id);
  }

  lemma IssueGive(p: Pool, kept: set<nat>, ids: map<Ptr, nat>, x: Ptr)
    requires Issued(p, kept, ids) && x in ids
    ensures 0 < p.avail <= |p.freelist| && Issued(Given(p, ids[x]), kept, ids - {x})
  {
    var id, ids' := ids[x], ids - {x};
    assert id in Held(ids);
    GiveOk(p, id);
    hide PoolOk, InUse;
    HeldLess(ids, x);
  }

  lemma HeldMore(ids: map<Ptr, nat>, x: Ptr, id: nat)
    requires x !in ids
    ensures Held(ids[x := id]) == Held(ids) + {id}
  {
    var ids' := ids[x := id];
    forall v | v in Held(ids) + {id} ensures v in Held(ids') {
      if y :| y in ids && ids[y] == v {
        assert ids'[y] == v;
      } else {
        assert ids'[x] == v;
      }
    }
  }

  lemma HeldLess(ids: map<Ptr, nat>, x: Ptr)
    requires Own(ids) && x in ids
    ensures Held(ids - {x}) == Held(ids) - {ids[x]} && Own(ids - {x})
  {
    var ids' := ids - {x};
    forall v | v in Held(ids) - {ids[x]} ensures v in Held(ids') {
      var y :| y in ids && ids[y] == v;
      assert ids'[y] == v;
    }
    forall v | v in Held(ids') ensures v in Held(ids) - {ids[x]} {
      var y :| y in ids' && ids'[y] == v;
      assert ids[y] == v;
    }
  }

  // How many pids are taken.
  lemma IssuedCount(p: Pool, kept: set<nat>, ids: map<Ptr, nat>)
    requires Issued(p, kept, ids)
    ensures p.avail == |kept| + |ids|
  {
    hide Range;
    var free, used := Values(p.freelist[p.avail..]), kept + Held(ids);
    DistinctSize(p.freelist[p.avail..]);
    OwnSize(ids);
    assert |used| == |kept| + |Held(ids)|;
    FreeOrUsed(p);
    hide PoolOk, InUse, Own, Held, Values;
    Halves(free, used, PID_NUM);
  }

  lemma Halves(s: set<nat>, t: set<nat>, n: nat)
    requires forall id: nat :: id < n <==> id in s || id in t
    requires s !! t
    ensures |s| + |t| == n
  {
    hide Range;
    assert |s + t| == |s| + |t|;
    assert Range(n) == s + t;
  }

  lemma FreeOrUsed(p: Pool)
    requires PoolOk(p)
    ensures forall id: nat :: id in Values(p.freelist[p.avail..]) <==> id < PID_NUM && !InUse(p, id)
    ensures forall id: nat :: InUse(p, id) ==> id < PID_NUM
  {
    var free := p.freelist[p.avail..];
    forall id: nat | id in free ensures id < PID_NUM && !InUse(p, id) {
      var i :| 0 <= i < |free| && free[i] == id;
      assert p.freelist[i + p.avail] == id;
    }
    forall id: nat | id < PID_NUM && !InUse(p, id) ensures id in free {
      var i :| p.avail <= i < PID_NUM && p.freelist[i] == id;
      assert free[i - p.avail] == id;
    }
  }

  lemma {:induction false} OwnSize(ids: map<Ptr, nat>)
    requires Own(ids)
    ensures |Held(ids)| == |ids|
    decreases |ids|
  {
    EmptyOrMember(ids.Keys);
    if ids.Keys == {} {
      assert Held(ids) == {};
    } else {
      var x :| x in ids.Keys;
      HeldLess(ids, x);
      OwnSize(ids - {x});
      assert ids[x] in Held(ids);
      assert (ids - {x}).Keys == ids.Keys - {x};
    }
  }
}
