/** The scheduler over several CPUs (src/kernel/sched.c): process states, the current process of every CPU,
    and the run queues of the containers. */
module Sched {
  import opened Basics
  import opened RbShape
  import opened RunQueue
  import opened PickNext

  datatype State = UNUSED | RUNNABLE | RUNNING | SLEEPING | DEEPSLEEPING | ZOMBIE
  datatype Proc = Proc(state: State, idle: bool, killed: bool, home: Ptr, start_time: U64)
  datatype Cpu = Cpu(thisproc: Ptr, idle: Ptr)
  type Procs = map<Ptr, Proc>

  ghost predicate AllSorted(con: Cons, key: map<Ptr, U64>) {
    forall c :: c in con ==> Sorted(key, con[c].queue)
  }

  // A process that belongs into the queue of c.
  predicate Waiting(p: Proc, c: Ptr) { !p.idle && p.state == RUNNABLE && p.home == c }

  // Queues hold the runnable processes of their container, and no other process.
  ghost predicate Members(con: Cons, procs: Procs) {
    && (forall x :: x in procs ==> x !in con && x != NULL && (procs[x].idle || procs[x].home in con))
    && (forall c, x :: c in con && x in con[c].queue ==> x in con || x in procs)
    && (forall c, x :: c in con && x in procs ==> (x in con[c].queue <==> Waiting(procs[x], c)))
  }

  // Whoever can be in a queue has a run time: every container but the root, and every process that is not an idle
  // one. These run times lie in one window, which may be anywhere in the 64-bit range.
  ghost predicate Keys(con: Cons, root: Ptr, key: map<Ptr, U64>, procs: Procs) {
    && (forall x :: x in con && x != root ==> x in key)
    && (forall x :: x in procs && !procs[x].idle ==> x in key)
    && InWindow(key)
  }

  ghost predicate IdlesOn(cpus: seq<Cpu>, x: Ptr) {
    exists j :: 0 <= j < |cpus| && cpus[j].idle == x
  }

  // Every CPU has an idle process of its own, and there is no other idle process.
  ghost predicate Idles(procs: Procs, cpus: seq<Cpu>) {
    && (forall j :: 0 <= j < |cpus| ==> cpus[j].idle in procs && procs[cpus[j].idle].idle)
    && (forall j, k :: 0 <= j < k < |cpus| ==> cpus[j].idle != cpus[k].idle)
    && (forall x :: x in procs && procs[x].idle ==> IdlesOn(cpus, x))
    && (forall x :: x in procs && procs[x].idle ==> procs[x].state == RUNNING || procs[x].state == RUNNABLE)
  }

  // The current process of every CPU is running and of no other CPU. The CPU vac is between two processes;
  // vac is no CPU's number if none is.
  ghost predicate Busy(procs: Procs, cpus: seq<Cpu>, vac: nat) {
    && (forall j :: 0 <= j < |cpus| && j != vac ==>
        cpus[j].thisproc in procs && procs[cpus[j].thisproc].state == RUNNING)
    && (forall j :: 0 <= j < |cpus| && j != vac && procs[cpus[j].thisproc].idle ==> cpus[j].thisproc == cpus[j].idle)
    && (forall j, k :: 0 <= j < k < |cpus| && j != vac && k != vac ==> cpus[j].thisproc != cpus[k].thisproc)
  }

  ghost predicate RunsOn(cpus: seq<Cpu>, vac: nat, x: Ptr) {
    exists j :: 0 <= j < |cpus| && j != vac && cpus[j].thisproc == x
  }

  // Every running process is the current one of some CPU.
  ghost predicate Placed(procs: Procs, cpus: seq<Cpu>, vac: nat) {
    forall x :: x in procs && procs[x].state == RUNNING ==> RunsOn(cpus, vac, x)
  }

  ghost predicate Current(procs: Procs, cpus: seq<Cpu>, vac: nat) {
    Idles(procs, cpus) && Busy(procs, cpus, vac) && Placed(procs, cpus, vac)
  }

  // The container of a running process is reached from the root.
  ghost predicate Chains(s: Shape, procs: Procs)
    requires Forest(s) && Members(s.con, procs)
  {
    forall x :: x in procs && procs[x].state == RUNNING && !procs[x].idle ==> Under(s, procs[x].home, s.root)
  }

  ghost predicate Inv(s: Shape, key: map<Ptr, U64>, procs: Procs, cpus: seq<Cpu>, vac: nat) {
    && Forest(s) && AllSorted(s.con, key) && Members(s.con, procs) && Keys(s.con, s.root, key, procs)
    && Current(procs, cpus, vac) && Chains(s, procs)
  }

  // Containers, their parents and the groups in their queues are as before.
  ghost predicate SameGroups(con: Cons, con': Cons) {
    && con.Keys == con'.Keys
    && (forall c :: c in con ==> con[c].parent == con'[c].parent)
    && (forall c, x :: c in con && x in con ==> (x in con[c].queue <==> x in con'[c].queue))
  }

  lemma {:induction false} UnderSame(s: Shape, s': Shape, g: Ptr)
    requires Forest(s) && Forest(s') && s'.root == s.root && SameGroups(s.con, s'.con) && g in s.con
    requires Under(s, g, s.root)
    ensures Under(s', g, s.root)
    decreases s.depth[g]
  {
    if g != s.root {
      UnderSame(s, s', s.con[g].parent);
    }
  }

  // Chains carries over to any state in which no further process runs.
  lemma ChainsSame(s: Shape, s': Shape, procs: Procs, procs': Procs)
    requires Forest(s) && Forest(s') && s'.root == s.root && SameGroups(s.con, s'.con)
    requires Members(s.con, procs) && Members(s'.con, procs') && Chains(s, procs)
    requires forall x :: x in procs' && procs'[x].state == RUNNING && !procs'[x].idle ==>
                           x in procs && procs[x].state == RUNNING && !procs[x].idle && procs[x].home == procs'[x].home
    ensures Chains(s', procs')
  {
    forall x | x in procs' && procs'[x].state == RUNNING && !procs'[x].idle ensures Under(s', procs'[x].home, s.root) {
      UnderSame(s, s', procs[x].home);
    }
  }

  // In any state a process is in the queue of its container exactly once if it is runnable and not idle, and in
  // no other queue.
  lemma QueuedOnce(s: Shape, key: map<Ptr, U64>, procs: Procs, cpus: seq<Cpu>, vac: nat, x: Ptr, c: Ptr)
    requires Inv(s, key, procs, cpus, vac) && x in procs && c in s.con
    ensures multiset(s.con[c].queue)[x] == if Waiting(procs[x], c) then 1 else 0
  {
    hide Forest, Current, Chains, Keys;
    SortedDistinct(key, s.con[c].queue);
    hide AllSorted, Sorted;
    DistinctCount(s.con[c].queue, x);
  }

  lemma {:induction false} DistinctCount(q: seq<Ptr>, x: Ptr)
    requires Distinct(q)
    ensures multiset(q)[x] == if x in q then 1 else 0
  {
    if q != [] {
      var t := q[1..];
      assert q == [q[0]] + t && q[0] !in t;
      DistinctCount(t, x);
    }
  }

  // ---- entering a queue ----

  // The queues with x entered into that of c.
  function Entered(con: Cons, key: map<Ptr, U64>, c: Ptr, x: Ptr): (r: Cons)
    requires c in con && Keyed(key, con[c].queue) && x in key
  {
    con[c := con[c].(queue := Insert(key, con[c].queue, x), node_cnt := con[c].node_cnt + 1)]
  }

  lemma WindowKeys(con: Cons, root: Ptr, key: map<Ptr, U64>, procs: Procs)
    requires Keys(con, root, key, procs)
    ensures InWindow(key)
  {
  }

  // A queue with one more entry, a process or a child group.
  lemma EnterForest(s: Shape, con': Cons, c: Ptr, x: Ptr)
    requires Forest(s) && c in s.con && x != NULL && (x in s.con ==> x != s.root && s.con[x].parent == c)
    requires c in con' && con' == s.con[c := Con(s.con[c].parent, con'[c].queue, s.con[c].node_cnt + 1)]
    requires |con'[c].queue| == |s.con[c].queue| + 1
    requires forall y :: y in con'[c].queue <==> y in s.con[c].queue || y == x
    ensures Forest(s.(con := con'))
  {
    hide Nested, Own, Counted;
    EnterNested(s, con', c);
    EnterOwn(s.con, s.root, con', c, x);
    EnterCounted(s.con, con', c);
  }

  lemma EnterNested(s: Shape, con': Cons, c: Ptr)
    requires Nested(s) && c in s.con && c in con' && con' == s.con[c := con'[c]] && con'[c].parent == s.con[c].parent
    ensures Nested(s.(con := con'))
  {
  }

  lemma EnterOwn(con: Cons, root: Ptr, con': Cons, c: Ptr, x: Ptr)
    requires Own(con, root) && c in con && c in con' && con' == con[c := con'[c]] && con'[c].parent == con[c].parent
    requires forall y :: y in con'[c].queue ==> y in con[c].queue || y == x
    requires x != NULL && (x in con ==> x != root && con[x].parent == c)
    ensures Own(con', root)
  {
    if !Own(con', root) {
      var d, y :| d in con' && y in con'[d].queue && !(y != NULL && (y in con' ==> y != root && con'[y].parent == d));
      EnteredOwn(con, root, con', c, x, d, y);
      assert false;
    }
  }

  lemma EnteredOwn(con: Cons, root: Ptr, con': Cons, c: Ptr, x: Ptr, d: Ptr, y: Ptr)
    requires Own(con, root) && c in con && c in con' && con' == con[c := con'[c]] && con'[c].parent == con[c].parent
    requires forall z :: z in con'[c].queue ==> z in con[c].queue || z == x
    requires x != NULL && (x in con ==> x != root && con[x].parent == c) && d in con' && y in con'[d].queue
    ensures y != NULL && (y in con' ==> y != root && con'[y].parent == d)
  {
    assert y in con' <==> y in con;
    if d != c || y != x {
      assert d in con && y in con[d].queue;
    }
  }

  lemma EnterCounted(con: Cons, con': Cons, c: Ptr)
    requires Counted(con) && c in con && c in con' && con' == con[c := con'[c]]
    requires con'[c].node_cnt == con[c].node_cnt + 1 && |con'[c].queue| == |con[c].queue| + 1
    ensures Counted(con')
  {
  }

  lemma EnterSorted(con: Cons, key: map<Ptr, U64>, c: Ptr, x: Ptr)
    requires AllSorted(con, key) && InWindow(key) && c in con && x in key && x !in con[c].queue
    ensures AllSorted(Entered(con, key, c, x), key)
  {
    InsertSorted(key, con[c].queue, x);
  }

  lemma EnterProc(s: Shape, key: map<Ptr, U64>, p: Ptr, c: Ptr)
    requires Forest(s) && AllSorted(s.con, key) && InWindow(key) && c in s.con && p in key && p != NULL && p !in s.con
    requires p !in s.con[c].queue
    ensures Forest(s.(con := Entered(s.con, key, c, p))) && AllSorted(Entered(s.con, key, c, p), key)
    ensures SameGroups(s.con, Entered(s.con, key, c, p))
  {
    EnterSorted(s.con, key, c, p);
    hide Insert, InWindow, Keyed, Sorted, AllSorted, Forest;
    EnterForest(s, Entered(s.con, key, c, p), c, p);
  }

  // A process that becomes runnable and enters its queue.
  lemma EnterInv(s: Shape, key: map<Ptr, U64>, procs: Procs, cpus: seq<Cpu>, p: Ptr, procs': Procs,
                 vac: nat)
    requires Inv(s, key, procs, cpus, |cpus|) && p in procs && !procs[p].idle && procs[p].state != RUNNABLE
    requires procs' == procs[p := procs[p].(state := RUNNABLE)]
    requires if procs[p].state == RUNNING then vac < |cpus| && cpus[vac].thisproc == p else vac == |cpus|
    ensures p in key && procs[p].home in s.con && p !in s.con[procs[p].home].queue
    ensures Keyed(key, s.con[procs[p].home].queue)
    ensures Inv(s.(con := Entered(s.con, key, procs[p].home, p)), key, procs', cpus, vac)
    ensures SameGroups(s.con, Entered(s.con, key, procs[p].home, p))
  {
    hide Forest, Current, Chains, SameGroups, Insert;
    WindowKeys(s.con, s.root, key, procs);
    MembersEntered(s.con, key, procs, p);
    hide Members, AllSorted, Sorted, Keys;
    EnterProc(s, key, p, procs[p].home);
    StateChange(procs, cpus, p, RUNNABLE, vac);
    ChainsSame(s, s.(con := Entered(s.con, key, procs[p].home, p)), procs, procs');
    KeysSame(s.con, s.root, key, procs, Entered(s.con, key, procs[p].home, p), procs');
  }

  lemma KeysSame(con: Cons, root: Ptr, key: map<Ptr, U64>, procs: Procs, con': Cons, procs': Procs)
    requires Keys(con, root, key, procs) && con'.Keys == con.Keys && procs'.Keys == procs.Keys
    requires forall x :: x in procs' ==> procs'[x].idle == procs[x].idle
    ensures Keys(con', root, key, procs')
  {
    hide InWindow;
    forall x | x in con' && x != root ensures x in key {
      assert x in con.Keys;
    }
    forall x | x in procs' && !procs'[x].idle ensures x in key {
      assert x in procs.Keys;
    }
  }

  lemma MembersEntered(con: Cons, key: map<Ptr, U64>, procs: Procs, p: Ptr)
    requires Members(con, procs) && p in procs && !procs[p].idle && procs[p].state != RUNNABLE
    requires p in key && procs[p].home in con ==> Keyed(key, con[procs[p].home].queue)
    ensures procs[p].home in con && p !in con[procs[p].home].queue && p !in con && p != NULL
    ensures p in key ==> Members(Entered(con, key, procs[p].home, p), procs[p := procs[p].(state := RUNNABLE)])
  {
  }

  // A process that leaves its CPU, or changes between states of no CPU.
  lemma StateChange(procs: Procs, cpus: seq<Cpu>, p: Ptr, st: State, vac: nat)
    requires Current(procs, cpus, |cpus|) && p in procs && st != RUNNING && (procs[p].idle ==> st == RUNNABLE)
    requires if procs[p].state == RUNNING then vac < |cpus| && cpus[vac].thisproc == p else vac == |cpus|
    ensures Current(procs[p := procs[p].(state := st)], cpus, vac)
  {
    hide Idles, Busy;
    var procs' := procs[p := procs[p].(state := st)];
    StateIdles(procs, cpus, p, st);
    StateBusy(procs, cpus, p, st, vac);
    forall x | x in procs' && procs'[x].state == RUNNING ensures RunsOn(cpus, vac, x) {
      assert RunsOn(cpus, |cpus|, x);
    }
  }

  lemma StateIdles(procs: Procs, cpus: seq<Cpu>, p: Ptr, st: State)
    requires Idles(procs, cpus) && p in procs && (procs[p].idle ==> st == RUNNABLE)
    ensures Idles(procs[p := procs[p].(state := st)], cpus)
  {
  }

  lemma StateBusy(procs: Procs, cpus: seq<Cpu>, p: Ptr, st: State, vac: nat)
    requires Busy(procs, cpus, |cpus|) && p in procs
    requires if procs[p].state == RUNNING then vac < |cpus| && cpus[vac].thisproc == p else vac == |cpus|
    ensures Busy(procs[p := procs[p].(state := st)], cpus, vac)
  {
    assert forall j :: 0 <= j < |cpus| && j != vac ==> cpus[j].thisproc != p;
  }

  // ---- charging a run time ----

  // The containers from c up to, and without, the root.
  ghost function Chain(s: Shape, c: Ptr): (r: set<Ptr>)
    requires Forest(s) && c in s.con
    ensures forall x :: x in r ==> x in s.con && x != s.root && s.depth[x] <= s.depth[c]
    decreases s.depth[c]
  {
    if c == s.root then {} else {c} + Chain(s, s.con[c].parent)
  }

  lemma {:induction false} ChainSame(s: Shape, s': Shape, c: Ptr)
    requires Forest(s) && Forest(s') && s'.root == s.root && SameGroups(s.con, s'.con) && c in s.con
    ensures Chain(s', c) == Chain(s, c)
    decreases s.depth[c]
  {
    if c != s.root {
      ChainSame(s, s', s.con[c].parent);
    }
  }

  // The container n steps above c.
  function Up(con: Cons, c: Ptr, n: nat): (r: Ptr)
    decreases n
  {
    if n == 0 || c !in con then c else Up(con, con[c].parent, n - 1)
  }

  // x is home or a container above it, but not the root.
  ghost predicate Above(con: Cons, root: Ptr, home: Ptr, x: Ptr) {
    x in con && x != root && exists n: nat :: Up(con, home, n) == x
  }

  lemma UpOut(con: Cons, c: Ptr, n: nat)
    requires c !in con
    ensures Up(con, c, n) == c
  {
  }

  // The chain is what following the parent fields reaches.
  lemma {:induction false} ChainAbove(s: Shape, c: Ptr, x: Ptr)
    requires Forest(s) && c in s.con
    ensures x in Chain(s, c) <==> Above(s.con, s.root, c, x)
    decreases s.depth[c]
  {
    if c == s.root {
      forall n: nat | Up(s.con, c, n) == x ensures x == s.root || x !in s.con {
        if n > 0 {
          UpOut(s.con, s.con[c].parent, n - 1);
        }
      }
    } else {
      var p := s.con[c].parent;
      ChainAbove(s, p, x);
      if Above(s.con, s.root, c, x) && x != c {
        var n: nat :| Up(s.con, c, n) == x;
        assert Up(s.con, p, n - 1) == x;
      }
      if Above(s.con, s.root, p, x) {
        var n: nat :| Up(s.con, p, n) == x;
        assert Up(s.con, c, n + 1) == x;
      }
      if x == c {
        assert Up(s.con, c, 0) == x;
      }
    }
  }

  // Run times with delta added for the members of who.
  function Charged(key: map<Ptr, U64>, who: set<Ptr>, delta: nat): (r: map<Ptr, U64>) {
    map x | x in key :: if x in who then (key[x] + delta) % WORD else key[x]
  }

  lemma ChargedAt(key: map<Ptr, U64>, who: set<Ptr>, delta: nat)
    ensures var r := Charged(key, who, delta);
            r.Keys == key.Keys
            && forall x :: x in key ==> r[x] == if x in who then (key[x] + delta) % WORD else key[x]
  {
  }

  // Containers, parents, counts and contents of queues are as before; only the order may differ.
  ghost predicate SameContents(con: Cons, con': Cons) {
    && con.Keys == con'.Keys
    && (forall c :: c in con ==> con[c].parent == con'[c].parent && con[c].node_cnt == con'[c].node_cnt)
    && (forall c, x :: c in con ==> (x in con[c].queue <==> x in con'[c].queue))
  }

  // The loop of update_this_state, with c the container it has come to: the containers from c up are still
  // to be charged.
  ghost predicate Climbing(s0: Shape, key0: map<Ptr, U64>, goal: map<Ptr, U64>, s: Shape, key: map<Ptr, U64>, c: Ptr) {
    && Forest(s0) && Forest(s) && s == s0.(con := s.con) && SameContents(s0.con, s.con)
    && AllSorted(s.con, key) && key.Keys == key0.Keys == goal.Keys && Together(key0, goal)
    && s0.con.Keys - {s0.root} <= key0.Keys
    && c in s0.con && Under(s0, c, s0.root)
    && (forall x :: x in key0 ==> key[x] == if x in Chain(s0, c) then key0[x] else goal[x])
  }

  // The container c erased from, and entered again into, its parent's queue.
  function Moved(con: Cons, key: map<Ptr, U64>, p: Ptr, c: Ptr): (r: Cons)
    requires p in con && Keyed(key, con[p].queue) && c in key
  {
    con[p := con[p].(queue := Insert(key, Without(con[p].queue, c), c))]
  }

  // One container is charged while it is out of its parent's queue.
  lemma MoveQueue(key: map<Ptr, U64>, key': map<Ptr, U64>, q: seq<Ptr>, c: Ptr)
    requires Sorted(key, q) && c in q && InWindow(key') && key'.Keys == key.Keys
    requires forall x :: x in key && x != c ==> key'[x] == key[x]
    ensures Sorted(key', Without(q, c)) && c !in Without(q, c) && Keyed(key', q)
    ensures Sorted(key', Insert(key', Without(q, c), c)) && |Insert(key', Without(q, c), c)| == |q|
    ensures forall x :: x in Insert(key', Without(q, c), c) <==> x in q
  {
    SortedDistinct(key, q);
    WithoutDistinct(q, c);
    RemoveSorted(key, key', q, c);
    InsertSorted(key', Without(q, c), c);
  }

  lemma MoveStep(s: Shape, key: map<Ptr, U64>, c: Ptr, key': map<Ptr, U64>)
    requires Forest(s) && AllSorted(s.con, key) && c in s.con && c != s.root && c in s.con[s.con[c].parent].queue
    requires InWindow(key') && key'.Keys == key.Keys && c in key && forall x :: x in key && x != c ==> key'[x] == key[x]
    ensures var p := s.con[c].parent; var q := Without(s.con[p].queue, c);
            && Sorted(key', q) && c !in q && Keyed(key', s.con[p].queue)
            && Forest(s.(con := Moved(s.con, key', p, c))) && AllSorted(Moved(s.con, key', p, c), key')
            && SameContents(s.con, Moved(s.con, key', p, c))
  {
    hide Sorted, InWindow, Insert, Without, SameContents;
    var p := s.con[c].parent;
    MoveQueue(key, key', s.con[p].queue, c);
    var con' := Moved(s.con, key', p, c);
    forall d | d in s.con && d != p ensures Sorted(key', con'[d].queue) {
      assert c !in s.con[d].queue;
      SortedElsewhere(key, key', s.con[d].queue, c);
    }
    assert AllSorted(con', key');
    hide AllSorted;
    MoveSame(s.con, con', p);
    SameForest(s, s.(con := con'));
  }

  lemma MoveSame(con: Cons, con': Cons, p: Ptr)
    requires p in con && p in con' && con' == con[p := con[p].(queue := con'[p].queue)]
    requires forall x :: x in con'[p].queue <==> x in con[p].queue
    ensures SameContents(con, con')
  {
  }

  lemma SameForest(s: Shape, s': Shape)
    requires Forest(s) && s' == s.(con := s'.con) && SameContents(s.con, s'.con)
    requires forall c :: c in s.con ==> |s'.con[c].queue| == |s.con[c].queue|
    ensures Forest(s')
  {
    assert Rooted(s');
    assert Counted(s'.con) by { hide Nested, Own; }
    assert Own(s'.con, s.root) by { hide Nested, Counted; }
    assert Nested(s') by { hide Own, Counted; }
  }

  lemma SortedElsewhere(key: map<Ptr, U64>, key': map<Ptr, U64>, q: seq<Ptr>, c: Ptr)
    requires Sorted(key, q) && c !in q && key'.Keys == key.Keys && forall x :: x in key && x != c ==> key'[x] == key[x]
    ensures Sorted(key', q)
  {
  }

  lemma ClimbMove(s0: Shape, key0: map<Ptr, U64>, goal: map<Ptr, U64>, s: Shape, key: map<Ptr, U64>, c: Ptr, p: Ptr,
                  key': map<Ptr, U64>)
    requires Climbing(s0, key0, goal, s, key, c) && c != s0.root && c in goal && key' == key[c := goal[c]] && c in s.con
    requires p == s.con[c].parent
    ensures p in s.con && c in key && InWindow(key') && Sorted(key', Without(s.con[p].queue, c))
    ensures c !in Without(s.con[p].queue, c)
    ensures Keyed(key', s.con[p].queue) && Climbing(s0, key0, goal, s.(con := Moved(s.con, key', p, c)), key', p)
  {
    hide Sorted, Insert, Without, AllSorted, Chain, Keyed, InWindow, Forest, Under, SameContents;
    ClimbKeys(s0, key0, goal, s, key, c);
    MoveStep(s, key, c, key');
    SameTrans(s0.con, s.con, Moved(s.con, key', p, c));
  }

  lemma ClimbKeys(s0: Shape, key0: map<Ptr, U64>, goal: map<Ptr, U64>, s: Shape, key: map<Ptr, U64>, c: Ptr)
    requires Climbing(s0, key0, goal, s, key, c) && c != s0.root
    ensures var p, key' := s0.con[c].parent, key[c := goal[c]];
            && c in goal && c in s.con && p == s.con[c].parent && p in s.con && c in s.con[p].queue && c in key
            && p in s0.con && Under(s0, p, s0.root)
            && InWindow(key') && forall x :: x in key0 ==> key'[x] == if x in Chain(s0, p) then key0[x] else goal[x]
  {
    hide Sorted, AllSorted, Chain, Together, InWindow;
    ChainUp(s0, c);
    MixedWindow(key0, goal, key[c := goal[c]]);
  }

  // Run times of before and after a charge lie in one window.
  ghost predicate Together(key: map<Ptr, U64>, goal: map<Ptr, U64>) {
    exists b: U64 :: Window(key, key.Keys, b) && Window(goal, goal.Keys, b)
  }

  // With one of the run times charged they still do.
  lemma MixedTogether(key: map<Ptr, U64>, goal: map<Ptr, U64>, mixed: map<Ptr, U64>)
    requires Together(key, goal) && mixed.Keys == key.Keys == goal.Keys
    requires forall x :: x in mixed ==> mixed[x] == key[x] || mixed[x] == goal[x]
    ensures Together(mixed, goal) && InWindow(mixed)
  {
    var b: U64 :| Window(key, key.Keys, b) && Window(goal, goal.Keys, b);
    assert Window(mixed, mixed.Keys, b);
  }

  lemma MixedWindow(key: map<Ptr, U64>, goal: map<Ptr, U64>, mixed: map<Ptr, U64>)
    requires Together(key, goal) && mixed.Keys == key.Keys == goal.Keys
    requires forall x :: x in mixed ==> mixed[x] == key[x] || mixed[x] == goal[x]
    ensures InWindow(mixed)
  {
    var b: U64 :| Window(key, key.Keys, b) && Window(goal, goal.Keys, b);
    assert Window(mixed, mixed.Keys, b);
  }

  lemma ChainUp(s: Shape, c: Ptr)
    requires Forest(s) && c in s.con && c != s.root
    ensures var p := s.con[c].parent; p in s.con && Chain(s, c) == {c} + Chain(s, p) && c !in Chain(s, p)
  {
  }

  lemma SameTrans(a: Cons, b: Cons, c: Cons)
    requires SameContents(a, b) && SameContents(b, c)
    ensures SameContents(a, c)
  {
  }

  lemma ClimbLook(s0: Shape, key0: map<Ptr, U64>, goal: map<Ptr, U64>, s: Shape, key: map<Ptr, U64>, c: Ptr)
    requires Climbing(s0, key0, goal, s, key, c)
    ensures c in s.con && (s.con[c].parent == NULL <==> c == s.root)
    ensures c != s.root ==> c in key && c in goal && c in key0 && key[c] == key0[c]
    ensures c != s.root ==> s.con[c].parent in s.con && Level(s, s.con[c].parent) > Level(s, c)
    ensures c != s.root ==> s.con[c].parent in s0.con && Depth(s0, s.con[c].parent) < Depth(s0, c)
  {
    hide AllSorted, InWindow, Own, Counted;
  }

  // A round of the loop, which began at home.
  ghost predicate ClimbAt(s0: Shape, key0: map<Ptr, U64>, goal: map<Ptr, U64>, s: Shape, key: map<Ptr, U64>, c: Ptr,
                          home: Ptr, delta: nat) {
    && Climbing(s0, key0, goal, s, key, c) && home in s0.con && Chain(s0, c) <= Chain(s0, home)
    && forall x :: x in Chain(s0, home) ==> x in goal && goal[x] == (key0[x] + delta) % WORD
  }

  ghost function Depth(s: Shape, c: Ptr): nat { if c in s.depth then s.depth[c] else 0 }

  lemma ClimbNext(s0: Shape, key0: map<Ptr, U64>, goal: map<Ptr, U64>, s: Shape, key: map<Ptr, U64>, c: Ptr, home: Ptr,
                  delta: nat)
    requires ClimbAt(s0, key0, goal, s, key, c, home, delta) && c in s.con && s.con[c].parent != NULL
    ensures s.con[c].parent in s.con && c in key && c in s.con[s.con[c].parent].queue && c in goal && c != s0.root
    ensures goal[c] == (key[c] + delta) % WORD && s.con[c].parent in s0.con
    ensures Chain(s0, s.con[c].parent) <= Chain(s0, home)
    ensures Depth(s0, s.con[c].parent) < Depth(s0, c)
  {
    hide AllSorted, Under, InWindow, Sorted, Chain, Nested, Own, Counted, SameContents;
    ClimbLook(s0, key0, goal, s, key, c);
    ClimbKeys(s0, key0, goal, s, key, c);
    ChainUp(s0, c);
  }

  lemma ClimbRound(s0: Shape, key0: map<Ptr, U64>, goal: map<Ptr, U64>, s: Shape, key: map<Ptr, U64>, c: Ptr, home: Ptr,
                   delta: nat, p: Ptr, key': map<Ptr, U64>)
    requires ClimbAt(s0, key0, goal, s, key, c, home, delta) && c in s.con && p == s.con[c].parent && c in goal
    requires c != s0.root
    requires key' == key[c := goal[c]] && p in s0.con && Chain(s0, p) <= Chain(s0, home)
    ensures p in s.con && c in key' && Keyed(key', s.con[p].queue)
    ensures InWindow(key') && Sorted(key', Without(s.con[p].queue, c)) && c !in Without(s.con[p].queue, c)
    ensures ClimbAt(s0, key0, goal, s.(con := Moved(s.con, key', p, c)), key', p, home, delta)
  {
    hide AllSorted, SameContents, Under, InWindow, Sorted, Chain, Forest;
    ClimbMove(s0, key0, goal, s, key, c, p, key');
    hide Climbing;
  }

  lemma ClimbEnd(s0: Shape, key0: map<Ptr, U64>, goal: map<Ptr, U64>, s: Shape, key: map<Ptr, U64>)
    requires Climbing(s0, key0, goal, s, key, s0.root)
    ensures key == goal && SameContents(s0.con, s.con) && AllSorted(s.con, key) && Forest(s) && s == s0.(con := s.con)
  {
    assert forall x :: x in goal ==> x in key && key[x] == goal[x];
  }

  // Order of queues and run times aside, the state is the same.
  lemma ContentsInv(s: Shape, key: map<Ptr, U64>, procs: Procs, cpus: seq<Cpu>, vac: nat, s': Shape,
                    key': map<Ptr, U64>)
    requires Inv(s, key, procs, cpus, vac) && Forest(s') && s' == s.(con := s'.con) && SameContents(s.con, s'.con)
    requires AllSorted(s'.con, key') && Keys(s'.con, s'.root, key', procs)
    ensures Inv(s', key', procs, cpus, vac) && SameGroups(s.con, s'.con)
  {
    hide Forest, AllSorted, Current, Chains;
    assert Members(s'.con, procs);
    hide Members, Keys;
    ChainsSame(s, s', procs, procs);
  }

  // ---- switching ----

  // A process that leaves its CPU without entering a queue.
  lemma LeaveInv(s: Shape, key: map<Ptr, U64>, procs: Procs, cpus: seq<Cpu>, i: nat, st: State)
    requires Inv(s, key, procs, cpus, |cpus|) && i < |cpus| && st != RUNNING
    requires cpus[i].thisproc in procs
    requires var p := procs[cpus[i].thisproc]; p.state == RUNNING && if p.idle then st == RUNNABLE else st != RUNNABLE
    ensures var p := cpus[i].thisproc; Inv(s, key, procs[p := procs[p].(state := st)], cpus, i)
  {
    hide Forest, AllSorted, Keys, Current, Chains;
    var p := cpus[i].thisproc;
    var procs' := procs[p := procs[p].(state := st)];
    assert Members(s.con, procs');
    hide Members;
    StateChange(procs, cpus, p, st, i);
    ChainsSame(s, s, procs, procs');
    KeysSame(s.con, s.root, key, procs, s.con, procs');
  }

  // The idle process of a vacant CPU can be switched to.
  lemma IdleReady(procs: Procs, cpus: seq<Cpu>, i: nat)
    requires Current(procs, cpus, i) && i < |cpus|
    ensures cpus[i].idle in procs && procs[cpus[i].idle].state == RUNNABLE
  {
    var x := cpus[i].idle;
    assert !RunsOn(cpus, i, x);
  }

  lemma RunCurrent(procs: Procs, cpus: seq<Cpu>, i: nat, p: Ptr, p': Proc)
    requires Current(procs, cpus, i) && i < |cpus| && p in procs && procs[p].state == RUNNABLE
    requires procs[p].idle ==> p == cpus[i].idle
    requires p'.state == RUNNING && p'.idle == procs[p].idle
    ensures Current(procs[p := p'], cpus[i := cpus[i].(thisproc := p)], |cpus|)
  {
    hide Idles, Busy, Placed;
    RunIdles(procs, cpus, i, p, p');
    RunBusy(procs, cpus, i, p, p');
    RunPlaced(procs, cpus, i, p, p');
  }

  lemma RunPlaced(procs: Procs, cpus: seq<Cpu>, i: nat, p: Ptr, p': Proc)
    requires Placed(procs, cpus, i) && i < |cpus| && p in procs && procs[p].state == RUNNABLE && p'.state == RUNNING
    ensures Placed(procs[p := p'], cpus[i := cpus[i].(thisproc := p)], |cpus|)
  {
    var procs', cpus' := procs[p := p'], cpus[i := cpus[i].(thisproc := p)];
    forall x | x in procs' && procs'[x].state == RUNNING ensures RunsOn(cpus', |cpus|, x) {
      if x == p {
        assert cpus'[i].thisproc == x;
      } else {
        assert RunsOn(cpus, i, x);
        var j :| 0 <= j < |cpus| && j != i && cpus[j].thisproc == x;
        assert cpus'[j].thisproc == x;
      }
    }
  }

  lemma RunIdles(procs: Procs, cpus: seq<Cpu>, i: nat, p: Ptr, p': Proc)
    requires Idles(procs, cpus) && i < |cpus| && p in procs && p'.state == RUNNING && p'.idle == procs[p].idle
    ensures Idles(procs[p := p'], cpus[i := cpus[i].(thisproc := p)])
  {
    var procs', cpus' := procs[p := p'], cpus[i := cpus[i].(thisproc := p)];
    assert forall j :: 0 <= j < |cpus| ==> cpus'[j].idle == cpus[j].idle;
    forall x | x in procs' && procs'[x].idle ensures IdlesOn(cpus', x) {
      assert IdlesOn(cpus, x);
      var j :| 0 <= j < |cpus| && cpus[j].idle == x;
      assert cpus'[j].idle == x;
    }
  }

  lemma RunBusy(procs: Procs, cpus: seq<Cpu>, i: nat, p: Ptr, p': Proc)
    requires Busy(procs, cpus, i) && i < |cpus| && p in procs && procs[p].state == RUNNABLE
    requires p'.state == RUNNING && p'.idle == procs[p].idle && (p'.idle ==> p == cpus[i].idle)
    ensures Busy(procs[p := p'], cpus[i := cpus[i].(thisproc := p)], |cpus|)
  {
    var cpus' := cpus[i := cpus[i].(thisproc := p)];
    assert forall j :: 0 <= j < |cpus| && j != i ==> cpus'[j] == cpus[j] && cpus[j].thisproc != p;
  }

  // Switching to the idle process.
  lemma RunIdle(s: Shape, key: map<Ptr, U64>, procs: Procs, cpus: seq<Cpu>, i: nat, p': Proc)
    requires Inv(s, key, procs, cpus, i) && i < |cpus| && cpus[i].idle in procs
    requires var q := procs[cpus[i].idle]; q.idle && p'.state == RUNNING && p'.idle && p'.home == q.home
    ensures Inv(s, key, procs[cpus[i].idle := p'], cpus[i := cpus[i].(thisproc := cpus[i].idle)], |cpus|)
  {
    hide Forest, AllSorted, Keys, Current, Chains;
    var p := cpus[i].idle;
    var procs' := procs[p := p'];
    assert Members(s.con, procs');
    hide Members;
    IdleReady(procs, cpus, i);
    RunCurrent(procs, cpus, i, p, p');
    ChainsSame(s, s, procs, procs');
    KeysSame(s.con, s.root, key, procs, s.con, procs');
  }

  // The best process is in a container that is reached from the root.
  lemma {:induction false} BestUnder(s: Shape, c: Ptr, p: Ptr) returns (h: Ptr)
    requires Forest(s) && c in s.con && Best(s, c, p) && Under(s, c, s.root)
    ensures h in s.con && p in s.con[h].queue && p !in s.con && Under(s, h, s.root)
    decreases s.bottom - s.depth[c]
  {
    var i: nat :| Least(s, c, i) && (var x := s.con[c].queue[i]; if x in s.con then Best(s, x, p) else x == p);
    var x := s.con[c].queue[i];
    assert x in s.con[c].queue;
    if x in s.con {
      h := BestUnder(s, x, p);
    } else {
      h := c;
    }
  }

  lemma DropSorted(s: Shape, key: map<Ptr, U64>, h: Ptr, p: Ptr)
    requires AllSorted(s.con, key) && h in s.con && p in s.con[h].queue && p !in s.con
    ensures AllSorted(Dropped(s.con, h, p), key) && SameGroups(s.con, Dropped(s.con, h, p))
    ensures forall x :: x in Dropped(s.con, h, p)[h].queue <==> x in s.con[h].queue && x != p
  {
    SortedDistinct(key, s.con[h].queue);
    RemoveSorted(key, key, s.con[h].queue, p);
    WithoutDistinct(s.con[h].queue, p);
  }

  // Switching to the process that was picked.
  lemma RunPicked(s: Shape, key: map<Ptr, U64>, procs: Procs, cpus: seq<Cpu>, i: nat, h: Ptr, p: Ptr,
                  p': Proc)
    requires Inv(s, key, procs, cpus, i) && i < |cpus| && Best(s, s.root, p)
    requires h in s.con && p in s.con[h].queue && p !in s.con && p in procs
    requires p'.state == RUNNING && !p'.idle && p'.home == procs[p].home
    ensures Inv(s.(con := Dropped(s.con, h, p)), key, procs[p := p'], cpus[i := cpus[i].(thisproc := p)], |cpus|)
    ensures SameGroups(s.con, Dropped(s.con, h, p))
  {
    hide Current, AllSorted, Keys, Best;
    var s', procs' := s.(con := Dropped(s.con, h, p)), procs[p := p'];
    PickedWaits(s.con, procs, h, p);
    DropSorted(s, key, h, p);
    MembersDropped(s, procs, h, p, p');
    var g := BestUnder(s, s.root, p);
    PickedWaits(s.con, procs, g, p);
    hide Members, SameGroups;
    DropForest(s, h, p);
    hide Forest, Under;
    RunCurrent(procs, cpus, i, p, p');
    ChainsRun(s, s', procs, p, p');
    KeysSame(s.con, s.root, key, procs, s'.con, procs');
  }

  lemma ChainsRun(s: Shape, s': Shape, procs: Procs, p: Ptr, p': Proc)
    requires Forest(s) && Forest(s') && s'.root == s.root && SameGroups(s.con, s'.con) && p in procs
    requires Members(s.con, procs) && Members(s'.con, procs[p := p']) && Chains(s, procs)
    requires p'.home == procs[p].home && p'.home in s.con && Under(s, p'.home, s.root)
    ensures Chains(s', procs[p := p'])
  {
    hide Under;
    forall x | x in procs && (x == p || (procs[x].state == RUNNING && !procs[x].idle))
      ensures Under(s', procs[x].home, s.root)
    {
      UnderSame(s, s', procs[x].home);
    }
  }

  // What is taken out of a queue is a process, and it was runnable.
  lemma PickedWaits(con: Cons, procs: Procs, h: Ptr, p: Ptr)
    requires Members(con, procs) && h in con && p in con[h].queue && p !in con
    ensures p in procs && Waiting(procs[p], h)
  {
  }

  lemma MembersDropped(s: Shape, procs: Procs, h: Ptr, p: Ptr, p': Proc)
    requires Members(s.con, procs) && h in s.con && p in s.con[h].queue && p in procs
    requires p'.state == RUNNING && p'.home == procs[p].home
    requires forall x :: x in Dropped(s.con, h, p)[h].queue <==> x in s.con[h].queue && x != p
    ensures Members(Dropped(s.con, h, p), procs[p := p'])
  {
  }

  // ---- processes and containers that come and go ----

  // A process record appears, changes container while unused, is marked killed, or disappears as a zombie.
  predicate Offline(p: Proc) { !p.idle && (p.state == UNUSED || p.state == ZOMBIE || p.state == SLEEPING
                                           || p.state == DEEPSLEEPING) }

  lemma AddInv(s: Shape, key: map<Ptr, U64>, procs: Procs, cpus: seq<Cpu>, p: Ptr, p': Proc)
    requires Inv(s, key, procs, cpus, |cpus|) && p != NULL && p !in s.con && (p in procs ==> Offline(procs[p]))
    requires Offline(p') && p'.home in s.con
    ensures Inv(s, key[p := 0], procs[p := p'], cpus, |cpus|) <==> InWindow(key[p := 0])
  {
    hide Forest, Current, Chains, InWindow;
    var procs', key' := procs[p := p'], key[p := 0];
    assert Members(s.con, procs');
    forall c | c in s.con ensures Sorted(key', s.con[c].queue) {
      assert p !in s.con[c].queue;
    }
    hide Members, AllSorted;
    ChainsSame(s, s, procs, procs');
    OfflineCurrent(procs, cpus, p, p');
  }

  lemma OfflineCurrent(procs: Procs, cpus: seq<Cpu>, p: Ptr, p': Proc)
    requires Current(procs, cpus, |cpus|) && (p in procs ==> Offline(procs[p])) && Offline(p')
    ensures Current(procs[p := p'], cpus, |cpus|)
  {
    hide RunsOn, IdlesOn;
    assert Idles(procs[p := p'], cpus);
    assert Busy(procs[p := p'], cpus, |cpus|) by { hide Idles; }
  }

  lemma ReapCurrent(procs: Procs, cpus: seq<Cpu>, p: Ptr)
    requires Current(procs, cpus, |cpus|) && p in procs && Offline(procs[p])
    ensures Current(procs - {p}, cpus, |cpus|)
  {
    hide RunsOn, IdlesOn;
    assert Idles(procs - {p}, cpus);
    assert Busy(procs - {p}, cpus, |cpus|) by { hide Idles; }
  }

  lemma ReapInv(s: Shape, key: map<Ptr, U64>, procs: Procs, cpus: seq<Cpu>, p: Ptr)
    requires Inv(s, key, procs, cpus, |cpus|) && p in procs && Offline(procs[p])
    ensures Inv(s, key - {p}, procs - {p}, cpus, |cpus|)
  {
    hide Forest, Chains, Current, InWindow;
    var procs' := procs - {p};
    assert Members(s.con, procs');
    ReapSorted(s.con, key, procs, p);
    FewerKeys(key, p);
    assert Keys(s.con, s.root, key - {p}, procs');
    hide Members, AllSorted, Keys;
    ChainsSame(s, s, procs, procs');
    ReapCurrent(procs, cpus, p);
  }

  lemma FewerKeys(key: map<Ptr, U64>, p: Ptr)
    requires InWindow(key)
    ensures InWindow(key - {p})
  {
    var b: U64 :| Window(key, key.Keys, b);
    assert Window(key - {p}, (key - {p}).Keys, b);
  }

  lemma ReapSorted(con: Cons, key: map<Ptr, U64>, procs: Procs, p: Ptr)
    requires AllSorted(con, key) && Members(con, procs) && p in procs && Offline(procs[p])
    ensures AllSorted(con, key - {p})
  {
    forall c | c in con ensures Sorted(key - {p}, con[c].queue) {
      assert p !in con[c].queue;
      SortedSame(key, key - {p}, con[c].queue);
    }
  }

  lemma KilledInv(s: Shape, key: map<Ptr, U64>, procs: Procs, cpus: seq<Cpu>, p: Ptr)
    requires Inv(s, key, procs, cpus, |cpus|) && p in procs
    ensures Inv(s, key, procs[p := procs[p].(killed := true)], cpus, |cpus|)
  {
    hide Forest, AllSorted, Chains, Current;
    var procs' := procs[p := procs[p].(killed := true)];
    assert Members(s.con, procs');
    hide Members;
    ChainsSame(s, s, procs, procs');
    hide Keys;
    KeysSame(s.con, s.root, key, procs, s.con, procs');
    KilledCurrent(procs, cpus, p);
  }

  lemma KilledCurrent(procs: Procs, cpus: seq<Cpu>, p: Ptr)
    requires Current(procs, cpus, |cpus|) && p in procs
    ensures Current(procs[p := procs[p].(killed := true)], cpus, |cpus|)
  {
    hide RunsOn, IdlesOn;
  }

  // A container appears below parent, out of every queue.
  function Born(s: Shape, c: Ptr, parent: Ptr): (r: Shape)
    requires parent in s.depth
  {
    var d := s.depth[parent] + 1;
    Shape(s.con[c := Con(parent, [], 0)], s.root, s.depth[c := d], if s.bottom < d then d else s.bottom)
  }

  lemma BornForest(s: Shape, c: Ptr, parent: Ptr)
    requires Forest(s) && parent in s.con && c !in s.con && c != NULL && forall d :: d in s.con ==> c !in s.con[d].queue
    ensures Forest(Born(s, c, parent))
  {
  }

  lemma {:induction false} BornUnder(s: Shape, c: Ptr, parent: Ptr, g: Ptr)
    requires Forest(s) && parent in s.con && c !in s.con && Forest(Born(s, c, parent)) && g in s.con
    requires Under(s, g, s.root)
    ensures Under(Born(s, c, parent), g, s.root)
    decreases s.depth[g]
  {
    if g != s.root {
      BornUnder(s, c, parent, s.con[g].parent);
    }
  }

  lemma BornMembers(con: Cons, key: map<Ptr, U64>, procs: Procs, c: Ptr, parent: Ptr)
    requires AllSorted(con, key) && Members(con, procs) && c !in con && c !in procs
    requires forall d :: d in con ==> c !in con[d].queue
    ensures Members(con[c := Con(parent, [], 0)], procs) && AllSorted(con[c := Con(parent, [], 0)], key[c := 0])
  {
    forall d | d in con ensures Sorted(key[c := 0], con[d].queue) {
      assert Sorted(key, con[d].queue);
    }
  }

  lemma BornInv(s: Shape, key: map<Ptr, U64>, procs: Procs, cpus: seq<Cpu>, c: Ptr, parent: Ptr)
    requires Inv(s, key, procs, cpus, |cpus|) && c != NULL && c !in s.con && c !in procs && parent in s.con
    ensures parent in s.depth
    ensures Inv(Born(s, c, parent), key[c := 0], procs, cpus, |cpus|) <==> InWindow(key[c := 0])
  {
    hide Current, Under, InWindow;
    assert parent in s.depth && forall d :: d in s.con ==> c !in s.con[d].queue;
    BornForest(s, c, parent);
    hide Forest;
    var s' := Born(s, c, parent);
    BornMembers(s.con, key, procs, c, parent);
    hide AllSorted, Members;
    forall x | x in procs && procs[x].state == RUNNING && !procs[x].idle ensures Under(s', procs[x].home, s.root) {
      BornUnder(s, c, parent, procs[x].home);
    }
  }

  // A group enters its parent's queue.
  lemma {:induction false} GroupUnder(s: Shape, key: map<Ptr, U64>, g: Ptr, c: Ptr)
    requires Forest(s) && g in s.con && g != s.root && g in key && Keyed(key, s.con[s.con[g].parent].queue)
    requires Forest(s.(con := Entered(s.con, key, s.con[g].parent, g))) && c in s.con && Under(s, c, s.root)
    ensures Under(s.(con := Entered(s.con, key, s.con[g].parent, g)), c, s.root)
    decreases s.depth[c]
  {
    if c != s.root {
      GroupUnder(s, key, g, s.con[c].parent);
    }
  }

  lemma GroupMembers(con: Cons, key: map<Ptr, U64>, procs: Procs, p: Ptr, g: Ptr)
    requires Members(con, procs) && p in con && g in con && Keyed(key, con[p].queue) && g in key
    ensures Members(Entered(con, key, p, g), procs)
  {
  }

  lemma GroupInv(s: Shape, key: map<Ptr, U64>, procs: Procs, cpus: seq<Cpu>, g: Ptr)
    requires Inv(s, key, procs, cpus, |cpus|) && g in s.con && g != s.root
    ensures s.con[g].parent in s.con && g in key && Keyed(key, s.con[s.con[g].parent].queue) && InWindow(key)
    ensures g !in s.con[s.con[g].parent].queue ==>
              Inv(s.(con := Entered(s.con, key, s.con[g].parent, g)), key, procs, cpus, |cpus|)
  {
    hide Current, Under, Insert;
    var p := s.con[g].parent;
    WindowKeys(s.con, s.root, key, procs);
    hide InWindow;
    if g !in s.con[p].queue {
      var s' := s.(con := Entered(s.con, key, p, g));
      EnterForest(s, s'.con, p, g);
      EnterSorted(s.con, key, p, g);
      hide Forest, AllSorted, Sorted;
      GroupMembers(s.con, key, procs, p, g);
      hide Members;
      forall x | x in procs && procs[x].state == RUNNING && !procs[x].idle ensures Under(s', procs[x].home, s.root) {
        GroupUnder(s, key, g, procs[x].home);
      }
    }
  }

  // What a scheduling call charges: the time since the process came to its CPU.
  function Elapsed(p: Proc, now: U64): (r: U64) { (now - p.start_time) % WORD }

  // The run times after the current process p went back into its queue.
  ghost function Paid(s: Shape, key: map<Ptr, U64>, p: Ptr, home: Ptr, delta: nat): (r: map<Ptr, U64>)
    requires Forest(s) && home in s.con
  {
    Charged(key, {p} + Chain(s, home), delta)
  }

  // The run times of before and after the charge lie in one window.
  lemma PaidKeys(s: Shape, key: map<Ptr, U64>, procs: Procs, p: Ptr, home: Ptr, delta: nat)
    requires Forest(s) && home in s.con && Keys(s.con, s.root, key, procs)
    requires Together(key, Paid(s, key, p, home, delta))
    ensures Keys(s.con, s.root, Paid(s, key, p, home, delta), procs)
  {
    hide Forest, Chain, InWindow, Together;
    var key' := Paid(s, key, p, home, delta);
    assert key'.Keys == key.Keys;
    TogetherEach(key, key');
    forall x | x in key ensures x in key' {
      assert x in key.Keys;
    }
  }

  lemma TogetherEach(key: map<Ptr, U64>, goal: map<Ptr, U64>)
    requires Together(key, goal)
    ensures InWindow(key) && InWindow(goal)
  {
  }

  // The process itself is charged while it is in no queue.
  lemma PaySorted(con: Cons, key: map<Ptr, U64>, goal: map<Ptr, U64>, p: Ptr, key': map<Ptr, U64>)
    requires AllSorted(con, key) && Together(key, goal) && key.Keys == goal.Keys && p in key
    requires key' == key[p := goal[p]]
    requires forall c :: c in con ==> p !in con[c].queue
    ensures AllSorted(con, key') && Together(key', goal) && InWindow(key')
  {
    hide Less, Window;
    assert key'.Keys == key.Keys;
    MixedTogether(key, goal, key');
    forall c | c in con ensures Sorted(key', con[c].queue) {
      SortedElsewhere(key, key', con[c].queue, p);
    }
  }

  // The climb starts once the process is back in its queue.
  lemma ClimbStart(s: Shape, key: map<Ptr, U64>, procs: Procs, p: Ptr, home: Ptr, delta: nat, key': map<Ptr, U64>,
                   s': Shape)
    requires Forest(s) && home in s.con && Keys(s.con, s.root, key, procs) && Under(s, home, s.root)
    requires p in procs && p !in s.con && p in key && key' == key[p := (key[p] + delta) % WORD]
    requires AllSorted(s'.con, key') && Forest(s') && s' == s.(con := s'.con) && SameGroups(s.con, s'.con)
    requires Together(key', Paid(s, key, p, home, delta))
    ensures Climbing(s', key', Paid(s, key, p, home, delta), s', key', home)
  {
    hide AllSorted, Under, Forest, Together, InWindow;
    UnderSame(s, s', home);
    ChainSame(s, s', home);
    assert s'.con.Keys == s.con.Keys;
    hide SameGroups;
    PaidStart(s, key, p, home, delta, key');
    forall x | x in s'.con.Keys - {s'.root} ensures x in key'.Keys {
      assert x in s.con.Keys;
      assert x in s.con;
    }
  }

  lemma PaidAt(s: Shape, key: map<Ptr, U64>, p: Ptr, home: Ptr, delta: nat)
    requires Forest(s) && home in s.con && p in key
    ensures Paid(s, key, p, home, delta).Keys == key.Keys
    ensures Paid(s, key, p, home, delta)[p] == (key[p] + delta) % WORD
  {
    hide Forest, Chain;
  }

  lemma PaidStart(s: Shape, key: map<Ptr, U64>, p: Ptr, home: Ptr, delta: nat, key': map<Ptr, U64>)
    requires Forest(s) && home in s.con && p !in s.con && p in key && key' == key[p := (key[p] + delta) % WORD]
    ensures Paid(s, key, p, home, delta).Keys == key'.Keys
    ensures forall x :: x in key' && x !in Chain(s, home) ==> key'[x] == Paid(s, key, p, home, delta)[x]
  {
    hide Forest, Chain, Charged;
    ChargedAt(key, {p} + Chain(s, home), delta);
  }

  // The current process of a CPU is charged and goes back into its queue: what the steps need, and what they give.
  lemma PayFacts(s: Shape, key: map<Ptr, U64>, procs: Procs, cpus: seq<Cpu>, p: Ptr)
    requires Inv(s, key, procs, cpus, |cpus|) && p in procs && !procs[p].idle && procs[p].state == RUNNING
    ensures p in key && procs[p].home in s.con && p !in s.con && p != NULL && Under(s, procs[p].home, s.root)
    ensures s.con.Keys - {s.root} <= key.Keys && forall c :: c in s.con ==> p !in s.con[c].queue
  {
    hide Current, Nested, Own, Counted, AllSorted;
    assert Under(s, procs[p].home, s.root);
    hide Under;
    forall x | x in s.con.Keys - {s.root} ensures x in key.Keys {
      assert x in s.con;
    }
  }

  lemma PayStart(s: Shape, key: map<Ptr, U64>, procs: Procs, cpus: seq<Cpu>, p: Ptr, delta: nat,
                 key': map<Ptr, U64>)
    requires Inv(s, key, procs, cpus, |cpus|) && p in procs && !procs[p].idle && procs[p].state == RUNNING
    requires p in key && key' == key[p := (key[p] + delta) % WORD] && procs[p].home in s.con
    requires Together(key, Paid(s, key, p, procs[p].home, delta))
    ensures Sorted(key', s.con[procs[p].home].queue) && p !in s.con[procs[p].home].queue
    ensures InWindow(key') && p in key' && Keyed(key', s.con[procs[p].home].queue)
    ensures var s1 := s.(con := Entered(s.con, key', procs[p].home, p));
            ClimbAt(s1, key', Paid(s, key, p, procs[p].home, delta), s1, key', procs[p].home, procs[p].home, delta)
  {
    hide Current, Forest, Under, Chains, Members, Chain, Keys, InWindow, Together;
    var home := procs[p].home;
    PayFacts(s, key, procs, cpus, p);
    PaidAt(s, key, p, home, delta);
    PaySorted(s.con, key, Paid(s, key, p, home, delta), p, key');
    assert Sorted(key', s.con[home].queue);
    hide Sorted, AllSorted, Keyed, Insert;
    var s1 := s.(con := Entered(s.con, key', home, p));
    EnterProc(s, key', p, home);
    hide SameGroups;
    ClimbStart(s, key, procs, p, home, delta, key', s1);
    PayChain(s, key, p, home, delta, key', s1);
    hide Climbing, Paid;
  }

  lemma PayChain(s: Shape, key: map<Ptr, U64>, p: Ptr, home: Ptr, delta: nat, key': map<Ptr, U64>, s1: Shape)
    requires Forest(s) && Forest(s1) && home in s.con && p !in s.con && p in key
    requires key' == key[p := (key[p] + delta) % WORD]
    requires s1.root == s.root && SameGroups(s.con, s1.con) && s.con.Keys - {s.root} <= key.Keys
    ensures forall x :: x in Chain(s1, home) ==>
              && x in key' && x in Paid(s, key, p, home, delta)
              && Paid(s, key, p, home, delta)[x] == (key'[x] + delta) % WORD
  {
    hide Forest, Chain;
    ChainSame(s, s1, home);
    hide SameGroups;
    var r := Chain(s, home);
    forall x | x in r
      ensures x in key' && x in Paid(s, key, p, home, delta)
      ensures Paid(s, key, p, home, delta)[x] == (key'[x] + delta) % WORD
    {
      assert x in s.con.Keys - {s.root} && x in key.Keys && x != p;
    }
  }

  lemma EnterAny(con: Cons, key: map<Ptr, U64>, key': map<Ptr, U64>, c: Ptr, p: Ptr, con2: Cons)
    requires c in con && p in key && p in key' && Keyed(key, con[c].queue) && Keyed(key', con[c].queue)
    requires SameContents(Entered(con, key', c, p), con2)
    ensures SameContents(Entered(con, key, c, p), con2)
  {
    hide Insert, Keyed;
  }

  lemma ContentsKeys(con: Cons, con': Cons)
    requires SameContents(con, con')
    ensures con'.Keys == con.Keys
  {
  }

  lemma GroupsTrans(a: Cons, b: Cons, c: Cons)
    requires SameGroups(a, b) && SameGroups(b, c)
    ensures SameGroups(a, c)
  {
  }

  lemma PayEnd(s: Shape, key: map<Ptr, U64>, procs: Procs, cpus: seq<Cpu>, i: nat, p: Ptr, delta: nat,
               key': map<Ptr, U64>, con2: Cons)
    requires Inv(s, key, procs, cpus, |cpus|) && p in procs && !procs[p].idle && procs[p].state == RUNNING
    requires i < |cpus| && cpus[i].thisproc == p && p in key' && procs[p].home in s.con
    requires Together(key, Paid(s, key, p, procs[p].home, delta))
    requires Keyed(key', s.con[procs[p].home].queue) && SameContents(Entered(s.con, key', procs[p].home, p), con2)
    requires Forest(s.(con := con2)) && AllSorted(con2, Paid(s, key, p, procs[p].home, delta))
    ensures Inv(s.(con := con2), Paid(s, key, p, procs[p].home, delta), procs[p := procs[p].(state := RUNNABLE)], cpus,
                i)
    ensures SameGroups(s.con, con2)
  {
    hide Forest, Current, Chains, Members, AllSorted, Keys, Sorted, Insert, Chain, Keyed, SameGroups, SameContents,
         Together;
    var home, procs' := procs[p].home, procs[p := procs[p].(state := RUNNABLE)];
    EnterInv(s, key, procs, cpus, p, procs', i);
    var con1 := Entered(s.con, key, home, p);
    EnterAny(s.con, key, key', home, p, con2);
    ContentsKeys(con1, con2);
    PaidKeys(s, key, procs, p, home, delta);
    KeysSame(s.con, s.root, Paid(s, key, p, home, delta), procs, con2, procs');
    hide Inv;
    ContentsInv(s.(con := con1), key, procs', cpus, i, s.(con := con2), Paid(s, key, p, home, delta));
    GroupsTrans(s.con, con1, con2);
  }

  // What simple_sched does once the state mid is reached: the CPU i, which ran p, takes up the best process, or
  // its idle process if there is none.
  ghost predicate Switched(mid: Shape, procs: Procs, cpus: seq<Cpu>, i: nat, panic: bool, p: Ptr, now: U64, con': Cons,
                           procs': Procs, cpus': seq<Cpu>) {
    && i < |cpus| && i < |cpus'| && Forest(mid)
    && var next := cpus'[i].thisproc;
    && next in procs && cpus' == cpus[i := cpus[i].(thisproc := next)]
    && procs' == procs[next := Resumed(procs[next], next != p, now)]
    && if panic || !Alive(mid, mid.root) then
         next == cpus[i].idle && con' == mid.con
       else
         Best(mid, mid.root, next) && procs[next].home in mid.con && con' == Dropped(mid.con, procs[next].home, next)
  }

  function Resumed(p: Proc, switched: bool, now: U64): (r: Proc) {
    p.(state := RUNNING, start_time := if switched then now else p.start_time)
  }

  lemma SwitchStarts(mid: Shape, procs: Procs, cpus: seq<Cpu>, i: nat, panic: bool, p: Ptr, now: U64, con': Cons,
                     procs': Procs, cpus': seq<Cpu>)
    requires Switched(mid, procs, cpus, i, panic, p, now, con', procs', cpus')
    ensures procs'.Keys == procs.Keys && |cpus'| == |cpus|
    ensures var next := cpus'[i].thisproc;
            forall x :: x in procs ==>
              procs'[x].start_time == if x == next && next != p then now else procs[x].start_time
  {
    hide Forest, Alive, Best, Dropped;
  }

  lemma PickedRuns(s: Shape, key: map<Ptr, U64>, procs: Procs, cpus: seq<Cpu>, i: nat, h: Ptr, p: Ptr,
                   switched: bool, now: U64)
    requires Inv(s, key, procs, cpus, i) && i < |cpus| && Best(s, s.root, p)
    requires h in s.con && p in s.con[h].queue && p !in s.con
    ensures p in procs && Waiting(procs[p], h)
    ensures Inv(s.(con := Dropped(s.con, h, p)), key, procs[p := Resumed(procs[p], switched, now)],
                cpus[i := cpus[i].(thisproc := p)], |cpus|)
  {
    hide Current, AllSorted, Keys, Best, Forest, Chains;
    PickedWaits(s.con, procs, h, p);
    hide Members;
    RunPicked(s, key, procs, cpus, i, h, p, Resumed(procs[p], switched, now));
  }

  lemma IdleRuns(s: Shape, key: map<Ptr, U64>, procs: Procs, cpus: seq<Cpu>, i: nat, switched: bool,
                 now: U64)
    requires Inv(s, key, procs, cpus, i) && i < |cpus|
    ensures cpus[i].idle in procs && procs[cpus[i].idle].state == RUNNABLE
    ensures Inv(s, key, procs[cpus[i].idle := Resumed(procs[cpus[i].idle], switched, now)],
                cpus[i := cpus[i].(thisproc := cpus[i].idle)], |cpus|)
  {
    hide AllSorted, Keys, Forest, Chains, Members, Busy, Placed;
    IdleReady(procs, cpus, i);
    assert procs[cpus[i].idle].idle;
    hide Current;
    RunIdle(s, key, procs, cpus, i, Resumed(procs[cpus[i].idle], switched, now));
  }

  lemma PickedCases(s: Shape, p: Ptr)
    requires Picked(s, p)
    ensures Forest(s) && (p == NULL <==> !Alive(s, s.root)) && (p != NULL ==> Best(s, s.root, p))
  {
    if p != NULL {
      BestAlive(s, s.root, p);
    }
  }

  // The states a process may go to; the run times of before and after the charge have to lie in one window.
  ghost predicate MayLeave(s: Shape, key: map<Ptr, U64>, procs: Procs, cpus: seq<Cpu>, i: nat, st: State, now: U64) {
    && i < |cpus| && cpus[i].thisproc in procs && st != RUNNING && st != UNUSED
    && var p := cpus[i].thisproc;
    (procs[p].idle ==> st == RUNNABLE) && Together(key, KeysAfter(s, key, p, procs[p], st, now))
  }

  lemma RunningFacts(s: Shape, key: map<Ptr, U64>, procs: Procs, cpus: seq<Cpu>, i: nat)
    requires Inv(s, key, procs, cpus, |cpus|) && i < |cpus|
    ensures cpus[i].thisproc in procs && procs[cpus[i].thisproc].state == RUNNING
    ensures procs[cpus[i].thisproc].idle || procs[cpus[i].thisproc].home in s.con
  {
    hide AllSorted, Keys, Forest, Chains, Idles, Placed;
  }

  // The run times after the process p has left for the state st.
  ghost function KeysAfter(s: Shape, key: map<Ptr, U64>, p: Ptr, pr: Proc, st: State, now: U64): map<Ptr, U64> {
    if !pr.idle && st == RUNNABLE && Forest(s)
      && pr.home in s.con then Paid(s, key, p, pr.home, Elapsed(pr, now)) else key
  }

  // The process p, of the container home, and every container from there up to the root are charged delta; no other
  // run time changes.
  ghost predicate Larger(con: Cons, root: Ptr, key: map<Ptr, U64>, key': map<Ptr, U64>, p: Ptr, home: Ptr, delta: int) {
    && key'.Keys == key.Keys
    && forall x :: x in key ==>
         key'[x] == if x == p || Above(con, root, home, x) then (key[x] + delta) % WORD else key[x]
  }

  lemma LargerAfter(s: Shape, key: map<Ptr, U64>, p: Ptr, pr: Proc, now: U64)
    requires Forest(s) && pr.home in s.con && !pr.idle
    ensures Larger(s.con, s.root, key, KeysAfter(s, key, p, pr, RUNNABLE, now), p, pr.home, now - pr.start_time)
  {
    hide Forest, Chain, Above;
    var key' := KeysAfter(s, key, p, pr, RUNNABLE, now);
    assert key'.Keys == key.Keys;
    forall x | x in key
      ensures key'[x]
              == if x == p || Above(s.con, s.root, pr.home, x) then (key[x] + now - pr.start_time) % WORD else key[x]
    {
      ChainAbove(s, pr.home, x);
    }
  }

  function IdleProc(): Proc { Proc(RUNNING, true, false, NULL, 0) }

  // The idle processes are all there is, and every CPU runs its own.
  ghost predicate Booted(procs: Procs, cpus: seq<Cpu>, idle: seq<Ptr>) {
    && |cpus| == |idle|
    && (forall x :: x in procs ==> x in idle && procs[x] == IdleProc())
    && (forall j :: 0 <= j < |idle| ==> idle[j] in procs && cpus[j] == Cpu(idle[j], idle[j]))
  }

  lemma BootPlaced(procs: Procs, cpus: seq<Cpu>, idle: seq<Ptr>)
    requires Booted(procs, cpus, idle)
    ensures forall x :: x in procs ==> RunsOn(cpus, |cpus|, x) && IdlesOn(cpus, x)
  {
    forall x | x in procs ensures RunsOn(cpus, |cpus|, x) && IdlesOn(cpus, x) {
      var j :| 0 <= j < |idle| && idle[j] == x;
      assert cpus[j].thisproc == x && cpus[j].idle == x;
    }
  }

  lemma BootBusy(procs: Procs, cpus: seq<Cpu>, idle: seq<Ptr>)
    requires Distinct(idle) && Booted(procs, cpus, idle)
    ensures Busy(procs, cpus, |cpus|)
  {
  }

  lemma BootCurrent(procs: Procs, cpus: seq<Cpu>, idle: seq<Ptr>)
    requires Distinct(idle) && Booted(procs, cpus, idle)
    ensures Current(procs, cpus, |cpus|)
  {
    BootPlaced(procs, cpus, idle);
    hide RunsOn, IdlesOn;
    BootBusy(procs, cpus, idle);
    hide Busy;
  }

  lemma BootInv(s: Shape, key: map<Ptr, U64>, procs: Procs, cpus: seq<Cpu>, idle: seq<Ptr>)
    requires Forest(s) && s.con == map[s.root := Con(NULL, [], 0)] && Distinct(idle) && Booted(procs, cpus, idle)
    requires NULL !in idle && s.root !in idle && key == map[]
    ensures Inv(s, key, procs, cpus, |cpus|)
  {
    BootCurrent(procs, cpus, idle);
    assert Window(key, key.Keys, 0);
    hide Current, Forest;
  }

  /** The scheduler: process records, CPUs, and the queues rq. */
  class Scheduler {
    const rq: RunQueues
    var procs: Procs
    var cpus: seq<Cpu>

    ghost predicate Valid()
      reads this, rq
    {
      rq.skip == {} && Inv(rq.S(), rq.key, procs, cpus, |cpus|)
    }

    // define_init(sched): every CPU runs its idle process.
    constructor (root: Ptr, idle: seq<Ptr>)
      requires root != NULL && NULL !in idle && root !in idle && Distinct(idle)
      ensures Valid() && fresh(rq) && rq.root == root && |cpus| == |idle| && !rq.panic_flag
      ensures Booted(procs, cpus, idle) && rq.key == map[] && rq.con == map[root := Con(NULL, [], 0)]
    {
      var ps: Procs, cs, i := map[], [], 0;
      while i < |idle|
        invariant 0 <= i <= |idle| && Booted(ps, cs, idle[..i])
      {
        ps := ps[idle[i] := IdleProc()];
        cs := cs + [Cpu(idle[i], idle[i])];
        assert idle[..i + 1] == idle[..i] + [idle[i]];
        i := i + 1;
      }
      assert idle[..i] == idle;
      procs, cpus := ps, cs;
      var queues := new RunQueues(root);
      rq := queues;
      BootInv(queues.S(), queues.key, ps, cs, idle);
      hide Inv;
    }

    // _activate_proc: true if the process was asleep, or unused, and is now runnable.
    method Activate(p: Ptr, onalert: bool) returns (r: bool)
      requires Valid() && p in procs
      modifies this, rq
      ensures Valid() && cpus == old(cpus) && rq.key == old(rq.key)
      ensures var st := old(procs)[p].state; r <==> st == SLEEPING || st == UNUSED || (st == DEEPSLEEPING && !onalert)
      ensures procs == if r then old(procs)[p := old(procs)[p].(state := RUNNABLE)] else old(procs)
      ensures !r ==> rq.con == old(rq.con)
      ensures SameGroups(old(rq.con), rq.con) && rq.panic_flag == old(rq.panic_flag)
    {
      hide Forest, Members, Keys, Current, Chains, SameGroups, Insert, AllSorted, InWindow, Sorted, Keyed;
      var st := procs[p].state;
      SameGroupsSelf(rq.con);
      if st == RUNNING || st == RUNNABLE || st == ZOMBIE || (st == DEEPSLEEPING && onalert) {
        return false;
      }
      ghost var s := rq.S();
      AsleepIsNotIdle(procs, cpus, p);
      EnterInv(s, rq.key, procs, cpus, p, procs[p := procs[p].(state := RUNNABLE)], |cpus|);
      WindowKeys(s.con, s.root, rq.key, procs);
      SortedAt(rq.con, rq.key, procs[p].home);
      procs := procs[p := procs[p].(state := RUNNABLE)];
      EnterQueue(procs[p].home, p, s);
      r := true;
    }

    // Insertion into a queue with the ASSERT on its result, and the count.
    method EnterQueue(c: Ptr, x: Ptr, ghost s: Shape)
      requires s == rq.S() && c in rq.con && x in rq.key && Sorted(rq.key, rq.con[c].queue) && InWindow(rq.key)
      requires x !in rq.con[c].queue
      modifies rq
      ensures rq.key == old(rq.key)
      ensures rq.S() == s.(con := Entered(s.con, rq.key, c, x))
      ensures rq.skip == old(rq.skip) && rq.panic_flag == old(rq.panic_flag)
    {
      hide Sorted, InWindow;
      var r := rq.Enqueue(c, x);
      assert r == 0;
      rq.con := rq.con[c := rq.con[c].(node_cnt := rq.con[c].node_cnt + 1)];
    }

    // One round of the loop of update_this_state: the container c is charged, erased from its parent's queue,
    // and inserted again with the ASSERT on the result.
    method ChargeContainer(c: Ptr, delta: U64, ghost s: Shape, ghost key': map<Ptr, U64>)
      requires s == rq.S() && c in rq.con && rq.con[c].parent in rq.con && c in rq.key
      requires c in rq.con[rq.con[c].parent].queue
      requires key' == rq.key[c := (rq.key[c] + delta) % WORD] && Keyed(key', rq.con[rq.con[c].parent].queue)
      requires InWindow(key')
      requires Sorted(key', Without(rq.con[rq.con[c].parent].queue, c))
      requires c !in Without(rq.con[rq.con[c].parent].queue, c)
      modifies rq
      ensures rq.key == key' && rq.S() == s.(con := Moved(s.con, key', s.con[c].parent, c))
      ensures rq.skip == old(rq.skip) && rq.panic_flag == old(rq.panic_flag)
    {
      hide Sorted, InWindow;
      var parent := rq.con[c].parent;
      rq.key := rq.key[c := (rq.key[c] + delta) % WORD];
      rq.Unqueue(parent, c);
      var r := rq.Enqueue(parent, c);
      assert r == 0;
    }

    // The loop of update_this_state.
    method ChargeContainers(home: Ptr, delta: U64, ghost s0: Shape, ghost key0: map<Ptr, U64>,
                            ghost goal: map<Ptr, U64>)
      requires s0 == rq.S() && key0 == rq.key && ClimbAt(s0, key0, goal, s0, key0, home, home, delta)
      modifies rq
      ensures rq.key == goal && rq.S() == s0.(con := rq.con) && Forest(rq.S()) && AllSorted(rq.con, goal)
      ensures SameContents(s0.con, rq.con)
      ensures rq.skip == old(rq.skip) && rq.panic_flag == old(rq.panic_flag)
    {
      hide Climbing, Forest, AllSorted, SameContents, Under, InWindow, Sorted, Chain;
      var c := home;
      ClimbLook(s0, key0, goal, s0, key0, c);
      while rq.con[c].parent != NULL
        invariant ClimbAt(s0, key0, goal, rq.S(), rq.key, c, home, delta) && rq.root == s0.root && c in rq.con
        invariant rq.skip == old(rq.skip) && rq.panic_flag == old(rq.panic_flag)
        decreases Depth(s0, c)
      {
        hide ClimbAt, Depth;
        ghost var s, key := rq.S(), rq.key;
        ghost var key' := if c in key then key[c := (key[c] + delta) % WORD] else key;
        ClimbNext(s0, key0, goal, s, key, c, home, delta);
        ClimbRound(s0, key0, goal, s, key, c, home, delta, rq.con[c].parent, key');
        ChargeContainer(c, delta, s, key');
        c := rq.con[c].parent;
      }
      ClimbLook(s0, key0, goal, rq.S(), rq.key, c);
      ClimbEnd(s0, key0, goal, rq.S(), rq.key);
    }

    // update_this_state for a process that stays runnable: it and its containers are charged.
    method Requeue(i: nat, p: Ptr, delta: U64)
      requires Valid() && i < |cpus| && cpus[i].thisproc == p && p in procs && procs[p].home in rq.con
      requires !procs[p].idle && procs[p].state == RUNNING
      requires Together(rq.key, Paid(rq.S(), rq.key, p, procs[p].home, delta))
      modifies this, rq
      ensures Forest(old(rq.S())) && rq.key == Paid(old(rq.S()), old(rq.key), p, old(procs)[p].home, delta)
      ensures procs == old(procs)[p := old(procs)[p].(state := RUNNABLE)] && cpus == old(cpus)
      ensures rq.skip == {} && rq.panic_flag == old(rq.panic_flag) && Inv(rq.S(), rq.key, procs, cpus, i)
      ensures rq.S() == old(rq.S()).(con := rq.con) && SameGroups(old(rq.con), rq.con)
    {
      hide Forest, AllSorted, Members, Keys, Current, Chains, Sorted, Keyed, InWindow, Insert, ClimbAt, SameContents,
           SameGroups, Paid, Under;
      var home := procs[p].home;
      ghost var s, key, ps := rq.S(), rq.key, procs;
      PayFacts(s, key, ps, cpus, p);
      ghost var key' := key[p := (key[p] + delta) % WORD];
      PayStart(s, key, ps, cpus, p, delta, key');
      rq.key := rq.key[p := (rq.key[p] + delta) % WORD];
      EnterQueue(home, p, s);
      ChargeContainers(home, delta, rq.S(), rq.key, Paid(s, key, p, home, delta));
      PayEnd(s, key, ps, cpus, i, p, delta, key', rq.con);
      hide Inv;
      procs := procs[p := procs[p].(state := RUNNABLE)];
    }

    // update_this_state, for the CPU i.
    method UpdateThisState(i: nat, st: State, now: U64)
      requires Valid() && MayLeave(rq.S(), rq.key, procs, cpus, i, st, now)
      modifies this, rq
      ensures var p := old(cpus)[i].thisproc;
              && rq.key == KeysAfter(old(rq.S()), old(rq.key), p, old(procs)[p], st, now)
              && procs == old(procs)[p := old(procs)[p].(state := st)]
      ensures var p := old(cpus)[i].thisproc; var pr := old(procs)[p];
              if pr.idle || st != RUNNABLE then
                rq.key == old(rq.key)
              else
                Larger(old(rq.con), rq.root, old(rq.key), rq.key, p, pr.home, now - pr.start_time)
      ensures cpus == old(cpus) && rq.skip == {} && rq.panic_flag == old(rq.panic_flag)
      ensures Inv(rq.S(), rq.key, procs, cpus, i)
      ensures rq.S() == old(rq.S()).(con := rq.con) && SameGroups(old(rq.con), rq.con)
    {
      hide Forest, AllSorted, Members, Keys, Current, Chains, Paid, Larger;
      ghost var s, key, ps := rq.S(), rq.key, procs;
      RunningFacts(s, key, ps, cpus, i);
      var p := cpus[i].thisproc;
      if !procs[p].idle {
        LargerAfter(s, key, p, procs[p], now);
      }
      if !procs[p].idle && procs[p].state == RUNNING && st == RUNNABLE {
        hide SameGroups;
        Requeue(i, p, Elapsed(procs[p], now));
      } else {
        LeaveInv(s, key, ps, cpus, i, st);
        hide Inv;
        procs := procs[p := procs[p].(state := st)];
      }
    }

    // The second half of simple_sched.
    method Switch(i: nat, p: Ptr, now: U64)
      requires rq.skip == {} && Inv(rq.S(), rq.key, procs, cpus, i) && i < |cpus|
      modifies this, rq
      ensures Valid() && rq.key == old(rq.key) && rq.panic_flag == old(rq.panic_flag)
      ensures rq.S() == old(rq.S()).(con := rq.con)
      ensures Switched(old(rq.S()), old(procs), old(cpus), i, rq.panic_flag, p, now, rq.con, procs, cpus)
    {
      hide AllSorted, Members, Keys, Current, Chains, Forest, Best, Alive, Dropped, Picked;
      ghost var s, key, ps, cs := rq.S(), rq.key, procs, cpus;
      var got;
      ghost var h;
      got, h := rq.PickNext();
      if !rq.panic_flag {
        PickedCases(s, got);
      }
      var next := if got == NULL then cpus[i].idle else got;
      if got == NULL {
        IdleRuns(s, key, ps, cs, i, next != p, now);
      } else {
        PickedRuns(s, key, ps, cs, i, h, next, next != p, now);
      }
      hide Inv;
      cpus := cpus[i := cpus[i].(thisproc := next)];
      assert procs[next].state == RUNNABLE;
      procs := procs[next := Resumed(procs[next], next != p, now)];
    }

    // simple_sched, for the CPU i; mid is the state between leaving and picking.
    method SimpleSched(i: nat, st: State, now: U64, later: U64) returns (ghost mid: Shape)
      requires Valid() && MayLeave(rq.S(), rq.key, procs, cpus, i, st, now)
      modifies this, rq
      ensures Valid() && rq.panic_flag == old(rq.panic_flag) && mid == old(rq.S()).(con := mid.con)
      ensures var p := old(cpus)[i].thisproc; var pr := old(procs)[p];
              if pr.killed && st != ZOMBIE then
                procs == old(procs) && cpus == old(cpus) && rq.con == old(rq.con) && rq.key == old(rq.key)
              else
                && var gone := old(procs)[p := pr.(state := st)];
                && rq.key == KeysAfter(old(rq.S()), old(rq.key), p, pr, st, now)
                && Inv(mid, rq.key, gone, old(cpus), i) && SameGroups(old(rq.con), mid.con)
                && Switched(mid, gone, old(cpus), i, rq.panic_flag, p, later, rq.con, procs, cpus)
      ensures var p := old(cpus)[i].thisproc; var pr := old(procs)[p];
              if pr.idle || st != RUNNABLE || pr.killed then
                rq.key == old(rq.key)
              else
                Larger(old(rq.con), rq.root, old(rq.key), rq.key, p, pr.home, now - pr.start_time)
      ensures procs.Keys == old(procs).Keys && |cpus| == |old(cpus)|
      ensures var next := cpus[i].thisproc;
              forall x :: x in procs ==>
                procs[x].start_time
                == if x == next && next != old(cpus)[i].thisproc then later else old(procs)[x].start_time
    {
      hide Forest, AllSorted, Members, Keys, Current, Chains, SameGroups, Switched, KeysAfter, Larger;
      assert i < |cpus|;
      hide MayLeave;
      RunningFacts(rq.S(), rq.key, procs, cpus, i);
      var p := cpus[i].thisproc;
      assert procs[p].state == RUNNING;
      mid := rq.S();
      if procs[p].killed && st != ZOMBIE {
        return;
      }
      hide Inv;
      UpdateThisState(i, st, now);
      mid := rq.S();
      ghost var gone, was := procs, cpus;
      Switch(i, p, later);
      SwitchStarts(mid, gone, was, i, rq.panic_flag, p, later, rq.con, procs, cpus);
    }

    // activate_group: the ASSERT holds if the group is not in the queue yet.
    method ActivateGroup(g: Ptr)
      requires Valid() && g in rq.con && g != rq.root
      requires rq.con[g].parent in rq.con ==> g !in rq.con[rq.con[g].parent].queue
      modifies this, rq
      ensures Valid() && procs == old(procs) && cpus == old(cpus) && rq.key == old(rq.key)
      ensures var c := old(rq.con)[g].parent;
              && c in old(rq.con) && g in old(rq.key) && Keyed(old(rq.key), old(rq.con)[c].queue)
              && rq.con == Entered(old(rq.con), old(rq.key), c, g)
    {
      hide Forest, AllSorted, Members, Keys, Current, Chains;
      GroupInv(rq.S(), rq.key, procs, cpus, g);
      SortedAt(rq.con, rq.key, rq.con[g].parent);
      hide Sorted, InWindow, Keyed, Insert;
      EnterQueue(rq.con[g].parent, g, rq.S());
    }

    // create_proc and set_container_to_this: the container of an unused process is chosen. Its run time is 0; that
    // keeps the order exactly if 0 lies in a window with the other run times.
    method SetContainer(p: Ptr, c: Ptr)
      requires Valid() && p != NULL && p !in rq.con && c in rq.con
      requires p in procs ==> Offline(procs[p]) && procs[p].state == UNUSED
      modifies this, rq
      ensures Valid() <==> InWindow(rq.key)
      ensures procs == old(procs)[p := Proc(UNUSED, false, false, c, 0)] && cpus == old(cpus)
      ensures rq.con == old(rq.con) && rq.key == old(rq.key)[p := 0] && rq.panic_flag == old(rq.panic_flag)
    {
      hide Forest, AllSorted, Members, Keys, Current, Chains;
      AddInv(rq.S(), rq.key, procs, cpus, p, Proc(UNUSED, false, false, c, 0));
      hide Inv;
      procs := procs[p := Proc(UNUSED, false, false, c, 0)];
      rq.key := rq.key[p := 0];
    }

    // create_container, up to the start of its first process; its run time is 0 as well.
    method AddContainer(c: Ptr, parent: Ptr)
      requires Valid() && c != NULL && c !in rq.con && c !in procs && parent in rq.con
      modifies this, rq
      ensures Valid() <==> InWindow(rq.key)
      ensures procs == old(procs) && cpus == old(cpus) && rq.con == old(rq.con)[c := Con(parent, [], 0)]
      ensures rq.key == old(rq.key)[c := 0]
    {
      hide Forest, AllSorted, Members, Keys, Current, Chains;
      BornInv(rq.S(), rq.key, procs, cpus, c, parent);
      hide Inv;
      ghost var s := Born(rq.S(), c, parent);
      rq.con := rq.con[c := Con(parent, [], 0)];
      rq.key := rq.key[c := 0];
      rq.depth, rq.bottom := s.depth, s.bottom;
    }

    // kill of a process that was found, and so is not unused: the flag, then the alert.
    method Kill(p: Ptr) returns (r: bool)
      requires Valid() && p in procs && procs[p].state != UNUSED
      modifies this, rq
      ensures Valid() && cpus == old(cpus) && rq.key == old(rq.key)
      ensures var st := old(procs)[p].state; r <==> st == SLEEPING
      ensures var pr := old(procs)[p].(killed := true);
              procs
              == old(procs)[p := if r then pr.(state := RUNNABLE) else pr]
    {
      hide Forest, AllSorted, Members, Keys, Current, Chains, SameGroups;
      KilledInv(rq.S(), rq.key, procs, cpus, p);
      hide Inv;
      procs := procs[p := procs[p].(killed := true)];
      r := Activate(p, true);
    }

    // The end of wait: the record of a zombie is freed.
    method Reap(p: Ptr)
      requires Valid() && p in procs && procs[p].state == ZOMBIE
      modifies this, rq
      ensures Valid() && procs == old(procs) - {p} && cpus == old(cpus) && rq.key == old(rq.key) - {p}
    {
      hide Forest, AllSorted, Members, Keys, Chains, Current;
      AsleepIsNotIdle(procs, cpus, p);
      ReapInv(rq.S(), rq.key, procs, cpus, p);
      hide Inv;
      procs := procs - {p};
      rq.key := rq.key - {p};
    }
  }

  lemma SameGroupsSelf(con: Cons)
    ensures SameGroups(con, con)
  {
  }

  lemma SortedAt(con: Cons, key: map<Ptr, U64>, c: Ptr)
    requires AllSorted(con, key) && c in con
    ensures Sorted(key, con[c].queue)
  {
  }

  lemma AsleepIsNotIdle(procs: Procs, cpus: seq<Cpu>, p: Ptr)
    requires Current(procs, cpus, |cpus|) && p in procs && procs[p].state != RUNNING && procs[p].state != RUNNABLE
    ensures !procs[p].idle
  {
  }

  // ---- around the end of the 64-bit range ----

  // A charge fits if some window has room for it.
  lemma ChargeFits(key: map<Ptr, U64>, who: set<Ptr>, delta: nat, b: U64)
    requires forall x :: x in key ==> Offset(key[x], b) + delta < HALF
    ensures Together(key, Charged(key, who, delta))
  {
    var goal := Charged(key, who, delta);
    forall x | x in goal ensures Offset(goal[x], b) < HALF {
      OffsetMore(key[x], b, delta);
    }
    assert Window(key, key.Keys, b) && Window(goal, goal.Keys, b);
  }

  // A process that is new when the only other run time is 2^63: neither is before the other.
  lemma LateProcess(p: Ptr, q: Ptr)
    requires p != q
    ensures InWindow(map[p := HALF]) && !InWindow(map[p := HALF][q := 0])
  {
    var key: map<Ptr, U64> := map[p := HALF];
    assert Window(key, key.Keys, HALF);
    var both := key[q := 0];
    forall b: U64 ensures !Window(both, both.Keys, b) {
      assert p in both.Keys && q in both.Keys;
      assert Offset(HALF, b) >= HALF || Offset(0, b) >= HALF;
    }
  }

  // In the only queue there is, the least process is the one that is picked.
  lemma PicksLeast(s: Shape, key: map<Ptr, U64>, procs: Procs, cpus: seq<Cpu>, i: nat, f: Ptr)
    requires Inv(s, key, procs, cpus, i) && s.con.Keys == {s.root} && f in procs && Waiting(procs[f], s.root)
    requires forall x :: x in procs && x in key && f in key && x != f && Waiting(procs[x], s.root) ==> Less(key, f, x)
    ensures Alive(s, s.root) && forall n :: Best(s, s.root, n) ==> n == f
  {
    hide Current, Chains, Less;
    var q := s.con[s.root].queue;
    assert f in q;
    FirstBest(s);
    hide Nested, Counted, Best, Alive;
    WindowKeys(s.con, s.root, key, procs);
    SortedAt(s.con, key, s.root);
    hide InWindow;
    if q[0] != f {
      var k :| 0 <= k < |q| && q[k] == f;
      assert Less(key, q[0], q[k]);
      assert q[0] in q;
      assert q[0] in procs && Waiting(procs[q[0]], s.root);
      WindowLess(key, q[0], f);
    }
  }

  lemma FirstBest(s: Shape)
    requires Forest(s) && s.con.Keys == {s.root} && s.con[s.root].queue != []
    ensures forall x :: x in s.con[s.root].queue ==> x !in s.con
    ensures Alive(s, s.root) && forall n :: Best(s, s.root, n) ==> n == s.con[s.root].queue[0]
  {
    var q := s.con[s.root].queue;
    forall x | x in q ensures x !in s.con {
      assert x in s.con ==> x in s.con.Keys;
    }
    assert q[0] in q;
    LeafBest(s, s.root);
    hide Forest, Best;
    forall n | Best(s, s.root, n) ensures n == q[0] {
      BestUnique(s, s.root, n, q[0]);
    }
  }

  // A process at the head of a queue is the best one below it.
  lemma LeafBest(s: Shape, c: Ptr)
    requires Forest(s) && c in s.con && s.con[c].queue != [] && s.con[c].queue[0] !in s.con
    ensures Best(s, c, s.con[c].queue[0]) && Alive(s, c)
  {
    assert Leads(s, s.con[c].queue[0]);
    assert Least(s, c, 0);
    BestAlive(s, c, s.con[c].queue[0]);
  }

  // A scheduler with one CPU and no container but the root; since are the start times of its processes.
  ghost predicate Small(sc: Scheduler, root: Ptr, idle: Ptr, key: map<Ptr, U64>, since: map<Ptr, U64>)
    reads sc, sc.rq
  {
    && sc.Valid() && !sc.rq.panic_flag && sc.rq.root == root && sc.rq.con.Keys == {root} && sc.rq.key == key
    && |sc.cpus| == 1 && sc.cpus[0].idle == idle && sc.procs.Keys == key.Keys + {idle} && since.Keys == key.Keys
    && idle in sc.procs && sc.procs[idle].idle && !sc.procs[idle].killed
    && (forall x :: x in key ==> Plain(sc.procs[x], root, since[x]))
  }

  // A process of the root container.
  predicate Plain(p: Proc, root: Ptr, since: U64) { !p.idle && !p.killed && p.home == root && p.start_time == since }

  // The process p leaves its CPU d after it came there, and the least one, f, takes it up at the time later.
  method Round(sc: Scheduler, ghost root: Ptr, ghost idle: Ptr, ghost p: Ptr, ghost f: Ptr, now: U64, later: U64,
               ghost d: U64, ghost key: map<Ptr, U64>, ghost key': map<Ptr, U64>, ghost since: map<Ptr, U64>,
               ghost since': map<Ptr, U64>)
    requires since' == since[f := later]
    requires root != idle && Small(sc, root, idle, key, since) && sc.cpus[0].thisproc == p && idle !in key'
    requires p != idle ==> p in key && now == (since[p] + d) % WORD
    requires key' == if p == idle then key else key[p := (key[p] + d) % WORD]
    requires Together(key, key') && f in key' && f != p
    requires forall x :: x in key' && x != f ==> Less(key', f, x)
    requires forall x :: x in key' ==> x == p || sc.procs[x].state == RUNNABLE
    modifies sc, sc.rq
    ensures Small(sc, root, idle, key', since') && sc.cpus[0].thisproc == f
    ensures forall x :: x in key' && x != f ==> sc.procs[x].state == RUNNABLE
  {
    hide Inv, Forest, Together, Less, Switched, KeysAfter, MayLeave, Best, Alive, SameGroups, Larger, Resumed;
    ghost var s, procs, cpus := sc.rq.S(), sc.procs, sc.cpus;
    InvForest(s, key, procs, cpus, 1);
    LeavesWith(s, key, procs, cpus, p, now, d, key');
    assert !procs[p].killed;
    hide Plain;
    ghost var mid := sc.SimpleSched(0, RUNNABLE, now, later);
    ghost var gone := procs[p := procs[p].(state := RUNNABLE)];
    GroupsRoot(s.con, mid.con, root);
    InvForest(mid, key', gone, cpus, 0);
    PicksLeast(mid, key', gone, cpus, 0, f);
    SwitchedTo(mid, gone, cpus, p, f, later, sc.rq.con, sc.procs, sc.cpus);
    RoundDone(root, idle, p, f, later, key, key', since, since', procs, gone, sc.procs);
  }

  lemma RoundDone(root: Ptr, idle: Ptr, p: Ptr, f: Ptr, later: U64, key: map<Ptr, U64>, key': map<Ptr, U64>,
                  since: map<Ptr, U64>, since': map<Ptr, U64>, procs: Procs, gone: Procs, procs': Procs)
    requires since.Keys == key.Keys == key'.Keys && p in procs && procs.Keys == key.Keys + {idle} && f in key' && f != p
    requires idle !in key && since' == since[f := later]
    requires procs[idle].idle && !procs[idle].killed && forall x :: x in key ==> Plain(procs[x], root, since[x])
    requires gone == procs[p := procs[p].(state := RUNNABLE)] && procs' == gone[f := Resumed(gone[f], true, later)]
    ensures since'.Keys == key'.Keys && procs'.Keys == key'.Keys + {idle} && procs'[idle].idle && !procs'[idle].killed
    ensures forall x :: x in key' ==> Plain(procs'[x], root, since'[x])
  {
  }

  lemma InvForest(s: Shape, key: map<Ptr, U64>, procs: Procs, cpus: seq<Cpu>, vac: nat)
    requires Inv(s, key, procs, cpus, vac)
    ensures Forest(s)
  {
  }

  lemma GroupsRoot(con: Cons, con': Cons, root: Ptr)
    requires SameGroups(con, con') && con.Keys == {root}
    ensures con'.Keys == {root}
  {
  }

  lemma SwitchedTo(mid: Shape, gone: Procs, cpus: seq<Cpu>, p: Ptr, f: Ptr, later: U64, con': Cons, procs': Procs,
                   cpus': seq<Cpu>)
    requires Switched(mid, gone, cpus, 0, false, p, later, con', procs', cpus') && Forest(mid)
    requires Alive(mid, mid.root) && (forall n :: Best(mid, mid.root, n) ==> n == f)
    ensures f in gone && cpus' == cpus[0 := cpus[0].(thisproc := f)] && con'.Keys == mid.con.Keys
    ensures procs' == gone[f := Resumed(gone[f], f != p, later)]
  {
    hide Forest, Alive, Best;
  }

  lemma LeavesWith(s: Shape, key: map<Ptr, U64>, procs: Procs, cpus: seq<Cpu>, p: Ptr, now: U64, d: U64,
                   key': map<Ptr, U64>)
    requires Forest(s) && s.con.Keys == {s.root} && |cpus| == 1 && p == cpus[0].thisproc && p in procs
    requires if procs[p].idle then key' == key else p in key && key' == key[p := (key[p] + d) % WORD]
    requires !procs[p].idle ==> Plain(procs[p], s.root, procs[p].start_time)
    requires !procs[p].idle ==> now == (procs[p].start_time + d) % WORD
    requires Together(key, key')
    ensures KeysAfter(s, key, p, procs[p], RUNNABLE, now) == key' && MayLeave(s, key, procs, cpus, 0, RUNNABLE, now)
  {
    if !procs[p].idle {
      assert Chain(s, s.root) == {};
      assert Elapsed(procs[p], now) == d;
      assert {p} + {} == {p};
      assert Paid(s, key, p, s.root, d) == key';
    }
  }

  // A run whose run times go around the end of the range. The processes p and q are new at the same time, and p is at
  // the lower address: it is the first. Each of them runs for 2^63 - 1 twice, in turns; the clock goes around the end
  // of its range too. Then p runs from 1000 to 1005, which takes it past q, and q from 1007 to 1017.
  method AroundTheClock(root: Ptr, idle: Ptr, p: Ptr, q: Ptr) returns (sc: Scheduler)
    requires NULL !in {root, idle, p, q} && p !in {root, idle} && q !in {root, idle, p} && root != idle && p < q
    ensures Small(sc, root, idle, Two(p, 3, q, 8), Two(p, 1020, q, 1007)) && sc.cpus[0].thisproc == p
    ensures sc.procs[q].state == RUNNABLE
  {
    hide Small, Together, Less, InWindow, Inv, Booted;
    sc := new Scheduler(root, [idle]);
    BootSmall(sc, root, idle);
    Starting(p, q);
    Join(sc, root, idle, p, map[], map[p := 0], map[], map[p := 0]);
    Join(sc, root, idle, q, map[p := 0], Two(p, 0, q, 0), map[p := 0], Two(p, 0, q, 0));
    Round(sc, root, idle, idle, p, 998, 1000, 0, Two(p, 0, q, 0), Two(p, 0, q, 0), Two(p, 0, q, 0),
          Two(p, 1000, q, 0));
    Lap(sc, root, idle, p, q, 0, 0);
    Lap(sc, root, idle, p, q, HALF - 1, HALF + 1000);
    Finish(sc, root, idle, p, q);
  }

  // p goes past q, and q stays behind p no longer.
  method Finish(sc: Scheduler, ghost root: Ptr, ghost idle: Ptr, ghost p: Ptr, ghost q: Ptr)
    requires root != idle && p !in {root, idle} && q !in {root, idle, p} && p < q
    requires Small(sc, root, idle, Two(p, WORD - 2, q, WORD - 2), Two(p, 1000, q, HALF + 1000))
    requires sc.cpus[0].thisproc == p && sc.procs[q].state == RUNNABLE
    modifies sc, sc.rq
    ensures Small(sc, root, idle, Two(p, 3, q, 8), Two(p, 1020, q, 1007)) && sc.cpus[0].thisproc == p
    ensures sc.procs[q].state == RUNNABLE
  {
    hide Small, Together, Less, InWindow;
    PairIn(p, WORD - 2, q, WORD - 2, 3, WORD - 2, WORD - 2);
    Round(sc, root, idle, p, q, 1005, 1007, 5, Two(p, WORD - 2, q, WORD - 2), Two(p, 3, q, WORD - 2),
          Two(p, 1000, q, HALF + 1000), Two(p, 1000, q, 1007));
    PairIn(p, 3, q, WORD - 2, 3, 8, WORD - 2);
    Round(sc, root, idle, q, p, 1017, 1020, 10, Two(p, 3, q, WORD - 2), Two(p, 3, q, 8), Two(p, 1000, q, 1007),
          Two(p, 1020, q, 1007));
  }

  // Both run for 2^63 - 1, p first.
  method Lap(sc: Scheduler, ghost root: Ptr, ghost idle: Ptr, ghost p: Ptr, ghost q: Ptr, ghost t: U64,
             ghost since: U64)
    requires root != idle && p !in {root, idle} && q !in {root, idle, p} && p < q && t in {0, HALF - 1}
    requires Small(sc, root, idle, Two(p, t, q, t), Two(p, 1000, q, since)) && sc.cpus[0].thisproc == p
    requires sc.procs[q].state == RUNNABLE
    modifies sc, sc.rq
    ensures Small(sc, root, idle, Two(p, t + HALF - 1, q, t + HALF - 1), Two(p, 1000, q, HALF + 1000))
    ensures sc.cpus[0].thisproc == p && sc.procs[q].state == RUNNABLE
  {
    hide Small, Together, Less, InWindow;
    var u := t + HALF - 1;
    PairIn(p, t, q, t, u, t, t);
    Round(sc, root, idle, p, q, HALF + 999, HALF + 1000, HALF - 1, Two(p, t, q, t), Two(p, u, q, t),
          Two(p, 1000, q, since), Two(p, 1000, q, HALF + 1000));
    PairIn(p, u, q, t, u, u, t);
    Round(sc, root, idle, q, p, 999, 1000, HALF - 1, Two(p, u, q, t), Two(p, u, q, u), Two(p, 1000, q, HALF + 1000),
          Two(p, 1000, q, HALF + 1000));
  }

  ghost function Two(p: Ptr, t: U64, q: Ptr, u: U64): map<Ptr, U64> { map[p := t, q := u] }

  lemma BootSmall(sc: Scheduler, root: Ptr, idle: Ptr)
    requires sc.Valid() && !sc.rq.panic_flag && sc.rq.root == root && |sc.cpus| == 1
    requires Booted(sc.procs, sc.cpus, [idle])
    requires sc.rq.key == map[] && sc.rq.con == map[root := Con(NULL, [], 0)]
    ensures Small(sc, root, idle, map[], map[]) && sc.cpus[0].thisproc == idle
  {
    hide Inv;
    assert [idle][0] in sc.procs;
    assert forall x :: x in sc.procs ==> x in [idle] && x == idle;
    assert sc.procs.Keys == {idle};
  }

  // A new process of the root container becomes runnable.
  method Join(sc: Scheduler, root: Ptr, ghost idle: Ptr, x: Ptr, ghost key: map<Ptr, U64>, ghost key': map<Ptr, U64>,
              ghost since: map<Ptr, U64>, ghost since': map<Ptr, U64>)
    requires Small(sc, root, idle, key, since) && x != NULL && x !in key && x != idle && x != root
    requires key' == key[x := 0] && InWindow(key') && since' == since[x := 0]
    requires forall y :: y in key ==> y in sc.procs && sc.procs[y].state == RUNNABLE
    modifies sc, sc.rq
    ensures Small(sc, root, idle, key', since') && sc.cpus == old(sc.cpus)
    ensures forall y :: y in key' ==> y in sc.procs && sc.procs[y].state == RUNNABLE
  {
    hide Inv, InWindow, SameGroups;
    sc.SetContainer(x, root);
    ghost var con := sc.rq.con;
    var _ := sc.Activate(x, false);
    GroupsRoot(con, sc.rq.con, root);
  }

  lemma Starting(p: Ptr, q: Ptr)
    requires p < q
    ensures InWindow(map[p := 0]) && InWindow(Two(p, 0, q, 0)) && Together(Two(p, 0, q, 0), Two(p, 0, q, 0))
    ensures Less(Two(p, 0, q, 0), p, q)
  {
    assert Window(map[p := 0], map[p := 0].Keys, 0);
    PairIn(p, 0, q, 0, 0, 0, 0);
  }

  // The run times of two processes before and after a charge; of the two after it the one with less, or else the one
  // at the lower address, is before the other.
  lemma PairIn(p: Ptr, t: U64, q: Ptr, u: U64, t': U64, u': U64, b: U64)
    requires p < q && Offset(t, b) < HALF && Offset(u, b) < HALF && Offset(t', b) < HALF && Offset(u', b) < HALF
    ensures InWindow(Two(p, t', q, u')) && Together(Two(p, t, q, u), Two(p, t', q, u'))
    ensures if Offset(t', b) <= Offset(u', b) then
              Less(Two(p, t', q, u'), p, q)
            else
              Less(Two(p, t', q, u'), q, p)
  {
    var key, key' := Two(p, t, q, u), Two(p, t', q, u');
    WindowBefore(key', p, q, b);
    WindowBefore(key', q, p, b);
    hide Offset, Less;
    assert Window(key, key.Keys, b) && Window(key', key'.Keys, b);
  }
}
