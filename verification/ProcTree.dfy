/** The process tree (src/kernel/proc.c): start, exit, wait and kill as steps under the tree lock, and the
    tokens with which exiting children are announced. */
module ProcTree {
  import opened Basics
  import opened Sem
  import opened PidPool
  import Counting
  import PageTable
  import Sections

  // LIVE is any state between start and exit.
  datatype State = UNUSED | LIVE | ZOMBIE

  // holds: wait has taken a token of childexit and has not reaped a child for it yet.
  datatype Proc = Proc(st: State, parent: Ptr, children: seq<Ptr>, home: Ptr, pid: nat, localpid: nat,
                       killed: bool, exitcode: int, childexit: Sem, holds: bool)
  type Procs = map<Ptr, Proc>

  // The processes, the first process of every container, the process that started first, and when each process
  // was created.
  datatype World = World(procs: Procs, rootproc: map<Ptr, Ptr>, root: Ptr, birth: map<Ptr, nat>, clock: nat)

  function Zombies(procs: Procs, q: seq<Ptr>): nat {
    if q == [] then 0 else (if q[0] in procs && procs[q[0]].st == ZOMBIE then 1 else 0) + Zombies(procs, q[1..])
  }

  // Children lists and parent pointers agree.
  ghost predicate Linked(procs: Procs, root: Ptr) {
    && NULL !in procs && root in procs && procs[root].parent == root
    && ListsOk(procs, root) && ParentsOk(procs, root)
  }

  ghost predicate ListsOk(procs: Procs, root: Ptr) {
    forall x :: x in procs ==> ListOk(procs, root, x)
  }

  ghost predicate ListOk(procs: Procs, root: Ptr, x: Ptr)
    requires x in procs
  {
    Distinct(procs[x].children) && forall c :: c in procs[x].children ==>
        c in procs && c != root && procs[c].parent == x
  }

  ghost predicate ParentsOk(procs: Procs, root: Ptr) {
    forall x :: x in procs && x != root && procs[x].parent != NULL ==>
        procs[x].parent in procs && x in procs[procs[x].parent].children
  }

  // Parents are older than their children; the first process of a container is the oldest in it.
  ghost predicate Aged(w: World) {
    Births(w) && ParentsOlder(w) && FirstsOldest(w)
  }

  ghost predicate Births(w: World) {
    && (forall x :: x in w.procs ==> x in w.birth && w.birth[x] < w.clock)
    && w.root in w.birth && (forall x :: x in w.procs && x != w.root ==> w.birth[w.root] < w.birth[x])
  }

  ghost predicate ParentsOlder(w: World)
    requires Births(w)
  {
    forall x :: x in w.procs && x != w.root && w.procs[x].parent in w.procs ==> w.birth[w.procs[x].parent] < w.birth[x]
  }

  ghost predicate FirstsOldest(w: World)
    requires Births(w)
  {
    forall x :: x in w.procs ==> FirstOldest(w, x)
  }

  ghost predicate FirstOldest(w: World, x: Ptr)
    requires Births(w) && x in w.procs
  {
    var c := w.procs[x].home;
    c in w.rootproc && w.rootproc[c] in w.procs && w.rootproc[c] in w.birth && w.birth[w.rootproc[c]] <= w.birth[x]
  }

  // Parents are alive, zombies have no children, started processes have parents, and the first process of a
  // container stays alive.
  ghost predicate States(w: World) {
    && w.root in w.procs && w.procs[w.root].st == LIVE && w.procs[w.root].home in w.rootproc
    && w.rootproc[w.procs[w.root].home] == w.root
    && ParentsLive(w.procs) && Started(w.procs) && FirstsLive(w)
  }

  ghost predicate ParentsLive(procs: Procs) {
    forall x :: x in procs && procs[x].parent in procs ==> procs[procs[x].parent].st == LIVE
  }

  ghost predicate Started(procs: Procs) {
    && (forall x :: x in procs && procs[x].st != LIVE ==> procs[x].children == [])
    && (forall x :: x in procs && procs[x].st != UNUSED ==> procs[x].parent != NULL)
  }

  ghost predicate FirstsLive(w: World) {
    && (forall x :: x in w.procs && w.procs[x].home in w.rootproc ==>
          var r := w.rootproc[w.procs[x].home];
          r == x || (r in w.procs && w.procs[r].st == LIVE))
    && (forall c :: c in w.rootproc ==>
        w.rootproc[c] in w.procs && w.procs[w.rootproc[c]].st != ZOMBIE && w.procs[w.rootproc[c]].home == c)
  }

  // Only the process itself waits for its children; its tokens are its unreaped zombie children.
  ghost predicate Balanced(p: Proc, x: Ptr, procs: Procs) {
    && SemOk(p.childexit)
    && (forall y :: y in p.childexit.sleepers || y in p.childexit.up ==> y == x)
    && (p.holds ==> Away(p.childexit, x))
    && (p.st != ZOMBIE ==> Tokens(p.childexit) + (if p.holds then 1 else 0) == Zombies(procs, p.children))
  }

  ghost predicate Tokened(procs: Procs) {
    forall x :: x in procs ==> Balanced(procs[x], x, procs)
  }

  ghost predicate Inv(w: World) {
    Linked(w.procs, w.root) && Aged(w) && States(w) && Tokened(w.procs)
  }

  // ---- counting zombies ----

  lemma {:induction false} ZombiesConcat(procs: Procs, a: seq<Ptr>, b: seq<Ptr>)
    ensures Zombies(procs, a + b) == Zombies(procs, a) + Zombies(procs, b)
  {
    if a == [] {
      assert a + b == b;
    } else {
      assert (a + b)[1..] == a[1..] + b;
      ZombiesConcat(procs, a[1..], b);
    }
  }

  // States of the processes in q are all that counts.
  lemma {:induction false} ZombiesSame(procs: Procs, procs': Procs, q: seq<Ptr>)
    requires forall x :: x in q ==> x in procs && x in procs' && (procs'[x].st == ZOMBIE <==> procs[x].st == ZOMBIE)
    ensures Zombies(procs', q) == Zombies(procs, q)
  {
    if q != [] {
      var c := q[0];
      assert c in q && (procs'[c].st == ZOMBIE <==> procs[c].st == ZOMBIE);
      assert forall x :: x in q[1..] ==> x in q;
      ZombiesSame(procs, procs', q[1..]);
    }
  }

  // One more of them is a zombie.
  lemma {:induction false} ZombiesMore(procs: Procs, procs': Procs, q: seq<Ptr>, c: Ptr)
    requires forall x :: x in q ==> x in procs && x in procs' && (x != c ==> procs'[x].st == procs[x].st)
    requires c in q && Distinct(q) && procs[c].st != ZOMBIE && procs'[c].st == ZOMBIE
    ensures Zombies(procs', q) == Zombies(procs, q) + 1
  {
    var t := q[1..];
    assert q == [q[0]] + t && q[0] in q && q[0] !in t;
    if q[0] == c {
      ZombiesSame(procs, procs', t);
    } else {
      ZombiesMore(procs, procs', t, c);
    }
  }

  lemma {:induction false} ZombieThere(procs: Procs, q: seq<Ptr>)
    requires Zombies(procs, q) > 0
    ensures exists i :: 0 <= i < |q| && q[i] in procs && procs[q[i]].st == ZOMBIE
  {
    if !(q[0] in procs && procs[q[0]].st == ZOMBIE) {
      ZombieThere(procs, q[1..]);
      var i :| 0 <= i < |q[1..]| && q[1..][i] in procs && procs[q[1..][i]].st == ZOMBIE;
      assert q[i + 1] == q[1..][i];
    }
  }

  lemma {:induction false} ZombiesWithout(procs: Procs, q: seq<Ptr>, c: Ptr)
    requires c in q && c in procs && procs[c].st == ZOMBIE
    ensures Zombies(procs, Without(q, c)) == Zombies(procs, q) - 1
  {
    if q[0] != c {
      ZombiesWithout(procs, q[1..], c);
      assert ([q[0]] + Without(q[1..], c))[1..] == Without(q[1..], c);
    }
  }

  // ---- several posts ----

  lemma {:induction false} PostsOk(s: Sem, n: nat)
    requires SemOk(s)
    ensures SemOk(Posts(s, n)) && Tokens(Posts(s, n)) == Tokens(s) + n
    ensures forall p :: Away(Posts(s, n), p) <==> Away(s, p)
    decreases n
  {
    if n > 0 {
      PostedOk(s);
      PostsOk(Posted(s), n - 1);
    }
  }

  // ---- exit ----

  // The children cs behind those of the adopting process, the first of them last.
  function Adopted(rs: seq<Ptr>, cs: seq<Ptr>): seq<Ptr> {
    if cs == [] then rs else rs + cs[1..] + [cs[0]]
  }

  // What becomes of the process y when x exits.
  function AfterExit(w: World, x: Ptr, y: Ptr): Proc
    requires x in w.procs && y in w.procs && w.procs[x].home in w.rootproc
  {
    var p, r, cs := w.procs[y], w.rootproc[w.procs[x].home], w.procs[x].children;
    p.(parent := if y in cs then r else p.parent,
       children := if y == x then [] else if y == r then Adopted(p.children, cs) else p.children,
       childexit := Posts(p.childexit,
                          (if y == r then Zombies(w.procs, cs) else 0) + (if y == w.procs[x].parent then 1 else 0)),
       st := if y == x then ZOMBIE else p.st)
  }

  function Exited(w: World, x: Ptr): World
    requires x in w.procs && w.procs[x].home in w.rootproc
  {
    w.(procs := map y | y in w.procs :: AfterExit(w, x, y))
  }

  // A process that may exit: alive, not the first of its container, and in no wait.
  predicate MayExit(w: World, x: Ptr) {
    && x in w.procs && w.procs[x].st == LIVE && w.procs[x].home in w.rootproc && x != w.rootproc[w.procs[x].home]
    && Away(w.procs[x].childexit, x) && !w.procs[x].holds
  }

  // The process that adopts is alive and older than the one that exits, so none of its children.
  lemma Younger(w: World, x: Ptr, c: Ptr)
    requires Linked(w.procs, w.root) && Aged(w) && x in w.procs && c in w.procs[x].children
    ensures c in w.procs && c != w.root && w.procs[c].parent == x && w.birth[x] < w.birth[c]
  {
  }

  lemma Adopter(w: World, x: Ptr)
    requires Inv(w) && MayExit(w, x)
    ensures var r := w.rootproc[w.procs[x].home];
            r in w.procs && r != x && w.procs[r].st == LIVE
            && r !in w.procs[x].children
  {
    hide Tokened;
    var r := w.rootproc[w.procs[x].home];
    assert w.birth[r] <= w.birth[x];
    if r in w.procs[x].children {
      Younger(w, x, r);
      assert false;
    }
  }

  lemma Parent(w: World, x: Ptr)
    requires Inv(w) && MayExit(w, x)
    ensures var q := w.procs[x].parent;
            x != w.root && q in w.procs && q != x && w.procs[q].st == LIVE
            && x in w.procs[q].children
    ensures w.procs[x].parent !in w.procs[x].children && x !in w.procs[x].children
  {
    hide Tokened;
    var q := w.procs[x].parent;
    assert x != w.root;
    assert w.birth[q] < w.birth[x];
    if q in w.procs[x].children {
      Younger(w, x, q);
      assert false;
    }
    if x in w.procs[x].children {
      Younger(w, x, x);
      assert false;
    }
  }

  // What is known of x, its parent q, its adopter r and its children cs when x exits.
  ghost predicate Exiting(w: World, x: Ptr, r: Ptr, q: Ptr, cs: seq<Ptr>) {
    && MayExit(w, x) && r == w.rootproc[w.procs[x].home] && q == w.procs[x].parent && cs == w.procs[x].children
    && r in w.procs && r != x && w.procs[r].st == LIVE && r !in cs
    && x != w.root && q in w.procs && q != x && w.procs[q].st == LIVE && x in w.procs[q].children && q !in cs
    && x !in cs
  }

  lemma AdoptedIn(rs: seq<Ptr>, cs: seq<Ptr>, c: Ptr)
    ensures c in Adopted(rs, cs) <==> c in rs || c in cs
  {
    if cs != [] {
      assert cs == [cs[0]] + cs[1..];
    }
  }

  lemma DistinctConcat(a: seq<Ptr>, b: seq<Ptr>)
    requires Distinct(a) && Distinct(b) && forall c :: c in b ==> c !in a
    ensures Distinct(a + b)
  {
    forall i, j | 0 <= i < j < |a + b| ensures (a + b)[i] != (a + b)[j] {
      if i < |a| <= j {
        assert a[i] in a && b[j - |a|] in b;
      }
    }
  }

  lemma AdoptedDistinct(rs: seq<Ptr>, cs: seq<Ptr>)
    requires Distinct(rs) && Distinct(cs) && forall c :: c in cs ==> c !in rs
    ensures Distinct(Adopted(rs, cs))
  {
    if cs != [] {
      DistinctConcat(rs, cs[1..]);
      DistinctConcat(rs + cs[1..], [cs[0]]);
    }
  }

  // The processes after the exit of x: their links and states.
  ghost predicate Left(w: World, x: Ptr, r: Ptr, cs: seq<Ptr>, procs': Procs)
    requires r in w.procs && x in w.procs
  {
    && procs'.Keys == w.procs.Keys
    && (forall y :: y in procs' ==>
        procs'[y].home == w.procs[y].home && procs'[y].st == if y == x then ZOMBIE else w.procs[y].st)
    && (forall y :: y in procs' ==> procs'[y].parent == if y in cs then r else w.procs[y].parent)
    && procs'[x].children == [] && procs'[r].children == Adopted(w.procs[r].children, cs)
    && (forall y :: y in procs' && y != x && y != r ==> procs'[y].children == w.procs[y].children)
  }

  lemma ExitLeft(w: World, x: Ptr, r: Ptr, q: Ptr, cs: seq<Ptr>)
    requires Exiting(w, x, r, q, cs)
    ensures Left(w, x, r, cs, Exited(w, x).procs)
  {
    hide Posts, Adopted;
  }

  lemma ExitLists(w: World, x: Ptr, r: Ptr, q: Ptr, cs: seq<Ptr>, procs': Procs)
    requires ListsOk(w.procs, w.root) && Exiting(w, x, r, q, cs) && Left(w, x, r, cs, procs')
    ensures ListsOk(procs', w.root)
  {
    hide MayExit;
    forall y | y in procs' ensures ListOk(procs', w.root, y) {
      assert ListOk(w.procs, w.root, y) && ListOk(w.procs, w.root, x);
      if y == r {
        AdoptedDistinct(w.procs[r].children, cs);
        forall c | c in procs'[y].children ensures c in procs' && c != w.root && procs'[c].parent == y {
          AdoptedIn(w.procs[r].children, cs, c);
        }
      }
    }
  }

  lemma ExitParents(w: World, x: Ptr, r: Ptr, q: Ptr, cs: seq<Ptr>, procs': Procs)
    requires ListsOk(w.procs, w.root) && ParentsOk(w.procs, w.root) && Exiting(w, x, r, q, cs)
    requires Left(w, x, r, cs, procs')
    ensures ParentsOk(procs', w.root)
  {
    hide MayExit;
    forall y | y in procs' && y != w.root && procs'[y].parent != NULL
      ensures procs'[y].parent in procs' && y in procs'[procs'[y].parent].children
    {
      AdoptedIn(w.procs[r].children, cs, y);
    }
  }

  lemma ExitLinked(w: World, x: Ptr, r: Ptr, q: Ptr, cs: seq<Ptr>, procs': Procs)
    requires Linked(w.procs, w.root) && Exiting(w, x, r, q, cs) && Left(w, x, r, cs, procs')
    ensures Linked(procs', w.root)
  {
    assert w.root !in cs;
    hide ListsOk, ParentsOk, MayExit;
    ExitLists(w, x, r, q, cs, procs');
    ExitParents(w, x, r, q, cs, procs');
  }

  lemma ExitAged(w: World, x: Ptr, r: Ptr, q: Ptr, cs: seq<Ptr>, procs': Procs)
    requires Linked(w.procs, w.root) && Aged(w) && Exiting(w, x, r, q, cs) && Left(w, x, r, cs, procs')
    ensures Aged(w.(procs := procs'))
  {
    hide Adopted;
    assert w.birth[r] <= w.birth[x];
    forall c | c in cs ensures w.birth[x] < w.birth[c] {
      Younger(w, x, c);
    }
    hide Linked;
  }

  lemma ExitStates(w: World, x: Ptr, r: Ptr, q: Ptr, cs: seq<Ptr>, procs': Procs)
    requires Linked(w.procs, w.root) && States(w) && Exiting(w, x, r, q, cs) && Left(w, x, r, cs, procs')
    ensures States(w.(procs := procs'))
  {
    hide Adopted, ListsOk, Started, FirstsLive, ParentsLive, Left;
    ExitParentsLive(w, x, r, q, cs, procs');
    ExitStarted(w, x, r, q, cs, procs');
    ExitFirsts(w, x, r, q, cs, procs');
    assert Left(w, x, r, cs, procs');
    ExitRoot(w, x, r, cs, procs');
  }

  lemma ExitParentsLive(w: World, x: Ptr, r: Ptr, q: Ptr, cs: seq<Ptr>, procs': Procs)
    requires ParentsOk(w.procs, w.root) && ParentsLive(w.procs) && Exiting(w, x, r, q, cs) && Left(w, x, r, cs, procs')
    requires w.root in w.procs && w.procs[w.root].parent == w.root && NULL !in w.procs
    ensures ParentsLive(procs')
  {
    hide Adopted;
    assert forall y :: y in w.procs && w.procs[y].parent == x ==> y in cs;
    hide ParentsOk;
  }

  lemma ExitStarted(w: World, x: Ptr, r: Ptr, q: Ptr, cs: seq<Ptr>, procs': Procs)
    requires Started(w.procs) && Exiting(w, x, r, q, cs) && Left(w, x, r, cs, procs') && NULL !in w.procs
    ensures Started(procs')
  {
    hide Adopted, MayExit;
  }

  lemma ExitFirsts(w: World, x: Ptr, r: Ptr, q: Ptr, cs: seq<Ptr>, procs': Procs)
    requires FirstsLive(w) && Exiting(w, x, r, q, cs) && Left(w, x, r, cs, procs')
    ensures FirstsLive(w.(procs := procs'))
  {
    hide Adopted;
    assert forall c :: c in w.rootproc ==> w.rootproc[c] != x;
  }

  lemma ExitRoot(w: World, x: Ptr, r: Ptr, cs: seq<Ptr>, procs': Procs)
    requires r in w.procs && x in w.procs && Left(w, x, r, cs, procs') && w.root in w.procs && w.root != x
    ensures w.root in procs' && procs'[w.root].st == w.procs[w.root].st && procs'[w.root].home == w.procs[w.root].home
  {
    hide Adopted;
    assert w.root in procs'.Keys;
  }

  lemma ExitZombies(w: World, x: Ptr, r: Ptr, q: Ptr, cs: seq<Ptr>, procs': Procs, y: Ptr)
    requires Linked(w.procs, w.root) && Exiting(w, x, r, q, cs) && Left(w, x, r, cs, procs') && y in w.procs && y != x
    ensures Zombies(procs', procs'[y].children)
            == Zombies(w.procs, w.procs[y].children) + (if y == r then Zombies(w.procs, cs) else 0)
                + (if y == q then 1 else 0)
  {
    hide Zombies, Adopted;
    var procs, was := w.procs, w.procs[y].children;
    assert x in was <==> y == q;
    assert forall c :: c in was ==> c in procs;
    assert forall c :: c in cs ==> c in procs;
    hide Linked;
    if y == q {
      ZombiesMore(procs, procs', was, x);
    } else {
      ZombiesSame(procs, procs', was);
    }
    if y == r {
      ZombiesSame(procs, procs', cs);
      ZombiesAdopted(procs', was, cs);
    }
  }

  lemma ZombiesAdopted(procs: Procs, rs: seq<Ptr>, cs: seq<Ptr>)
    ensures Zombies(procs, Adopted(rs, cs)) == Zombies(procs, rs) + Zombies(procs, cs)
  {
    if cs != [] {
      assert cs == [cs[0]] + cs[1..];
      ZombiesConcat(procs, [cs[0]], cs[1..]);
      ZombiesConcat(procs, rs + cs[1..], [cs[0]]);
      ZombiesConcat(procs, rs, cs[1..]);
    }
  }

  lemma ExitBalanced(w: World, x: Ptr, r: Ptr, q: Ptr, cs: seq<Ptr>, procs': Procs, y: Ptr)
    requires Linked(w.procs, w.root) && Exiting(w, x, r, q, cs) && Left(w, x, r, cs, procs') && y in w.procs
    requires Balanced(w.procs[y], y, w.procs) && procs'[y] == AfterExit(w, x, y)
    ensures Balanced(procs'[y], y, procs')
  {
    hide Linked, Left, Posts;
    var n := (if y == r then Zombies(w.procs, cs) else 0) + (if y == q then 1 else 0);
    PostsOk(w.procs[y].childexit, n);
    PostsWho(w.procs[y].childexit, n, y);
    if y != x {
      ExitZombies(w, x, r, q, cs, procs', y);
    }
    hide Zombies, SemOk, Tokens, Adopted;
  }

  lemma ExitTokened(w: World, x: Ptr, r: Ptr, q: Ptr, cs: seq<Ptr>, procs': Procs)
    requires Linked(w.procs, w.root) && Tokened(w.procs) && Exiting(w, x, r, q, cs) && Left(w, x, r, cs, procs')
    requires procs' == Exited(w, x).procs
    ensures Tokened(procs')
  {
    hide Linked, Balanced, Left, AfterExit;
    forall y | y in procs' ensures Balanced(procs'[y], y, procs') {
      ExitBalanced(w, x, r, q, cs, procs', y);
    }
  }

  lemma {:induction false} PostsWho(s: Sem, n: nat, x: Ptr)
    requires forall y :: y in s.sleepers || y in s.up ==> y == x
    ensures forall y :: y in Posts(s, n).sleepers || y in Posts(s, n).up ==> y == x
    decreases n
  {
    if n > 0 {
      var t := Posted(s);
      forall y | y in t.sleepers || y in t.up ensures y == x {
        if s.val < 0 && s.sleepers != [] {
          assert s.sleepers[|s.sleepers| - 1] in s.sleepers;
          assert y in s.sleepers[..|s.sleepers| - 1] ==> y in s.sleepers;
        }
      }
      PostsWho(Posted(s), n - 1, x);
    }
  }

  // The invariant survives an exit, whatever is reparented.
  lemma ExitInv(w: World, x: Ptr)
    requires Inv(w) && MayExit(w, x)
    ensures Inv(Exited(w, x))
  {
    var r, q, cs := w.rootproc[w.procs[x].home], w.procs[x].parent, w.procs[x].children;
    Adopter(w, x);
    Parent(w, x);
    hide Linked, Aged, States, Tokened;
    ExitLeft(w, x, r, q, cs);
    hide Left, MayExit, AfterExit;
    var procs' := Exited(w, x).procs;
    ExitLinked(w, x, r, q, cs, procs');
    ExitAged(w, x, r, q, cs, procs');
    ExitStates(w, x, r, q, cs, procs');
    ExitTokened(w, x, r, q, cs, procs');
  }

  // ---- waiting ----

  // Links, containers and states are the same.
  ghost predicate SameTree(procs: Procs, procs': Procs) {
    procs'.Keys == procs.Keys && forall y :: y in procs ==> SameNode(procs[y], procs'[y])
  }

  predicate SameNode(p: Proc, p': Proc) {
    p'.st == p.st && p'.parent == p.parent && p'.children == p.children && p'.home == p.home
  }

  // The links are the same.
  ghost predicate SameLinks(procs: Procs, procs': Procs) {
    procs'.Keys == procs.Keys && forall y :: y in procs ==>
        procs'[y].parent == procs[y].parent && procs'[y].children == procs[y].children
  }

  lemma SameLinked(procs: Procs, procs': Procs, root: Ptr)
    requires Linked(procs, root) && SameLinks(procs, procs')
    ensures Linked(procs', root)
  {
    forall y | y in procs' ensures ListOk(procs', root, y) {
      assert ListOk(procs, root, y);
    }
    assert ParentsOk(procs', root) by { hide ListsOk; }
  }

  lemma SameAged(w: World, procs': Procs)
    requires Aged(w) && SameTree(w.procs, procs')
    ensures Aged(w.(procs := procs'))
  {
  }

  lemma SameStates(w: World, procs': Procs)
    requires States(w) && SameTree(w.procs, procs')
    ensures States(w.(procs := procs'))
  {
    assert ParentsLive(procs') by { hide Started, FirstsLive; }
    assert Started(procs') by { hide ParentsLive, FirstsLive; }
    hide Started, ParentsLive;
    forall c | c in w.rootproc
      ensures w.rootproc[c] in procs' && procs'[w.rootproc[c]].st != ZOMBIE && procs'[w.rootproc[c]].home == c
    {
      var r := w.rootproc[c];
      assert r in w.procs;
      assert r in w.procs.Keys;
      assert r in procs'.Keys;
      assert SameNode(w.procs[r], procs'[r]);
    }
    assert FirstsLive(w.(procs := procs'));
  }

  lemma ChildrenIn(procs: Procs, root: Ptr)
    requires Linked(procs, root)
    ensures forall y, c :: y in procs && c in procs[y].children ==> c in procs
  {
    forall y, c | y in procs && c in procs[y].children ensures c in procs {
      assert ListOk(procs, root, y);
    }
  }

  // Only the semaphore of x, and whether x holds a token or is killed, change.
  lemma SemInv(w: World, x: Ptr, p': Proc)
    requires Inv(w) && x in w.procs && SameNode(w.procs[x], p') && Balanced(p', x, w.procs)
    ensures Inv(w.(procs := w.procs[x := p']))
  {
    var procs' := w.procs[x := p'];
    hide Linked, Aged, States, Balanced;
    ChildrenIn(w.procs, w.root);
    SameTokens(w.procs, procs', x);
    hide Tokened;
    SameLinked(w.procs, procs', w.root);
    SameAged(w, procs');
    SameStates(w, procs');
  }

  lemma SameTokens(procs: Procs, procs': Procs, x: Ptr)
    requires Tokened(procs) && x in procs && x in procs' && procs' == procs[x := procs'[x]]
    requires Balanced(procs'[x], x, procs)
    requires procs'[x].st == procs[x].st && forall y, c :: y in procs' && c in procs'[y].children ==> c in procs
    ensures Tokened(procs')
  {
    forall y | y in procs' ensures Balanced(procs'[y], y, procs') {
      ZombiesSame(procs, procs', procs'[y].children);
      assert y != x ==> Balanced(procs[y], y, procs);
    }
  }

  // wait_sem of x on its own semaphore, up to the sleep.
  function TakeToken(p: Proc, x: Ptr): Proc {
    p.(childexit := Waited(p.childexit, x), holds := p.childexit.val > 0)
  }

  // wait_sem after the sleep.
  function WakeUp(p: Proc, x: Ptr): Proc {
    p.(childexit := Resumed(p.childexit, x), holds := x in p.childexit.up)
  }

  lemma TakeBalanced(p: Proc, x: Ptr, procs: Procs)
    requires Balanced(p, x, procs) && Away(p.childexit, x) && !p.holds && p.st != ZOMBIE
    ensures Balanced(TakeToken(p, x), x, procs)
  {
    WaitedOk(p.childexit, x);
    hide SemOk, Tokens;
  }

  lemma WakeBalanced(p: Proc, x: Ptr, procs: Procs)
    requires Balanced(p, x, procs) && !Away(p.childexit, x) && p.st != ZOMBIE
    ensures Balanced(WakeUp(p, x), x, procs) && Away(WakeUp(p, x).childexit, x)
  {
    ResumedOk(p.childexit, x);
    if x !in p.childexit.up {
      WithoutDistinct(p.childexit.sleepers, x);
    }
    hide SemOk, Tokens, Without;
  }

  // ---- reaping ----

  // The zombie child c of x is gone, and the token is used up.
  function Reaped(w: World, x: Ptr, c: Ptr): World
    requires x in w.procs
  {
    w.(procs := w.procs[x := w.procs[x].(children := Without(w.procs[x].children, c), holds := false)] - {c})
  }

  ghost predicate Reaping(w: World, x: Ptr, c: Ptr) {
    x in w.procs && c in w.procs && c in w.procs[x].children && w.procs[c].st == ZOMBIE && w.procs[x].holds
      && w.procs[x].st == LIVE && x != c
  }

  // The processes after c is gone from the list of x.
  ghost predicate Gone(procs: Procs, x: Ptr, c: Ptr, procs': Procs)
    requires x in procs
  {
    && x != c && procs'.Keys == procs.Keys - {c}
    && (forall y :: y in procs' ==>
        procs'[y].st == procs[y].st && procs'[y].parent == procs[y].parent && procs'[y].home == procs[y].home)
    && (forall y :: y in procs' && y != x ==> procs'[y] == procs[y])
    && Distinct(procs'[x].children) && (forall d :: d in procs'[x].children <==> d in procs[x].children && d != c)
  }

  lemma ReapGone(w: World, x: Ptr, c: Ptr)
    requires Linked(w.procs, w.root) && Reaping(w, x, c)
    ensures Gone(w.procs, x, c, Reaped(w, x, c).procs)
  {
    assert ListOk(w.procs, w.root, x);
    WithoutDistinct(w.procs[x].children, c);
    hide Without, ListsOk, ParentsOk;
  }

  lemma ReapLinked(w: World, x: Ptr, c: Ptr, procs': Procs)
    requires Linked(w.procs, w.root) && ParentsLive(w.procs) && Reaping(w, x, c) && Gone(w.procs, x, c, procs')
    requires w.root != c
    ensures Linked(procs', w.root)
  {
    assert forall y :: y in w.procs ==> w.procs[y].parent != c;
    hide ParentsLive;
    forall y | y in procs' ensures ListOk(procs', w.root, y) {
      assert ListOk(w.procs, w.root, y) && ListOk(w.procs, w.root, x);
    }
    assert ParentsOk(procs', w.root) by { hide ListsOk, Distinct; }
  }

  lemma ReapAged(w: World, x: Ptr, c: Ptr, procs': Procs)
    requires Aged(w) && FirstsLive(w) && Reaping(w, x, c) && Gone(w.procs, x, c, procs')
    ensures Aged(w.(procs := procs'))
  {
    assert forall d :: d in w.rootproc ==> w.rootproc[d] != c;
    hide FirstsLive, Distinct;
  }

  lemma ReapStates(w: World, x: Ptr, c: Ptr, procs': Procs)
    requires States(w) && Reaping(w, x, c) && Gone(w.procs, x, c, procs')
    ensures States(w.(procs := procs'))
  {
    hide Distinct;
    assert ParentsLive(procs') by { hide Started, FirstsLive; }
    assert Started(procs') by { hide ParentsLive, FirstsLive; }
    assert forall d :: d in w.rootproc ==> w.rootproc[d] != c;
    assert FirstsLive(w.(procs := procs')) by { hide ParentsLive, Started; }
    hide Started, FirstsLive, ParentsLive;
  }

  lemma ReapTokened(w: World, x: Ptr, c: Ptr)
    requires Linked(w.procs, w.root) && Tokened(w.procs) && Reaping(w, x, c)
    requires Gone(w.procs, x, c, Reaped(w, x, c).procs)
    ensures Tokened(Reaped(w, x, c).procs)
  {
    hide Balanced, Gone, Without;
    var procs' := Reaped(w, x, c).procs;
    forall y | y in procs' ensures Balanced(procs'[y], y, procs') {
      ReapBalanced(w, x, c, y);
    }
  }

  lemma ReapBalanced(w: World, x: Ptr, c: Ptr, y: Ptr)
    requires Linked(w.procs, w.root) && Reaping(w, x, c) && Gone(w.procs, x, c, Reaped(w, x, c).procs)
    requires y in w.procs && y in Reaped(w, x, c).procs && Balanced(w.procs[y], y, w.procs)
    ensures Balanced(Reaped(w, x, c).procs[y], y, Reaped(w, x, c).procs)
  {
    hide Without, Distinct, SemOk, Tokens, Zombies, ParentsOk;
    var procs' := Reaped(w, x, c).procs;
    ZombiesWithout(w.procs, w.procs[x].children, c);
    assert ListOk(w.procs, w.root, y) && ListOk(w.procs, w.root, x);
    hide ListsOk;
    assert y != x ==> c !in w.procs[y].children;
    ZombiesSame(w.procs, procs', procs'[y].children);
  }

  lemma ReapInv(w: World, x: Ptr, c: Ptr)
    requires Inv(w) && Reaping(w, x, c)
    ensures Inv(Reaped(w, x, c))
  {
    assert c != w.root && ParentsLive(w.procs) && FirstsLive(w);
    hide Linked, Aged, States, Tokened, ParentsLive, FirstsLive;
    ReapGone(w, x, c);
    var procs' := Reaped(w, x, c).procs;
    ReapTokened(w, x, c);
    hide Gone, Without;
    ReapLinked(w, x, c, procs');
    ReapAged(w, x, c, procs');
    ReapStates(w, x, c, procs');
  }

  // A process that holds a token has a zombie child: the PANIC at the end of wait is out of reach.
  lemma TokenMeansZombie(w: World, x: Ptr)
    requires Inv(w) && x in w.procs && w.procs[x].holds && w.procs[x].st == LIVE
    ensures exists i :: 0 <= i < |w.procs[x].children| && w.procs[x].children[i] in w.procs
                        && w.procs[w.procs[x].children[i]].st == ZOMBIE
  {
    assert Balanced(w.procs[x], x, w.procs);
    ZombieThere(w.procs, w.procs[x].children);
  }

  // ---- creation ----

  function NewRecord(home: Ptr, pid: nat): Proc {
    Proc(UNUSED, NULL, [], home, pid, 0, false, 0, Sem(0, [], {}), false)
  }

  // A new record, not yet in the tree.
  function Created(w: World, p: Ptr, pid: nat): World
    requires w.root in w.procs
  {
    w.(procs := w.procs[p := NewRecord(w.procs[w.root].home, pid)], birth := w.birth[p := w.clock],
       clock := w.clock + 1)
  }

  lemma CreateLinked(w: World, p: Ptr, pid: nat)
    requires Linked(w.procs, w.root) && p != NULL && p !in w.procs
    ensures Linked(Created(w, p, pid).procs, w.root)
  {
    var procs' := Created(w, p, pid).procs;
    forall y | y in procs' ensures ListOk(procs', w.root, y) {
      assert y != p ==> ListOk(w.procs, w.root, y);
    }
    assert ParentsOk(procs', w.root) by { hide ListsOk; }
  }

  lemma CreateAged(w: World, p: Ptr, pid: nat)
    requires Aged(w) && p !in w.procs && w.root in w.procs && w.procs[w.root].home in w.rootproc
    requires w.rootproc[w.procs[w.root].home] == w.root
    requires p != NULL && NULL !in w.procs && ParentsOk(w.procs, w.root) && w.procs[w.root].parent == w.root
    ensures Aged(Created(w, p, pid))
  {
    var w' := Created(w, p, pid);
    assert forall x :: x in w.procs ==> w.procs[x].parent != p;
    hide ParentsOk;
    assert Births(w') by { hide ParentsOlder, FirstsOldest; }
    assert ParentsOlder(w') by { hide FirstsOldest; }
    hide ParentsOlder;
    forall x | x in w'.procs ensures FirstOldest(w', x) {
      assert x != p ==> FirstOldest(w, x);
    }
    hide FirstsOldest;
  }

  lemma CreateStates(w: World, p: Ptr, pid: nat)
    requires States(w) && p !in w.procs && p != NULL && NULL !in w.procs && ParentsOk(w.procs, w.root)
    requires w.procs[w.root].parent == w.root
    ensures States(Created(w, p, pid))
  {
    var w' := Created(w, p, pid);
    assert forall x :: x in w.procs ==> w.procs[x].parent != p;
    hide ParentsOk;
    assert ParentsLive(w'.procs) by { hide Started, FirstsLive; }
    assert Started(w'.procs) by { hide ParentsLive, FirstsLive; }
    assert FirstsLive(w') by { hide ParentsLive, Started; }
    hide Started, FirstsLive, ParentsLive;
  }

  lemma CreateInv(w: World, p: Ptr, pid: nat)
    requires Inv(w) && p != NULL && p !in w.procs
    ensures Inv(Created(w, p, pid))
  {
    hide Aged, Tokened, ListsOk, ParentsOk, ParentsLive, Started, FirstsLive;
    CreateLinked(w, p, pid);
    CreateAged(w, p, pid);
    CreateStates(w, p, pid);
    ChildrenIn(w.procs, w.root);
    hide Linked, States;
    CreateTokened(w.procs, p, NewRecord(w.procs[w.root].home, pid));
  }

  lemma CreateTokened(procs: Procs, p: Ptr, p': Proc)
    requires Tokened(procs) && p !in procs && p'.children == [] && p'.childexit == Sem(0, [], {}) && !p'.holds
    requires forall y, c :: y in procs && c in procs[y].children ==> c in procs
    ensures Tokened(procs[p := p'])
  {
    var procs' := procs[p := p'];
    forall y | y in procs' ensures Balanced(procs'[y], y, procs') {
      if y != p {
        assert Balanced(procs[y], y, procs);
        ZombiesSame(procs, procs', procs'[y].children);
      }
    }
  }

  // The unused process p becomes the first child of x.
  function Parented(w: World, x: Ptr, p: Ptr): World
    requires x in w.procs && p in w.procs && x != p
  {
    w.(procs := w.procs[p := w.procs[p].(parent := x)][x := w.procs[x].(children := [p] + w.procs[x].children)])
  }

  ghost predicate Parenting(w: World, x: Ptr, p: Ptr) {
    && x in w.procs && p in w.procs && x != p && w.procs[x].st == LIVE && w.procs[p].st == UNUSED
    && w.procs[p].parent == NULL && p != w.root
    && x in w.birth && p in w.birth && w.birth[x] < w.birth[p]
  }

  lemma ParentLinked(w: World, x: Ptr, p: Ptr)
    requires Linked(w.procs, w.root) && Parenting(w, x, p)
    ensures Linked(Parented(w, x, p).procs, w.root)
  {
    var procs' := Parented(w, x, p).procs;
    forall y | y in procs' ensures ListOk(procs', w.root, y) {
      ParentList(w, x, p, y);
    }
    hide ListOk;
    assert ParentsOk(procs', w.root);
  }

  lemma ParentList(w: World, x: Ptr, p: Ptr, y: Ptr)
    requires y in w.procs && ListOk(w.procs, w.root, y) && Parenting(w, x, p) && NULL !in w.procs
    ensures ListOk(Parented(w, x, p).procs, w.root, y)
  {
    if y == x {
      DistinctConcat([p], w.procs[x].children);
    }
  }

  lemma ParentAged(w: World, x: Ptr, p: Ptr)
    requires Aged(w) && Parenting(w, x, p)
    ensures Aged(Parented(w, x, p))
  {
    var w' := Parented(w, x, p);
    assert Births(w') by { hide ParentsOlder, FirstsOldest; }
    forall y | y in w'.procs ensures FirstOldest(w', y) {
      assert FirstOldest(w, y);
    }
    hide FirstsOldest;
  }

  lemma ParentStates(w: World, x: Ptr, p: Ptr)
    requires States(w) && Parenting(w, x, p)
    ensures States(Parented(w, x, p))
  {
    var w' := Parented(w, x, p);
    assert ParentsLive(w'.procs) by { hide Started, FirstsLive; }
    assert Started(w'.procs) by { hide ParentsLive, FirstsLive; }
    assert FirstsLive(w') by { hide ParentsLive, Started; }
    hide Started, FirstsLive, ParentsLive;
  }

  lemma ParentTokened(w: World, x: Ptr, p: Ptr)
    requires Tokened(w.procs) && Parenting(w, x, p)
    requires forall y, c :: y in w.procs && c in w.procs[y].children ==> c in w.procs
    ensures Tokened(Parented(w, x, p).procs)
  {
    var procs' := Parented(w, x, p).procs;
    forall y | y in procs' ensures Balanced(procs'[y], y, procs') {
      assert Balanced(w.procs[y], y, w.procs);
      hide SemOk, Tokens;
      ZombiesSame(w.procs, procs', w.procs[y].children);
      if y == x {
        ZombiesConcat(procs', [p], w.procs[x].children);
      }
    }
  }

  lemma ParentInv(w: World, x: Ptr, p: Ptr)
    requires Inv(w) && Parenting(w, x, p)
    ensures Inv(Parented(w, x, p))
  {
    hide Linked, Aged, States, Tokened;
    ChildrenIn(w.procs, w.root);
    ParentLinked(w, x, p);
    ParentAged(w, x, p);
    ParentStates(w, x, p);
    ParentTokened(w, x, p);
  }

  // An unused process that is not the first of a container moves to the container c: that of a live older
  // process, or a new one, of which it is the first.
  function Moved(w: World, p: Ptr, c: Ptr, first: bool): World
    requires p in w.procs
  {
    w.(procs := w.procs[p := w.procs[p].(home := c)], rootproc := if first then w.rootproc[c := p] else w.rootproc)
  }

  ghost predicate Moving(w: World, p: Ptr, c: Ptr, first: bool) {
    && p in w.procs && w.procs[p].st == UNUSED && (forall d :: d in w.rootproc ==> w.rootproc[d] != p)
    && if first then c !in w.rootproc
       else c in w.rootproc && w.rootproc[c] in w.procs && w.procs[w.rootproc[c]].st == LIVE
            && p in w.birth && w.rootproc[c] in w.birth && w.birth[w.rootproc[c]] < w.birth[p]
  }

  lemma MoveInv(w: World, p: Ptr, c: Ptr, first: bool)
    requires Inv(w) && Moving(w, p, c, first)
    ensures Inv(Moved(w, p, c, first))
  {
    hide Linked, Aged, States, Tokened, Moving;
    MoveHides(w, p, c, first);
    MoveAged(w, p, c, first);
    MoveStates(w, p, c, first);
  }

  lemma MoveHides(w: World, p: Ptr, c: Ptr, first: bool)
    requires Linked(w.procs, w.root) && Tokened(w.procs) && Moving(w, p, c, first)
    ensures p in w.procs && Linked(Moved(w, p, c, first).procs, w.root) && Tokened(Moved(w, p, c, first).procs)
  {
    var procs' := w.procs[p := w.procs[p].(home := c)];
    hide Linked, Tokened;
    SameLinked(w.procs, procs', w.root);
    ChildrenIn(w.procs, w.root);
    MoveTokened(w.procs, p, procs'[p]);
  }

  lemma MoveAged(w: World, p: Ptr, c: Ptr, first: bool)
    requires Aged(w) && Moving(w, p, c, first)
    ensures Aged(Moved(w, p, c, first))
  {
    hide FirstOldest, Moving;
    assert p in w.procs by { MovingKnown(w, p, c, first); }
    var w' := Moved(w, p, c, first);
    MoveOlder(w, p, c, first);
    hide ParentsOlder, Births;
    forall y | y in w'.procs ensures FirstOldest(w', y) {
      MoveFirst(w, p, c, first, y);
    }
  }

  lemma MovingKnown(w: World, p: Ptr, c: Ptr, first: bool)
    requires Moving(w, p, c, first)
    ensures p in w.procs
  {
  }

  lemma MoveOlder(w: World, p: Ptr, c: Ptr, first: bool)
    requires Births(w) && ParentsOlder(w) && p in w.procs
    ensures Births(Moved(w, p, c, first)) && ParentsOlder(Moved(w, p, c, first))
  {
  }

  lemma MoveFirst(w: World, p: Ptr, c: Ptr, first: bool, y: Ptr)
    requires Births(w) && y in w.procs && FirstOldest(w, y) && Moving(w, p, c, first) && Births(Moved(w, p, c, first))
    ensures FirstOldest(Moved(w, p, c, first), y)
  {
  }

  lemma MoveStates(w: World, p: Ptr, c: Ptr, first: bool)
    requires States(w) && Moving(w, p, c, first) && Aged(w)
    ensures States(Moved(w, p, c, first))
  {
    var w' := Moved(w, p, c, first);
    assert w.procs[w.root].home != c || !first;
    assert ParentsLive(w'.procs) by { hide Started, FirstsLive, Aged; }
    assert Started(w'.procs) by { hide ParentsLive, FirstsLive, Aged; }
    forall y | y in w'.procs ensures var r := w'.rootproc[w'.procs[y].home]; r == y || w'.procs[r].st == LIVE {
      assert w.procs[y].home in w.rootproc;
    }
    hide Started, ParentsLive, Aged;
    assert FirstsLive(w');
  }

  lemma MoveTokened(procs: Procs, p: Ptr, p': Proc)
    requires Tokened(procs) && p in procs && p' == procs[p].(home := p'.home)
    requires forall y, c :: y in procs && c in procs[y].children ==> c in procs
    ensures Tokened(procs[p := p'])
  {
    SameTokens(procs, procs[p := p'], p);
  }

  // An unused process with a parent starts, with its local pid.
  function Begun(w: World, p: Ptr, id: nat): World
    requires p in w.procs
  {
    w.(procs := w.procs[p := w.procs[p].(st := LIVE, localpid := id)])
  }

  lemma BeginInv(w: World, p: Ptr, id: nat)
    requires Inv(w) && p in w.procs && w.procs[p].st == UNUSED && w.procs[p].parent != NULL
    ensures Inv(Begun(w, p, id))
  {
    hide Linked, Aged, States, Tokened;
    SameLinked(w.procs, Begun(w, p, id).procs, w.root);
    ChildrenIn(w.procs, w.root);
    BeginAged(w, p, id);
    BeginStates(w, p, id);
    BeginTokened(w, p, id);
  }

  lemma BeginAged(w: World, p: Ptr, id: nat)
    requires Aged(w) && p in w.procs
    ensures Aged(Begun(w, p, id))
  {
    var w' := Begun(w, p, id);
    assert Births(w') by { hide ParentsOlder, FirstsOldest; }
    forall y | y in w'.procs ensures FirstOldest(w', y) {
      assert FirstOldest(w, y);
    }
    hide FirstsOldest;
  }

  lemma BeginStates(w: World, p: Ptr, id: nat)
    requires States(w) && p in w.procs && w.procs[p].st == UNUSED && w.procs[p].parent != NULL
    ensures States(Begun(w, p, id))
  {
    var w' := Begun(w, p, id);
    assert ParentsLive(w'.procs) by { hide Started, FirstsLive; }
    assert Started(w'.procs) by { hide ParentsLive, FirstsLive; }
    assert FirstsLive(w') by { hide ParentsLive, Started; }
    hide Started, FirstsLive, ParentsLive;
  }

  lemma BeginTokened(w: World, p: Ptr, id: nat)
    requires Tokened(w.procs) && p in w.procs && w.procs[p].st == UNUSED
    requires forall y, c :: y in w.procs && c in w.procs[y].children ==> c in w.procs
    ensures Tokened(Begun(w, p, id).procs)
  {
    var procs' := Begun(w, p, id).procs;
    forall y | y in procs' ensures Balanced(procs'[y], y, procs') {
      assert Balanced(w.procs[y], y, w.procs);
      hide SemOk, Tokens;
      ZombiesSame(w.procs, procs', w.procs[y].children);
    }
  }

  // ---- the search of kill ----

  // dfs: the first started process with the pid in the order of the tree below x; NULL if there is none.
  function Find(w: World, x: Ptr, pid: int): (r: Ptr)
    requires Inv(w) && x in w.procs
    ensures r == NULL || (r in w.procs && w.procs[r].pid == pid && w.procs[r].st != UNUSED)
    decreases w.clock - w.birth[x], 1, 0
  {
    if w.procs[x].pid == pid && w.procs[x].st != UNUSED then x else FindIn(w, x, 0, pid)
  }

  // The same among the children of x from the i-th on.
  function FindIn(w: World, x: Ptr, i: nat, pid: int): (r: Ptr)
    requires Inv(w) && x in w.procs && i <= |w.procs[x].children|
    ensures r == NULL || (r in w.procs && w.procs[r].pid == pid && w.procs[r].st != UNUSED)
    decreases w.clock - w.birth[x], 0, |w.procs[x].children| - i
  {
    if i == |w.procs[x].children| then NULL
    else
      var c := w.procs[x].children[i];
      ChildYounger(w, x, i);
      var r := Find(w, c, pid);
      if r != NULL then r else FindIn(w, x, i + 1, pid)
  }

  lemma ChildYounger(w: World, x: Ptr, i: nat)
    requires Inv(w) && x in w.procs && i < |w.procs[x].children|
    ensures var c := w.procs[x].children[i]; c in w.procs && w.birth[x] < w.birth[c] < w.clock
  {
    hide States, Tokened;
    assert w.procs[x].children[i] in w.procs[x].children;
    Younger(w, x, w.procs[x].children[i]);
  }

  lemma {:induction false} FindInNone(w: World, x: Ptr, i: nat, j: nat, pid: int)
    requires Inv(w) && x in w.procs && i <= j < |w.procs[x].children| && FindIn(w, x, i, pid) == NULL
    ensures w.procs[x].children[j] in w.procs && Find(w, w.procs[x].children[j], pid) == NULL
    decreases j - i
  {
    ChildYounger(w, x, i);
    assert Find(w, w.procs[x].children[i], pid) == NULL by { hide Inv; }
    if i < j {
      FindInNone(w, x, i + 1, j, pid);
    }
  }

  // The parent of a process other than the root, once it has one.
  lemma ParentOf(w: World, y: Ptr)
    requires Inv(w) && y in w.procs && y != w.root && w.procs[y].parent != NULL
    ensures var x := w.procs[y].parent; x in w.procs && y in w.procs[x].children && w.birth[x] < w.birth[y]
    ensures w.procs[y].parent != NULL
  {
    hide States, Tokened, ListsOk, FirstsOldest;
  }

  // The search from the root misses no process of the tree.
  lemma {:induction false} FindMisses(w: World, pid: int, y: Ptr)
    requires Inv(w) && w.root in w.procs && Find(w, w.root, pid) == NULL && y in w.procs
    requires y == w.root || w.procs[y].parent != NULL
    ensures Find(w, y, pid) == NULL
    decreases if y in w.birth then w.birth[y] else 0
  {
    if y != w.root {
      ParentOf(w, y);
      var x := w.procs[y].parent;
      if x != w.root {
        HasParent(w, x);
      }
      FindMisses(w, pid, x);
      var j :| 0 <= j < |w.procs[x].children| && w.procs[x].children[j] == y;
      assert FindIn(w, x, 0, pid) == NULL by { FindNode(w, x, pid); }
      FindInNone(w, x, 0, j, pid);
    }
  }

  // Whoever has a child has a parent.
  lemma HasParent(w: World, x: Ptr)
    requires Inv(w) && x in w.procs && w.procs[x].children != []
    ensures w.procs[x].parent != NULL
  {
    hide Linked, Aged, Tokened, ParentsLive, FirstsLive;
  }

  lemma FindNode(w: World, x: Ptr, pid: int)
    requires Inv(w) && x in w.procs && Find(w, x, pid) == NULL
    ensures FindIn(w, x, 0, pid) == NULL && !(w.procs[x].pid == pid && w.procs[x].st != UNUSED)
  {
    assert NULL !in w.procs by { hide Aged, States, Tokened; }
    hide Inv;
  }

  // kill finds a process exactly if some started process has the pid.
  lemma FindComplete(w: World, pid: int)
    requires Inv(w)
    ensures w.root in w.procs
    ensures Find(w, w.root, pid) != NULL
            <==> exists y :: y in w.procs && w.procs[y].st != UNUSED && w.procs[y].pid == pid
  {
    if Find(w, w.root, pid) == NULL {
      forall y | y in w.procs && w.procs[y].st != UNUSED ensures w.procs[y].pid != pid {
        assert w.procs[y].parent != NULL by { hide Linked, Aged, Tokened; }
        FindMisses(w, pid, y);
        FindNode(w, y, pid);
      }
    }
  }

  lemma JoinMoving(w: World, x: Ptr, p: Ptr)
    requires Inv(w) && x in w.procs && w.procs[x].st == LIVE && p in w.procs && w.procs[p].st == UNUSED
    requires (forall d :: d in w.rootproc ==> w.rootproc[d] != p) && x in w.birth && p in w.birth
    requires w.birth[x] < w.birth[p]
    ensures Moving(w, p, w.procs[x].home, false)
  {
    hide Linked, Tokened, ParentsLive, Started;
    assert FirstOldest(w, x);
  }

  // ---- the loops of exit ----

  lemma {:induction false} ZombiesNext(procs: Procs, cs: seq<Ptr>, i: nat)
    requires i < |cs|
    ensures Zombies(procs, cs[..i + 1]) == Zombies(procs, cs[..i]) + if cs[i] in procs
            && procs[cs[i]].st == ZOMBIE then 1 else 0
  {
    assert cs[..i + 1] == cs[..i] + [cs[i]];
    ZombiesConcat(procs, cs[..i], [cs[i]]);
  }

  // The process record r after n posts.
  function WithPosts(procs: Procs, r: Ptr, n: nat): Procs
    requires r in procs
  {
    procs[r := procs[r].(childexit := Posts(procs[r].childexit, n))]
  }

  // The first i of cs have the parent r.
  ghost predicate Reparented(was: Procs, cs: seq<Ptr>, i: nat, r: Ptr, procs: Procs)
    requires i <= |cs|
  {
    procs.Keys == was.Keys && forall y :: y in was ==> procs[y] == if y in cs[..i] then was[y].(parent := r) else was[y]
  }

  lemma ReparentStep(was: Procs, cs: seq<Ptr>, i: nat, r: Ptr, procs: Procs)
    requires i < |cs| && Reparented(was, cs, i, r, procs) && cs[i] in was
    ensures cs[i] in procs && Reparented(was, cs, i + 1, r, procs[cs[i] := procs[cs[i]].(parent := r)])
  {
    assert cs[..i + 1] == cs[..i] + [cs[i]];
    assert cs[i] in procs.Keys;
  }

  // The steps of exit, put together, are what AfterExit says.
  lemma ExitSteps(w: World, x: Ptr, r: Ptr, q: Ptr, cs: seq<Ptr>, a: Procs, b: Procs, c: Procs, d: Procs)
    requires Exiting(w, x, r, q, cs)
    requires a == WithPosts(w.procs, r, Zombies(w.procs, cs)) && Reparented(a, cs, |cs|, r, b)
    requires x in b && r in b && c == b[x := b[x].(children := [])][r := b[r].(children := Adopted(b[r].children, cs))]
    requires q in c && d == c[q := c[q].(childexit := Posted(c[q].childexit))]
    ensures x in d && d[x := d[x].(st := ZOMBIE)] == Exited(w, x).procs
  {
    hide Posts, Adopted, Zombies, AfterExit;
    assert cs[..|cs|] == cs;
    var e := d[x := d[x].(st := ZOMBIE)];
    forall y | y in w.procs ensures y in e && e[y] == AfterExit(w, x, y) {
      ExitStep(w, x, r, q, cs, b[y], y);
    }
  }

  lemma ExitStep(w: World, x: Ptr, r: Ptr, q: Ptr, cs: seq<Ptr>, p: Proc, y: Ptr)
    requires Exiting(w, x, r, q, cs) && y in w.procs
    requires var a := if y == r then w.procs[y].(childexit := Posts(w.procs[y].childexit, Zombies(w.procs, cs)))
               else w.procs[y];
             p == if y in cs then a.(parent := r) else a
    ensures var c := if y == r then p.(children := Adopted(p.children, cs)) else if y == x then p.(children := [])
              else p;
            var d := if y == q then c.(childexit := Posted(c.childexit)) else c;
            (if y == x then d.(st := ZOMBIE) else d) == AfterExit(w, x, y)
  {
    NoPosts(w.procs[y].childexit);
    PostsThen(w.procs[y].childexit, 0);
    PostsThen(w.procs[y].childexit, Zombies(w.procs, cs));
    hide Posts, Adopted, Zombies, MayExit;
  }

  lemma NoPosts(s: Sem)
    ensures Posts(s, 0) == s
  {
  }

  // ---- pids ----

  // The processes that hold a pid: the pid goes back to the pool at exit.
  ghost function Pids(procs: Procs): map<Ptr, nat> { map x | x in procs && procs[x].st != ZOMBIE :: procs[x].pid }

  // The processes that hold a local pid of the container c: from start until they are reaped.
  ghost function Locals(procs: Procs, c: Ptr): map<Ptr, nat> {
    map x | x in procs && procs[x].st != UNUSED && procs[x].home == c :: procs[x].localpid
  }

  // The pools know who holds what. Pid 0 is given to nobody.
  ghost predicate PidsOk(procs: Procs, pids: Pool) { Issued(pids, Counting.Range(1), Pids(procs)) }

  ghost predicate LocalsOk(procs: Procs, rootproc: map<Ptr, Ptr>, pools: map<Ptr, Pool>) {
    pools.Keys == rootproc.Keys && forall c :: c in pools ==> Issued(pools[c], {}, Locals(procs, c))
  }

  // Nothing that the pools keep track of is different.
  ghost predicate SameIds(procs: Procs, procs': Procs) {
    procs'.Keys == procs.Keys && forall y :: y in procs ==> SameId(procs[y], procs'[y])
  }

  predicate SameId(p: Proc, p': Proc) {
    && (p'.st == ZOMBIE <==> p.st == ZOMBIE) && (p'.st == UNUSED <==> p.st == UNUSED)
    && p'.home == p.home && p'.pid == p.pid && p'.localpid == p.localpid
  }

  lemma SamePids(procs: Procs, procs': Procs)
    requires SameIds(procs, procs')
    ensures Pids(procs') == Pids(procs) && forall c :: Locals(procs', c) == Locals(procs, c)
  {
    assert forall y :: y in procs' ==> SameId(procs[y], procs'[y]);
  }

  lemma SameHeld(procs: Procs, procs': Procs, rootproc: map<Ptr, Ptr>, pools: map<Ptr, Pool>, pids: Pool)
    requires SameIds(procs, procs') && PidsOk(procs, pids) && LocalsOk(procs, rootproc, pools)
    ensures PidsOk(procs', pids) && LocalsOk(procs', rootproc, pools)
  {
    hide Issued, Pids, Locals, SameIds;
    SamePids(procs, procs');
  }

  // One process with its own entry more.
  lemma CreatedHeld(w: World, p: Ptr, rootproc: map<Ptr, Ptr>, pools: map<Ptr, Pool>, pids: Pool)
    requires w.root in w.procs && p !in w.procs && PidsOk(w.procs, pids) && LocalsOk(w.procs, rootproc, pools)
    requires |pids.freelist| == PID_NUM && pids.avail < PID_NUM
    ensures var procs' := Created(w, p, pids.freelist[pids.avail]).procs;
            PidsOk(procs', Taken(pids)) && LocalsOk(procs', rootproc, pools)
  {
    hide Issued, Pids, Locals;
    CreatedMaps(w.procs, p, NewRecord(w.procs[w.root].home, pids.freelist[pids.avail]));
    IssueTake(pids, Counting.Range(1), Pids(w.procs), p);
  }

  lemma CreatedMaps(procs: Procs, p: Ptr, p': Proc)
    requires p !in procs && p'.st == UNUSED
    ensures p !in Pids(procs) && Pids(procs[p := p']) == Pids(procs)[p := p'.pid]
    ensures forall c :: Locals(procs[p := p'], c) == Locals(procs, c)
  {
  }

  lemma BegunHeld(w: World, p: Ptr, rootproc: map<Ptr, Ptr>, pools: map<Ptr, Pool>, pids: Pool)
    requires p in w.procs && w.procs[p].st == UNUSED && w.procs[p].home in pools
    requires PidsOk(w.procs, pids) && LocalsOk(w.procs, rootproc, pools)
    requires var pool := pools[w.procs[p].home]; |pool.freelist| == PID_NUM && pool.avail < PID_NUM
    ensures var c := w.procs[p].home;
            var procs' := Begun(w, p, pools[c].freelist[pools[c].avail]).procs;
            PidsOk(procs', pids) && LocalsOk(procs', rootproc, pools[c := Taken(pools[c])])
  {
    hide Issued, Pids, Locals, Begun, Taken;
    var c := w.procs[p].home;
    BegunIds(w, p, pools[c].freelist[pools[c].avail]);
    IssueTake(pools[c], {}, Locals(w.procs, c), p);
  }

  lemma BegunIds(w: World, p: Ptr, id: nat)
    requires p in w.procs && w.procs[p].st == UNUSED
    ensures var c, procs' := w.procs[p].home, Begun(w, p, id).procs;
            && p !in Locals(w.procs, c) && Pids(procs') == Pids(w.procs)
            && Locals(procs', c) == Locals(w.procs, c)[p := id]
            && forall d :: d != c ==> Locals(procs', d) == Locals(w.procs, d)
  {
    hide Pids;
    BegunPids(w, p, id);
  }

  lemma BegunPids(w: World, p: Ptr, id: nat)
    requires p in w.procs && w.procs[p].st == UNUSED
    ensures Pids(Begun(w, p, id).procs) == Pids(w.procs)
  {
  }

  lemma ExitedHeld(w: World, x: Ptr, rootproc: map<Ptr, Ptr>, pools: map<Ptr, Pool>, pids: Pool)
    requires x in w.procs && w.procs[x].st == LIVE && w.procs[x].home in w.rootproc
    requires PidsOk(w.procs, pids) && LocalsOk(w.procs, rootproc, pools)
    ensures 0 < pids.avail <= |pids.freelist|
    ensures PidsOk(Exited(w, x).procs, Given(pids, w.procs[x].pid)) && LocalsOk(Exited(w, x).procs, rootproc, pools)
  {
    hide Issued, Posts, Zombies, Adopted;
    var procs' := Exited(w, x).procs;
    IssueGive(pids, Counting.Range(1), Pids(w.procs), x);
    assert Pids(procs') == Pids(w.procs) - {x};
    assert forall c :: Locals(procs', c) == Locals(w.procs, c);
  }

  lemma ReapedHeld(w: World, x: Ptr, c: Ptr, rootproc: map<Ptr, Ptr>, pools: map<Ptr, Pool>, pids: Pool)
    requires Reaping(w, x, c) && PidsOk(w.procs, pids) && LocalsOk(w.procs, rootproc, pools) && w.procs[c].home in pools
    ensures var h := w.procs[c].home; 0 < pools[h].avail <= |pools[h].freelist|
    ensures var h := w.procs[c].home; var procs' := Reaped(w, x, c).procs;
            PidsOk(procs', pids) && LocalsOk(procs', rootproc, pools[h := Given(pools[h], w.procs[c].localpid)])
  {
    hide Issued, Pids, Locals, Reaped, Given;
    var h := w.procs[c].home;
    ReapedIds(w, x, c);
    IssueGive(pools[h], {}, Locals(w.procs, h), c);
  }

  lemma ReapedIds(w: World, x: Ptr, c: Ptr)
    requires Reaping(w, x, c)
    ensures var h, procs' := w.procs[c].home, Reaped(w, x, c).procs;
            && Pids(procs') == Pids(w.procs) && c in Locals(w.procs, h) && Locals(w.procs, h)[c] == w.procs[c].localpid
            && Locals(procs', h) == Locals(w.procs, h) - {c}
            && forall d :: d != h ==> Locals(procs', d) == Locals(w.procs, d)
  {
    hide Pids, Without;
    ReapedPids(w, x, c);
  }

  lemma ReapedPids(w: World, x: Ptr, c: Ptr)
    requires Reaping(w, x, c)
    ensures Pids(Reaped(w, x, c).procs) == Pids(w.procs)
  {
    hide Without;
  }

  lemma MovedHeld(w: World, p: Ptr, c: Ptr, first: bool, pools: map<Ptr, Pool>, pids: Pool)
    requires p in w.procs && w.procs[p].st == UNUSED && PidsOk(w.procs, pids) && LocalsOk(w.procs, w.rootproc, pools)
    requires (forall x :: x in w.procs ==> w.procs[x].home in w.rootproc) && (first ==> c !in w.rootproc)
    ensures var w' := Moved(w, p, c, first);
            PidsOk(w'.procs, pids) && LocalsOk(w'.procs, w'.rootproc, if first then pools[c := Fresh(0)] else pools)
  {
    hide Issued, Fresh;
    var w' := Moved(w, p, c, first);
    assert Pids(w'.procs) == Pids(w.procs);
    assert forall d :: Locals(w'.procs, d) == Locals(w.procs, d);
    if first {
      IssueFresh(0);
      assert Counting.Range(0) == {};
      assert forall x :: x in w.procs ==> w.procs[x].home != c;
      assert Locals(w.procs, c) == map[];
    }
  }

  // What the pools say about processes: pids are unique until exit, local pids until the process is reaped, and
  // creating a process fails for want of a pid exactly when 99 processes have not exited.
  lemma UniquePids(procs: Procs, rootproc: map<Ptr, Ptr>, pools: map<Ptr, Pool>, pids: Pool)
    requires PidsOk(procs, pids) && LocalsOk(procs, rootproc, pools)
    ensures Own(Pids(procs)) && pids.avail == 1 + |Pids(procs)|
    ensures forall c :: c in pools ==> Own(Locals(procs, c)) && pools[c].avail == |Locals(procs, c)|
  {
    IssuedCount(pids, Counting.Range(1), Pids(procs));
    forall c | c in pools ensures pools[c].avail == |Locals(procs, c)| {
      IssuedCount(pools[c], {}, Locals(procs, c));
    }
  }

  // ---- which process kill marks ----

  // The processes below x in the order of the search.
  ghost function Order(w: World, x: Ptr): seq<Ptr>
    requires Inv(w) && x in w.procs
    decreases w.clock - w.birth[x], 1, 0
  {
    [x] + OrderIn(w, x, 0)
  }

  ghost function OrderIn(w: World, x: Ptr, i: nat): seq<Ptr>
    requires Inv(w) && x in w.procs && i <= |w.procs[x].children|
    decreases w.clock - w.birth[x], 0, |w.procs[x].children| - i
  {
    if i == |w.procs[x].children| then []
    else
      ChildYounger(w, x, i);
      Order(w, w.procs[x].children[i]) + OrderIn(w, x, i + 1)
  }

  predicate Matches(procs: Procs, y: Ptr, pid: int) { y in procs && procs[y].pid == pid && procs[y].st != UNUSED }

  predicate DeadMatch(procs: Procs, y: Ptr, pid: int) { Matches(procs, y, pid) && procs[y].st == ZOMBIE }

  function FirstWith(procs: Procs, q: seq<Ptr>, pid: int): Ptr {
    if q == [] then NULL else if Matches(procs, q[0], pid) then q[0] else FirstWith(procs, q[1..], pid)
  }

  lemma {:induction false} FirstConcat(procs: Procs, a: seq<Ptr>, b: seq<Ptr>, pid: int)
    requires NULL !in procs
    ensures FirstWith(procs, a + b, pid) == if FirstWith(procs, a, pid) != NULL then FirstWith(procs, a, pid)
              else FirstWith(procs, b, pid)
  {
    if a == [] {
      assert a + b == b;
    } else {
      assert (a + b)[1..] == a[1..] + b;
      FirstConcat(procs, a[1..], b, pid);
    }
  }

  // The search takes the first match of that order.
  lemma {:induction false} FindFirst(w: World, x: Ptr, pid: int)
    requires Inv(w) && x in w.procs
    ensures Find(w, x, pid) == FirstWith(w.procs, Order(w, x), pid)
    decreases w.clock - w.birth[x], 1, 0
  {
    FindInFirst(w, x, 0, pid);
    hide Inv;
    assert Order(w, x)[1..] == OrderIn(w, x, 0);
  }

  lemma {:induction false} FindInFirst(w: World, x: Ptr, i: nat, pid: int)
    requires Inv(w) && x in w.procs && i <= |w.procs[x].children|
    ensures FindIn(w, x, i, pid) == FirstWith(w.procs, OrderIn(w, x, i), pid)
    decreases w.clock - w.birth[x], 0, |w.procs[x].children| - i
  {
    if i < |w.procs[x].children| {
      ChildYounger(w, x, i);
      NoNull(w);
      FindFirst(w, w.procs[x].children[i], pid);
      FindInFirst(w, x, i + 1, pid);
      hide Inv;
      FirstConcat(w.procs, Order(w, w.procs[x].children[i]), OrderIn(w, x, i + 1), pid);
    }
  }

  lemma NoNull(w: World)
    requires Inv(w)
    ensures NULL !in w.procs && w.root in w.procs
  {
    hide Aged, States, Tokened;
  }

  // No zombie with the pid stands before y in q.
  ghost predicate AheadOfZombies(procs: Procs, q: seq<Ptr>, y: Ptr, pid: int) {
    exists k :: 0 <= k < |q| && q[k] == y && forall j :: 0 <= j < k ==> !DeadMatch(procs, q[j], pid)
  }

  lemma {:induction false} FirstIff(procs: Procs, q: seq<Ptr>, y: Ptr, pid: int)
    requires Matches(procs, y, pid) && procs[y].st != ZOMBIE && NULL !in procs
    requires forall x :: Matches(procs, x, pid) && procs[x].st != ZOMBIE ==> x == y
    ensures FirstWith(procs, q, pid) == y <==> AheadOfZombies(procs, q, y, pid)
  {
    if q != [] {
      var t := q[1..];
      FirstIff(procs, t, y, pid);
      if q[0] == y {
        assert AheadOfZombies(procs, q, y, pid);
      } else if AheadOfZombies(procs, q, y, pid) {
        var k :| 0 <= k < |q| && q[k] == y && forall j :: 0 <= j < k ==> !DeadMatch(procs, q[j], pid);
        assert !DeadMatch(procs, q[0], pid);
        assert t[k - 1] == y && forall j :: 0 <= j < k - 1 ==> t[j] == q[j + 1];
      } else if AheadOfZombies(procs, t, y, pid) {
        var k :| 0 <= k < |t| && t[k] == y && forall j :: 0 <= j < k ==> !DeadMatch(procs, t[j], pid);
        assert q[k + 1] == y && forall j :: 0 < j < k + 1 ==> q[j] == t[j - 1];
      }
    }
  }

  // A pid is free again from the exit of its process, so a zombie may share it with a living process: kill reaches
  // the living one exactly if no zombie with the pid comes before it in the search.
  lemma KillReaches(w: World, pids: Pool, y: Ptr)
    requires Inv(w) && PidsOk(w.procs, pids) && y in w.procs && w.procs[y].st == LIVE
    ensures w.root in w.procs
    ensures Find(w, w.root, w.procs[y].pid) == y <==> AheadOfZombies(w.procs, Order(w, w.root), y, w.procs[y].pid)
  {
    hide Inv, Issued, Find, FirstWith, AheadOfZombies;
    NoNull(w);
    var pid := w.procs[y].pid;
    FindFirst(w, w.root, pid);
    assert Own(Pids(w.procs)) by { OwnPids(w.procs, pids); }
    forall x | Matches(w.procs, x, pid) && w.procs[x].st != ZOMBIE ensures x == y {
      assert x in Pids(w.procs) && y in Pids(w.procs);
    }
    FirstIff(w.procs, Order(w, w.root), y, pid);
  }

  lemma OwnPids(procs: Procs, pids: Pool)
    requires PidsOk(procs, pids)
    ensures Own(Pids(procs))
  {
  }

  /** The process table. */
  class Tree {
    var procs: Procs
    var rootproc: map<Ptr, Ptr>
    const root: Ptr
    var pools: map<Ptr, Pool>
    var pids: Pool
    ghost var birth: map<Ptr, nat>
    ghost var clock: nat

    ghost function W(): World
      reads this
    {
      World(procs, rootproc, root, birth, clock)
    }

    // What the loops of exit leave alone.
    ghost function Rest(): (map<Ptr, Ptr>, map<Ptr, Pool>, Pool, map<Ptr, nat>, nat)
      reads this
    {
      (rootproc, pools, pids, birth, clock)
    }

    // Every pid is free or held by one process, in the pool of all and in those of the containers.
    ghost predicate Held()
      reads this
    {
      PidsOk(procs, pids) && LocalsOk(procs, rootproc, pools)
    }

    // define_init(root_proc): the first process, its own parent.
    constructor (root: Ptr, home: Ptr)
      requires root != NULL
      ensures Inv(W()) && Held() && this.root == root
      ensures procs == map[root := Proc(LIVE, root, [], home, 1, 0, false, 0, Sem(0, [], {}), false)]
      ensures rootproc == map[home := root] && pids == Taken(Fresh(1)) && pools == map[home := Taken(Fresh(0))]
      ensures pids.avail == 2 && |pids.freelist| == PID_NUM
      ensures forall i :: 0 <= i < PID_NUM ==> pids.freelist[i] == i
      ensures birth == map[root := 0] && clock == 1
    {
      this.root := root;
      procs := map[root := Proc(LIVE, root, [], home, 1, 0, false, 0, Sem(0, [], {}), false)];
      rootproc := map[home := root];
      pids, pools := Taken(Fresh(1)), map[home := Taken(Fresh(0))];
      birth, clock := map[root := 0], 1;
      new;
      hide Inv, PidsOk, LocalsOk;
      FirstInv(W(), home);
      FirstHeld(procs, rootproc, pools, root, home);
    }

    // init_proc: false if the pool of pids is empty, which it is exactly when 99 processes have not exited.
    method CreateProc(p: Ptr) returns (ok: bool)
      requires Inv(W()) && Held() && p != NULL && p !in procs
      modifies this
      ensures Inv(W()) && Held() && root in old(procs) && |old(pids).freelist| == PID_NUM
      ensures ok <==> |Pids(old(procs))| < PID_NUM - 1
      ensures if !ok then W() == old(W()) && pids == old(pids) && pools == old(pools)
              else old(pids).avail < PID_NUM && pids == Taken(old(pids)) && pools == old(pools)
                   && W() == Created(old(W()), p, old(pids).freelist[old(pids).avail])
      ensures ok ==> pids == old(pids).(avail := old(pids).avail + 1)
                     && NewIn(old(W()), W(), p, old(pids).freelist[old(pids).avail])
    {
      hide Inv, PidsOk, LocalsOk, Balanced, Locals, Pids;
      ghost var w := W();
      UniquePids(procs, rootproc, pools, pids);
      PidsKnown(procs, pids);
      RootKnown(w);
      if pids.avail == PID_NUM {
        return false;
      }
      CreateInv(w, p, pids.freelist[pids.avail]);
      CreatedHeld(w, p, rootproc, pools, pids);
      procs := procs[p := NewRecord(procs[root].home, pids.freelist[pids.avail])];
      pids := Taken(pids);
      birth, clock := birth[p := clock], clock + 1;
      ok := true;
    }

    // set_parent_to_this.
    method SetParentToThis(x: Ptr, p: Ptr)
      requires Inv(W()) && Held() && Parenting(W(), x, p)
      modifies this
      ensures Inv(W()) && Held() && W() == Parented(old(W()), x, p) && pids == old(pids) && pools == old(pools)
      ensures Only(old(W()), W(), {x, p}) && SameFrame(old(W()), W()) && procs[p] == old(procs)[p].(parent := x)
      ensures procs[x] == old(procs)[x].(children := [p] + old(procs)[x].children)
    {
      hide Inv, PidsOk, LocalsOk, Balanced, Locals, Pids;
      ParentInv(W(), x, p);
      SameHeld(procs, Parented(W(), x, p).procs, rootproc, pools, pids);
      procs := procs[p := procs[p].(parent := x)];
      procs := procs[x := procs[x].(children := [p] + procs[x].children)];
    }

    // set_container_to_this, for a process that this process created.
    method SetContainerToThis(x: Ptr, p: Ptr)
      requires Inv(W()) && Held() && x in procs && procs[x].st == LIVE && p in procs && procs[p].st == UNUSED
      requires (forall d :: d in rootproc ==> rootproc[d] != p) && x in birth && p in birth && birth[x] < birth[p]
      modifies this
      ensures Inv(W()) && Held() && W() == Moved(old(W()), p, old(procs)[x].home, false) && pids == old(pids)
      ensures pools == old(pools) && Only(old(W()), W(), {p}) && SameFrame(old(W()), W())
      ensures procs[p] == old(procs)[p].(home := old(procs)[x].home)
    {
      hide Inv, PidsOk, LocalsOk, Balanced, Locals, Pids;
      JoinMoving(W(), x, p);
      MoveInv(W(), p, procs[x].home, false);
      HomesKnown(W());
      MovedHeld(W(), p, procs[x].home, false, pools, pids);
      procs := procs[p := procs[p].(home := procs[x].home)];
    }

    // create_container: p is the first process of the new container c, whose local pids are all free.
    method CreateContainer(c: Ptr, p: Ptr)
      requires Inv(W()) && Held() && c !in rootproc && p in procs && procs[p].st == UNUSED
      requires forall d :: d in rootproc ==> rootproc[d] != p
      modifies this
      ensures Inv(W()) && Held() && W() == Moved(old(W()), p, c, true) && pids == old(pids)
      ensures pools == old(pools)[c := Fresh(0)] && Only(old(W()), W(), {p})
      ensures procs[p] == old(procs)[p].(home := c) && rootproc == old(rootproc)[c := p] && pools[c].avail == 0
      ensures |pools[c].freelist| == PID_NUM && forall i :: 0 <= i < PID_NUM ==> pools[c].freelist[i] == i
    {
      hide Inv, PidsOk, LocalsOk, Balanced, Locals, Pids;
      MoveInv(W(), p, c, true);
      HomesKnown(W());
      MovedHeld(W(), p, c, true, pools, pids);
      pools := pools[c := Fresh(0)];
      procs := procs[p := procs[p].(home := c)];
      rootproc := rootproc[c := p];
    }

    // start_proc: a process without a parent becomes a child of the root process; it gets a local pid, unless
    // its container has none left.
    method StartProc(p: Ptr) returns (ok: bool, id: nat)
      requires Inv(W()) && Held() && p in procs && procs[p].st == UNUSED
      modifies this
      ensures Inv(W()) && Held() && root in old(procs) && root != p && pids == old(pids)
      ensures var w, c := (if old(procs)[p].parent == NULL then Parented(old(W()), root, p) else old(W())),
                old(procs)[p].home;
              c in old(pools) && (ok <==> |Locals(old(procs), c)| < PID_NUM)
              && if !ok then W() == w && pools == old(pools)
                 else old(pools)[c].avail < |old(pools)[c].freelist|
                      && id == old(pools)[c].freelist[old(pools)[c].avail]
                      && W() == Begun(w, p, id) && pools == old(pools)[c := Taken(old(pools)[c])]
      ensures var orphan := old(procs)[p].parent == NULL;
              && Only(old(W()), W(), {root, p}) && SameFrame(old(W()), W())
              && procs[p] == old(procs)[p].(st := if ok then LIVE else UNUSED, parent := procs[p].parent,
                                            localpid := if ok then id else old(procs)[p].localpid)
              && procs[p].parent == (if orphan then root else old(procs)[p].parent)
              && procs[root].children == (if orphan then [p] else []) + old(procs)[root].children
              && procs[root] == old(procs)[root].(children := procs[root].children)
    {
      hide Inv, PidsOk, LocalsOk, Balanced, Locals, Pids;
      StartParenting(W(), p);
      HomeKnown(W(), p);
      UniquePids(procs, rootproc, pools, pids);
      var c := procs[p].home;
      PoolKnown(procs, rootproc, pools, c);
      if procs[p].parent == NULL {
        SetParentToThis(root, p);
      }
      if pools[c].avail == PID_NUM {
        return false, 0;
      }
      id := pools[c].freelist[pools[c].avail];
      BeginInv(W(), p, id);
      BegunHeld(W(), p, rootproc, pools, pids);
      pools := pools[c := Taken(pools[c])];
      procs := procs[p := procs[p].(st := LIVE, localpid := id)];
      ok := true;
    }

    // exit, of the process x with the page directory pd and the sections ss: false if the ASSERT fails, which it does
    // exactly for the first process of a container.
    method Exit(x: Ptr, code: int, pd: PageTable.PageDir, ss: seq<Sections.Section>) returns (ok: bool)
      requires Inv(W()) && Held() && x in procs && procs[x].st == LIVE && Away(procs[x].childexit, x) && !procs[x].holds
      requires pd.Valid() && Sections.SectionsOk(ss)
      requires forall p :: p in Sections.Pages(pd.D(), Sections.AllAddresses(ss)) ==> p !in pd.mem
      modifies this, pd
      ensures Inv(W()) && Held() && pools == old(pools)
      ensures old(procs)[x].home in old(rootproc) && (ok <==> x != old(rootproc)[old(procs)[x].home])
      ensures if ok then Sections.SpaceFreed(old(pd.D()), old(pd.supply), ss, pd.mem, pd.supply)
              else pd.D() == old(pd.D()) && pd.supply == old(pd.supply)
      ensures if !ok then W() == old(W()) && pids == old(pids)
              else W() == Exited(Coded(old(W()), x, code), x)
                   && 0 < old(pids).avail <= |old(pids).freelist| && pids == Given(old(pids), old(procs)[x].pid)
      ensures ok ==> ExitTo(old(W()), W(), x, code) && pids.freelist[pids.avail] == old(procs)[x].pid
    {
      hide Inv, PidsOk, LocalsOk, Balanced, Locals, Pids, PageTable.DirOk, PageTable.SupplyOk, ExitTo;
      hide Sections.Pages, Sections.AllAddresses, Sections.SpaceFreed;
      HomeKnown(W(), x);
      var r := rootproc[procs[x].home];
      if x == r {
        return false;
      }
      CodeInv(W(), x, code);
      ghost var w := Coded(W(), x, code);
      SameHeld(procs, w.procs, rootproc, pools, pids);
      Adopter(w, x);
      Parent(w, x);
      ChildrenKnown(w, x);
      ExitInv(w, x);
      ExitedHeld(w, x, rootproc, pools, pids);
      ExitGoes(W(), x, code);
      procs := procs[x := procs[x].(exitcode := code)];
      var pid := procs[x].pid;
      ExitChanges(x, r, procs[x].children, pd, ss);
      pids := Given(pids, pid);
      ok := true;
    }

    // The changes that exit makes.
    method ExitChanges(x: Ptr, r: Ptr, cs: seq<Ptr>, pd: PageTable.PageDir, ss: seq<Sections.Section>)
      requires x in procs && Exiting(W(), x, r, procs[x].parent, cs) && forall c :: c in cs ==> c in procs
      requires pd.Valid() && Sections.SectionsOk(ss)
      requires forall p :: p in Sections.Pages(pd.D(), Sections.AllAddresses(ss)) ==> p !in pd.mem
      modifies this, pd
      ensures Sections.SpaceFreed(old(pd.D()), old(pd.supply), ss, pd.mem, pd.supply)
      ensures W() == Exited(old(W()), x) && pids == old(pids) && pools == old(pools)
    {
      hide PageTable.DirOk, PageTable.SupplyOk, Sections.Pages, Sections.AllAddresses, Sections.SpaceFreed;
      ghost var w := W();
      var q := procs[x].parent;
      PostZombies(r, cs);
      ghost var a := procs;
      Reparent(r, cs);
      ghost var b := procs;
      ReparentedKeys(w, x, r, q, cs, a, b);
      if cs != [] {
        procs := procs[x := procs[x].(children := [])][r := procs[r].(children := procs[r].children + cs[1..]
                                                                      + [cs[0]])];
      }
      ghost var c := procs;
      NoChildren(b, x, r, cs, c);
      var _ := Sections.FreeSpace(pd, ss);
      procs := procs[q := procs[q].(childexit := Posted(procs[q].childexit))];
      ExitSteps(w, x, r, q, cs, a, b, c, procs);
      hide Reparented, WithPosts, Adopted, Zombies, Posts, Exiting, AfterExit;
      procs := procs[x := procs[x].(st := ZOMBIE)];
    }

    // exit, first loop: one post for every zombie child.
    method PostZombies(r: Ptr, cs: seq<Ptr>)
      requires r in procs && r !in cs && forall c :: c in cs ==> c in procs
      modifies this
      ensures procs == WithPosts(old(procs), r, Zombies(old(procs), cs)) && Rest() == old(Rest())
    {
      ghost var was := procs;
      var i := 0;
      NoPosts(procs[r].childexit);
      assert procs == WithPosts(was, r, 0);
      while i < |cs|
        invariant 0 <= i <= |cs| && Rest() == old(Rest())
        invariant procs == WithPosts(was, r, Zombies(was, cs[..i])) && forall c :: c in cs ==> c in was
      {
        ZombiesNext(was, cs, i);
        PostsThen(was[r].childexit, Zombies(was, cs[..i]));
        assert cs[i] in cs && cs[i] in was;
        if procs[cs[i]].st == ZOMBIE {
          procs := procs[r := procs[r].(childexit := Posted(procs[r].childexit))];
        }
        i := i + 1;
      }
      assert cs[..i] == cs;
    }

    // exit, second loop: the children get their new parent.
    method Reparent(r: Ptr, cs: seq<Ptr>)
      requires forall c :: c in cs ==> c in procs
      modifies this
      ensures Reparented(old(procs), cs, |cs|, r, procs) && Rest() == old(Rest())
    {
      ghost var was := procs;
      var i := 0;
      while i < |cs|
        invariant 0 <= i <= |cs| && Rest() == old(Rest())
        invariant Reparented(was, cs, i, r, procs) && forall c :: c in cs ==> c in was
      {
        assert cs[i] in cs && cs[i] in was;
        ReparentStep(was, cs, i, r, procs);
        procs := procs[cs[i] := procs[cs[i]].(parent := r)];
        i := i + 1;
      }
    }

    // wait, from the test for children to the sleep: -1 without children; true if a token was there.
    method WaitStart(x: Ptr) returns (none: bool, got: bool)
      requires Inv(W()) && Held() && x in procs && procs[x].st == LIVE && Away(procs[x].childexit, x) && !procs[x].holds
      modifies this
      ensures Inv(W()) && Held() && pids == old(pids) && pools == old(pools)
      ensures (none <==> old(procs)[x].children == []) && (got <==> !none && old(procs)[x].childexit.val > 0)
      ensures W() == if none then old(W()) else old(W()).(procs := old(procs)[x := TakeToken(old(procs)[x], x)])
      ensures Only(old(W()), W(), {x}) && procs[x].holds == got
      ensures var s, s' := old(procs)[x].childexit, procs[x].childexit;
              if none then s' == s else s'.val == s.val - 1 && s'.up == s.up
                                        && s'.sleepers == if got then s.sleepers else [x] + s.sleepers
    {
      hide Inv, PidsOk, LocalsOk, Balanced, Locals, Pids;
      if procs[x].children == [] {
        return true, false;
      }
      BalancedAt(W(), x);
      TakeBalanced(procs[x], x, procs);
      SemInv(W(), x, TakeToken(procs[x], x));
      SameHeld(procs, procs[x := TakeToken(procs[x], x)], rootproc, pools, pids);
      none, got := false, procs[x].childexit.val > 0;
      procs := procs[x := TakeToken(procs[x], x)];
    }

    // wait after the sleep: a process that was alerted, not granted, gives up.
    method WaitWake(x: Ptr) returns (got: bool)
      requires Inv(W()) && Held() && x in procs && procs[x].st == LIVE && !Away(procs[x].childexit, x)
      modifies this
      ensures Inv(W()) && Held() && pids == old(pids) && pools == old(pools)
      ensures got <==> x in old(procs)[x].childexit.up
      ensures W() == old(W()).(procs := old(procs)[x := WakeUp(old(procs)[x], x)])
      ensures Only(old(W()), W(), {x}) && procs[x].holds == got && Away(procs[x].childexit, x)
      ensures procs[x].childexit.val == old(procs)[x].childexit.val + if got then 0 else 1
    {
      hide Inv, PidsOk, LocalsOk, Balanced, Locals, Pids;
      BalancedAt(W(), x);
      WakeBalanced(procs[x], x, procs);
      SemInv(W(), x, WakeUp(procs[x], x));
      SameHeld(procs, procs[x := WakeUp(procs[x], x)], rootproc, pools, pids);
      got := x in procs[x].childexit.up;
      procs := procs[x := WakeUp(procs[x], x)];
    }

    // The end of wait: the first zombie child is reaped and its local pid goes back. The PANIC is never reached.
    method WaitReap(x: Ptr) returns (c: Ptr, lpid: nat, exitcode: int, pid: nat)
      requires Inv(W()) && Held() && x in procs && procs[x].st == LIVE && procs[x].holds
      modifies this
      ensures Inv(W()) && Held() && FirstZombie(old(procs), x, c) && W() == Reaped(old(W()), x, c) && c !in procs
      ensures lpid == old(procs)[c].localpid && exitcode == old(procs)[c].exitcode && pid == old(procs)[c].pid
      ensures pids == old(pids)
      ensures c in old(procs) && procs.Keys == old(procs).Keys - {c} && SameFrame(old(W()), W())
      ensures forall y :: y in procs && y != x ==> procs[y] == old(procs)[y]
      ensures x in procs && procs[x] == old(procs)[x].(children := procs[x].children, holds := false)
      ensures exists i :: 0 <= i < |old(procs)[x].children| && old(procs)[x].children[i] == c
                          && procs[x].children == old(procs)[x].children[..i] + old(procs)[x].children[i + 1..]
      ensures var h := old(procs)[c].home;
              h in old(pools) && 0 < old(pools)[h].avail <= |old(pools)[h].freelist|
              && pools == old(pools)[h := Given(old(pools)[h], lpid)]
    {
      hide Inv, PidsOk, LocalsOk, Balanced, Locals, Pids, Without;
      var i := FindZombie(x);
      c := procs[x].children[i];
      ghost var w := W();
      ReapInv(w, x, c);
      HomeKnown(w, c);
      var h := procs[c].home;
      PoolKnown(procs, rootproc, pools, h);
      ReapedHeld(w, x, c, rootproc, pools, pids);
      lpid, exitcode, pid := procs[c].localpid, procs[c].exitcode, procs[c].pid;
      pools := pools[h := Given(pools[h], lpid)];
      ChildrenDistinct(w, x);
      WithoutCut(procs[x].children, i);
      procs := procs[x := procs[x].(children := Without(procs[x].children, c), holds := false)];
      procs := procs - {c};
    }

    // The loop of wait.
    method FindZombie(x: Ptr) returns (i: nat)
      requires Inv(W()) && x in procs && procs[x].st == LIVE && procs[x].holds
      ensures i < |procs[x].children| && FirstZombie(procs, x, procs[x].children[i]) && procs[x].children[i] != x
    {
      hide Inv, PidsOk, LocalsOk, Balanced, Locals, Pids;
      TokenMeansZombie(W(), x);
      ghost var k :| 0 <= k < |procs[x].children| && procs[x].children[k] in procs
        && procs[procs[x].children[k]].st == ZOMBIE;
      ChildrenThere(W(), x);
      i := 0;
      while procs[procs[x].children[i]].st != ZOMBIE
        invariant i <= k
        invariant forall j :: 0 <= j < i ==> procs[procs[x].children[j]].st != ZOMBIE
        decreases k - i
      {
        i := i + 1;
      }
    }

    // The exit of a child and the wait of its parent x after it, with no other zombie child: the parent learns the
    // child's exit code, pid and local pid.
    method ExitThenWait(x: Ptr, c: Ptr, code: int, pd: PageTable.PageDir, ss: seq<Sections.Section>)
      returns (lpid: nat, exitcode: int, pid: nat)
      requires Inv(W()) && Held() && x in procs && procs[x].st == LIVE && Away(procs[x].childexit, x) && !procs[x].holds
      requires c in procs && c in procs[x].children && procs[c].st == LIVE && Away(procs[c].childexit, c)
      requires !procs[c].holds && procs[c].home in rootproc && c != rootproc[procs[c].home]
      requires forall d :: d in procs[x].children && d in procs ==> procs[d].st != ZOMBIE
      requires pd.Valid() && Sections.SectionsOk(ss)
      requires forall p :: p in Sections.Pages(pd.D(), Sections.AllAddresses(ss)) ==> p !in pd.mem
      modifies this, pd
      ensures Inv(W()) && Held() && c !in procs && exitcode == code
      ensures pid == old(procs)[c].pid && lpid == old(procs)[c].localpid
    {
      hide Inv, PidsOk, LocalsOk, Balanced, Locals, Pids, PageTable.DirOk, PageTable.SupplyOk, Zombies, Without;
      hide Sections.Pages, Sections.AllAddresses, Sections.SpaceFreed, Posts, Posted, FirstZombie, Exited, Coded;
      hide Waited, Fresh, Given, Taken, InUse, SemOk, Tokens;
      ghost var w := W();
      OnlyZombie(w, x, c, code);
      var ok := Exit(c, code, pd, ss);
      ghost var w1 := W();
      TokenThere(w1, x, c);
      var none, got := WaitStart(x);
      ghost var d;
      d, lpid, exitcode, pid := WaitReap(x);
      TakenFirst(w1.procs, x, d);
      ExitedIds(w, c, code);
    }

    // kill: 0 exactly if some started process has the pid; the first that the search finds is marked.
    method Kill(pid: int) returns (r: int)
      requires Inv(W()) && Held()
      modifies this
      ensures Inv(W()) && Held() && pids == old(pids) && pools == old(pools)
      ensures (r == 0 <==> exists y :: y in old(procs) && old(procs)[y].st != UNUSED && old(procs)[y].pid == pid)
      ensures root in old(procs) && r == (if Find(old(W()), root, pid) == NULL then -1 else 0)
      ensures var y := Find(old(W()), root, pid);
              W() == if y == NULL then old(W()) else old(W()).(procs := old(procs)[y := old(procs)[y].(killed := true)])
    {
      hide Inv, PidsOk, LocalsOk, Balanced, Locals, Pids;
      FindComplete(W(), pid);
      var p := Search(root, pid);
      if p == NULL {
        return -1;
      }
      KillInv(W(), p);
      SameHeld(procs, procs[p := procs[p].(killed := true)], rootproc, pools, pids);
      procs := procs[p := procs[p].(killed := true)];
      return 0;
    }

    // dfs.
    method Search(x: Ptr, pid: int) returns (r: Ptr)
      requires Inv(W()) && x in procs
      ensures r == Find(W(), x, pid)
      decreases W().clock - W().birth[x]
    {
      if procs[x].pid == pid && procs[x].st != UNUSED {
        return x;
      }
      var i := 0;
      while i < |procs[x].children|
        invariant 0 <= i <= |procs[x].children| && FindIn(W(), x, 0, pid) == FindIn(W(), x, i, pid)
      {
        ChildYounger(W(), x, i);
        r := Search(procs[x].children[i], pid);
        if r != NULL {
          return;
        }
        i := i + 1;
      }
      return NULL;
    }
  }

  lemma FirstInv(w: World, home: Ptr)
    requires w.root != NULL && w.rootproc == map[home := w.root] && w.birth == map[w.root := 0] && w.clock == 1
    requires w.procs == map[w.root := Proc(LIVE, w.root, [], home, 1, 0, false, 0, Sem(0, [], {}), false)]
    ensures Inv(w)
  {
    hide Linked, Tokened, Aged;
    FirstLinked(w.procs, w.root, home);
    FirstTokened(w.procs, w.root, home);
    FirstAged(w, home);
  }

  lemma FirstLinked(procs: Procs, root: Ptr, home: Ptr)
    requires root != NULL
    requires procs == map[root := Proc(LIVE, root, [], home, 1, 0, false, 0, Sem(0, [], {}), false)]
    ensures Linked(procs, root)
  {
  }

  lemma FirstTokened(procs: Procs, root: Ptr, home: Ptr)
    requires procs == map[root := Proc(LIVE, root, [], home, 1, 0, false, 0, Sem(0, [], {}), false)]
    ensures Tokened(procs)
  {
  }

  lemma FirstAged(w: World, home: Ptr)
    requires w.root != NULL && w.rootproc == map[home := w.root] && w.birth == map[w.root := 0] && w.clock == 1
    requires w.procs == map[w.root := Proc(LIVE, w.root, [], home, 1, 0, false, 0, Sem(0, [], {}), false)]
    ensures Aged(w)
  {
  }

  lemma ChildrenDistinct(w: World, x: Ptr)
    requires Inv(w) && x in w.procs
    ensures Distinct(w.procs[x].children)
  {
    hide Aged, States, Tokened;
    assert ListOk(w.procs, w.root, x);
  }

  lemma SplitFirst(q: seq<Ptr>, i: nat)
    requires 0 < i < |q|
    ensures [q[0]] + (q[1..][..i - 1] + q[1..][i..]) == q[..i] + q[i + 1..]
  {
    assert q[1..][i..] == q[i + 1..];
    assert [q[0]] + q[1..][..i - 1] == q[..i];
  }

  lemma {:induction false} WithoutCut(q: seq<Ptr>, i: nat)
    requires Distinct(q) && i < |q|
    ensures Without(q, q[i]) == q[..i] + q[i + 1..]
  {
    if i > 0 {
      WithoutCut(q[1..], i - 1);
      SplitFirst(q, i);
    }
  }

  // After the exit of c it is the first zombie child of x.
  lemma OnlyZombie(w: World, x: Ptr, c: Ptr, code: int)
    requires Inv(w) && x in w.procs && c in w.procs && c in w.procs[x].children && w.procs[c].home in w.rootproc
    requires Away(w.procs[x].childexit, x) && !w.procs[x].holds
    requires forall d :: d in w.procs[x].children && d in w.procs ==> w.procs[d].st != ZOMBIE
    ensures var procs' := Exited(Coded(w, c, code), c).procs;
            && x in procs' && c in procs' && procs'[c].st == ZOMBIE && c in procs'[x].children
            && procs'[x].st == w.procs[x].st && Away(procs'[x].childexit, x) && !procs'[x].holds && x != c
            && forall d :: FirstZombie(procs', x, d) ==> d == c
  {
    hide Inv, Posts, Zombies;
    var procs' := Exited(Coded(w, c, code), c).procs;
    ChildrenKnown(w, x);
    NotOwnChild(w, x, c);
    BalancedAt(w, x);
    var n := (if x == w.rootproc[w.procs[c].home] then Zombies(w.procs, w.procs[c].children) else 0)
             + (if x == w.procs[c].parent then 1 else 0);
    CodedZombies(w, c, code);
    PostsOk(w.procs[x].childexit, n);
    assert |procs'[x].children| >= |w.procs[x].children|;
    assert procs'[x].children[..|w.procs[x].children|] == w.procs[x].children;
    hide Exited, Coded, AfterExit;
    StatesAfter(w, c, code);
    FirstIs(procs', x, w.procs[x].children, c);
  }

  lemma StatesAfter(w: World, c: Ptr, code: int)
    requires c in w.procs && w.procs[c].home in w.rootproc
    ensures var procs' := Exited(Coded(w, c, code), c).procs;
            procs'.Keys == w.procs.Keys && forall y :: y in procs' && y != c ==> procs'[y].st == w.procs[y].st
    ensures Exited(Coded(w, c, code), c).procs[c].st == ZOMBIE
  {
    hide Posts, Zombies, Adopted;
  }

  // The one zombie among the first children is the first zombie.
  lemma FirstIs(procs: Procs, x: Ptr, was: seq<Ptr>, c: Ptr)
    requires x in procs && c in was && |was| <= |procs[x].children| && procs[x].children[..|was|] == was
    requires forall d :: d in was && d != c ==> d in procs && procs[d].st != ZOMBIE
    requires c in procs && procs[c].st == ZOMBIE
    ensures c in procs[x].children && forall d :: FirstZombie(procs, x, d) ==> d == c
  {
    var q := procs[x].children;
    var i :| 0 <= i < |was| && was[i] == c;
    assert q[i] == c;
    forall d | FirstZombie(procs, x, d) ensures d == c {
      var k :| 0 <= k < |q| && q[k] == d && forall j :: 0 <= j < k ==> q[j] in procs && procs[q[j]].st != ZOMBIE;
      assert k <= i;
      assert was[k] in was && was[k] == d;
    }
  }

  lemma ExitedIds(w: World, c: Ptr, code: int)
    requires c in w.procs && w.procs[c].home in w.rootproc
    ensures c in Exited(Coded(w, c, code), c).procs
    ensures var p := Exited(Coded(w, c, code), c).procs[c];
            p.pid == w.procs[c].pid && p.localpid == w.procs[c].localpid && p.exitcode == code
  {
    hide Posts, Zombies;
  }

  lemma NotOwnChild(w: World, x: Ptr, c: Ptr)
    requires Inv(w) && x in w.procs && c in w.procs[x].children
    ensures x != c
  {
    hide States, Tokened;
    Younger(w, x, c);
  }

  lemma CodedZombies(w: World, c: Ptr, code: int)
    requires c in w.procs
    ensures Zombies(Coded(w, c, code).procs, w.procs[c].children) == Zombies(w.procs, w.procs[c].children)
  {
    SameZombies(w.procs, Coded(w, c, code).procs, w.procs[c].children);
  }

  lemma {:induction false} SameZombies(procs: Procs, procs': Procs, q: seq<Ptr>)
    requires procs'.Keys == procs.Keys && forall y :: y in procs ==> procs'[y].st == procs[y].st
    ensures Zombies(procs', q) == Zombies(procs, q)
  {
    if q != [] {
      assert q[0] in procs.Keys <==> q[0] in procs'.Keys;
      SameZombies(procs, procs', q[1..]);
    }
  }

  // Taking a token changes neither children nor states.
  lemma TakenFirst(procs: Procs, x: Ptr, d: Ptr)
    requires x in procs && FirstZombie(procs[x := TakeToken(procs[x], x)], x, d)
    ensures FirstZombie(procs, x, d)
    ensures d in procs && d != x && procs[x := TakeToken(procs[x], x)][d] == procs[d]
  {
  }

  // A process with a zombie child that holds no token has one to take.
  lemma TokenThere(w: World, x: Ptr, c: Ptr)
    requires Inv(w) && x in w.procs && c in w.procs && c in w.procs[x].children && w.procs[c].st == ZOMBIE
    requires w.procs[x].st == LIVE && Away(w.procs[x].childexit, x) && !w.procs[x].holds
    ensures w.procs[x].childexit.val > 0
  {
    hide Inv;
    BalancedAt(w, x);
    ZombiesWithout(w.procs, w.procs[x].children, c);
    var s := w.procs[x].childexit;
    assert forall y :: y !in s.up;
    assert s.up == {};
  }

  lemma FirstHeld(procs: Procs, rootproc: map<Ptr, Ptr>, pools: map<Ptr, Pool>, root: Ptr, home: Ptr)
    requires procs == map[root := Proc(LIVE, root, [], home, 1, 0, false, 0, Sem(0, [], {}), false)]
    requires rootproc == map[home := root] && pools == map[home := Taken(Fresh(0))]
    ensures PidsOk(procs, Taken(Fresh(1))) && LocalsOk(procs, rootproc, pools)
  {
    hide Issued;
    IssueFresh(0);
    IssueFresh(1);
    IssueTake(Fresh(1), Counting.Range(1), map[], root);
    IssueTake(Fresh(0), Counting.Range(0), map[], root);
    assert Counting.Range(0) == {};
    assert Pids(procs) == map[root := 1] && Locals(procs, home) == map[root := 0];
  }

  // The processes are the same ones but for what is said of ys.
  ghost predicate Only(w: World, w': World, ys: set<Ptr>) {
    && w'.procs.Keys == w.procs.Keys && w'.root == w.root
    && forall y :: y in w.procs && y !in ys ==> w'.procs[y] == w.procs[y]
  }

  // A process more, with the pid and in the container of the root process.
  ghost predicate NewIn(w: World, w': World, p: Ptr, pid: nat) {
    && w'.procs.Keys == w.procs.Keys + {p} && w'.root == w.root && w.root in w.procs && w'.rootproc == w.rootproc
    && (forall y :: y in w.procs && y != p ==> w'.procs[y] == w.procs[y])
    && w'.procs[p] == Proc(UNUSED, NULL, [], w.procs[w.root].home, pid, 0, false, 0, Sem(0, [], {}), false)
  }

  // Nothing but the process records has changed.
  ghost predicate SameFrame(w: World, w': World) {
    w'.rootproc == w.rootproc && w'.root == w.root && w'.birth == w.birth && w'.clock == w.clock
  }

  // What exit makes of every process: x is a zombie with its exit code and without children, which the first process
  // of its container has at the end of its list, the first of them last; that process has one post more for each of
  // them that is a zombie, and the parent of x has one for x.
  ghost predicate ExitTo(w: World, w': World, x: Ptr, code: int)
    requires x in w.procs && w.procs[x].home in w.rootproc
  {
    var r, q, cs := w.rootproc[w.procs[x].home], w.procs[x].parent, w.procs[x].children;
    && w'.procs.Keys == w.procs.Keys && SameFrame(w, w')
    && forall y :: y in w.procs ==> ExitOne(w.procs[y], w'.procs[y], y, x, r, q, cs, code, Zombies(w.procs, cs))
  }

  ghost predicate ExitOne(p: Proc, p': Proc, y: Ptr, x: Ptr, r: Ptr, q: Ptr, cs: seq<Ptr>, code: int, n: nat) {
    && p'.home == p.home && p'.pid == p.pid && p'.localpid == p.localpid && p'.killed == p.killed
    && p'.holds == p.holds && p'.exitcode == (if y == x then code else p.exitcode)
    && p'.st == (if y == x then ZOMBIE else p.st) && p'.parent == (if y in cs then r else p.parent)
    && (y == x ==> p'.children == []) && (y != x && y != r ==> p'.children == p.children)
    && (y != x && y == r ==> p'.children == if cs == [] then p.children else p.children + cs[1..] + [cs[0]])
    && (y != r && y != q ==> p'.childexit == p.childexit)
    && p'.childexit.val == p.childexit.val + (if y == r then n else 0) + (if y == q then 1 else 0)
  }

  lemma {:induction false} PostsValue(s: Sem, n: nat)
    ensures Posts(s, n).val == s.val + n
    decreases n
  {
    if n > 0 {
      PostsValue(Posted(s), n - 1);
    }
  }

  lemma ExitGoes(w: World, x: Ptr, code: int)
    requires x in w.procs && w.procs[x].home in w.rootproc
    ensures ExitTo(w, Exited(Coded(w, x, code), x), x, code)
  {
    var w1 := Coded(w, x, code);
    var r, q, cs := w.rootproc[w.procs[x].home], w.procs[x].parent, w.procs[x].children;
    CodedZombies(w, x, code);
    hide Zombies, ExitOne, AfterExit;
    forall y | y in w.procs
      ensures ExitOne(w.procs[y], AfterExit(w1, x, y), y, x, r, q, cs, code, Zombies(w.procs, cs))
    {
      ExitGoesOne(w, x, y, code);
    }
  }

  lemma ExitGoesOne(w: World, x: Ptr, y: Ptr, code: int)
    requires x in w.procs && w.procs[x].home in w.rootproc && y in w.procs
    ensures var r, q, cs := w.rootproc[w.procs[x].home], w.procs[x].parent, w.procs[x].children;
            ExitOne(w.procs[y], AfterExit(Coded(w, x, code), x, y), y, x, r, q, cs, code, Zombies(w.procs, cs))
  {
    hide Zombies;
    CodedZombies(w, x, code);
    var r, q, cs := w.rootproc[w.procs[x].home], w.procs[x].parent, w.procs[x].children;
    var n := (if y == r then Zombies(w.procs, cs) else 0) + (if y == q then 1 else 0);
    PostsValue(w.procs[y].childexit, n);
    NoPosts(w.procs[y].childexit);
    hide Posts;
  }

  // exit, first: the exit code.
  function Coded(w: World, x: Ptr, code: int): World
    requires x in w.procs
  {
    w.(procs := w.procs[x := w.procs[x].(exitcode := code)])
  }

  lemma KillInv(w: World, x: Ptr)
    requires Inv(w) && x in w.procs
    ensures Inv(w.(procs := w.procs[x := w.procs[x].(killed := true)]))
  {
    hide Inv, Zombies, SemOk, Tokens;
    BalancedAt(w, x);
    SemInv(w, x, w.procs[x].(killed := true));
  }

  lemma CodeInv(w: World, x: Ptr, code: int)
    requires Inv(w) && x in w.procs
    ensures Inv(Coded(w, x, code))
  {
    hide Inv, Zombies, SemOk, Tokens;
    BalancedAt(w, x);
    SemInv(w, x, w.procs[x].(exitcode := code));
  }

  // c is the first zombie among the children of x.
  ghost predicate FirstZombie(procs: Procs, x: Ptr, c: Ptr)
    requires x in procs
  {
    && c in procs && procs[c].st == ZOMBIE && c != x
    && exists i :: 0 <= i < |procs[x].children| && procs[x].children[i] == c
         && forall j :: 0 <= j < i ==> procs[x].children[j] in procs && procs[procs[x].children[j]].st != ZOMBIE
  }

  lemma BalancedAt(w: World, x: Ptr)
    requires Inv(w) && x in w.procs
    ensures Balanced(w.procs[x], x, w.procs)
  {
    hide Linked, Aged, States;
  }

  lemma PidsKnown(procs: Procs, pids: Pool)
    requires PidsOk(procs, pids)
    ensures |pids.freelist| == PID_NUM && pids.avail <= PID_NUM
  {
  }

  lemma RootKnown(w: World)
    requires Inv(w)
    ensures w.root in w.procs
  {
    hide Aged, States, Tokened;
  }

  lemma HomesKnown(w: World)
    requires Inv(w)
    ensures forall x :: x in w.procs ==> w.procs[x].home in w.rootproc
  {
    hide Inv;
    forall x | x in w.procs ensures w.procs[x].home in w.rootproc {
      HomeKnown(w, x);
    }
  }

  lemma PoolKnown(procs: Procs, rootproc: map<Ptr, Ptr>, pools: map<Ptr, Pool>, c: Ptr)
    requires LocalsOk(procs, rootproc, pools) && c in rootproc
    ensures c in pools && |pools[c].freelist| == PID_NUM && pools[c].avail <= PID_NUM
  {
    assert c in pools.Keys;
    assert Issued(pools[c], {}, Locals(procs, c));
  }

  lemma StartParenting(w: World, p: Ptr)
    requires Inv(w) && p in w.procs && w.procs[p].st == UNUSED
    ensures w.root in w.procs && w.root != p && w.root != NULL
    ensures w.procs[p].parent == NULL ==> Parenting(w, w.root, p)
  {
    hide Tokened, ListsOk, ParentsOk, ParentsLive, Started, FirstsLive;
  }

  lemma HomeKnown(w: World, x: Ptr)
    requires Inv(w) && x in w.procs
    ensures w.procs[x].home in w.rootproc && w.rootproc[w.procs[x].home] in w.procs
  {
    hide Tokened, Linked, States;
    assert FirstOldest(w, x);
  }

  lemma ChildrenKnown(w: World, x: Ptr)
    requires Inv(w) && x in w.procs
    ensures forall c :: c in w.procs[x].children ==> c in w.procs
  {
    hide Tokened, Aged, States;
    assert ListOk(w.procs, w.root, x);
  }

  lemma ChildrenThere(w: World, x: Ptr)
    requires Inv(w) && x in w.procs
    ensures forall i :: 0 <= i < |w.procs[x].children| ==> w.procs[x].children[i] in w.procs
  {
    hide Inv;
    ChildrenKnown(w, x);
    assert forall c :: c in w.procs[x].children ==> c in w.procs;
    forall i | 0 <= i < |w.procs[x].children| ensures w.procs[x].children[i] in w.procs {
      assert w.procs[x].children[i] in w.procs[x].children;
    }
  }

  lemma ReparentedKeys(w: World, x: Ptr, r: Ptr, q: Ptr, cs: seq<Ptr>, a: Procs, b: Procs)
    requires Exiting(w, x, r, q, cs) && a == WithPosts(w.procs, r, Zombies(w.procs, cs))
    requires Reparented(a, cs, |cs|, r, b)
    ensures x in b && r in b && q in b && b.Keys == w.procs.Keys && b[x].children == cs
  {
    assert x in b.Keys && r in b.Keys && q in b.Keys;
  }

  lemma NoChildren(b: Procs, x: Ptr, r: Ptr, cs: seq<Ptr>, c: Procs)
    requires x in b && r in b && x != r && (cs == [] ==> c == b && b[x].children == [])
    requires cs != [] ==> c == b[x := b[x].(children := [])][r := b[r].(children := b[r].children + cs[1..] + [cs[0]])]
    ensures c == b[x := b[x].(children := [])][r := b[r].(children := Adopted(b[r].children, cs))]
  {
  }
}
