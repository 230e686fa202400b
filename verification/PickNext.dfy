/** The pick of the next process (src/kernel/sched.c): a descent through the queues of the containers that
    marks groups without runnable processes and climbs back. */
module PickNext {
  import opened Basics
  import opened RbShape
  import opened RunQueue

  // A container: its parent and its queue, in order. A queue entry is the address of the scheduling record
  // of a container (a group) or of a process.
  datatype Con = Con(parent: Ptr, queue: seq<Ptr>, node_cnt: int)
  type Cons = map<Ptr, Con>

  // The containers form a tree below root, every one a level below its parent; queues hold only own children.
  datatype Shape = Shape(con: Cons, root: Ptr, depth: map<Ptr, nat>, bottom: nat)

  ghost predicate Forest(s: Shape) {
    Rooted(s) && Nested(s) && Own(s.con, s.root) && Counted(s.con)
  }

  ghost predicate Rooted(s: Shape) {
    NULL !in s.con && s.root in s.con && s.con[s.root].parent == NULL
  }

  ghost predicate Nested(s: Shape) {
    && (forall c :: c in s.con ==> c in s.depth && s.depth[c] <= s.bottom)
    && (forall c :: c in s.con && c != s.root ==>
        s.con[c].parent in s.con && s.depth[c] == s.depth[s.con[c].parent] + 1)
  }

  ghost predicate Own(con: Cons, root: Ptr) {
    forall c, x :: c in con && x in con[c].queue ==> x != NULL && (x in con ==> x != root && con[x].parent == c)
  }

  ghost predicate Counted(con: Cons) {
    forall c :: c in con ==> con[c].node_cnt == |con[c].queue|
  }

  // Some process can be reached from the queue of c.
  ghost predicate Alive(s: Shape, c: Ptr)
    requires Forest(s) && c in s.con
    decreases s.bottom - s.depth[c]
  {
    exists x :: x in s.con[c].queue && (x in s.con ==> Alive(s, x))
  }

  // The entry x of some queue leads to a process.
  ghost predicate Leads(s: Shape, x: Ptr)
    requires Forest(s)
  {
    x in s.con ==> Alive(s, x)
  }

  // The least entry of c's queue that leads to a process.
  ghost predicate Least(s: Shape, c: Ptr, i: nat)
    requires Forest(s) && c in s.con
  {
    i < |s.con[c].queue| && Leads(s, s.con[c].queue[i]) && forall j :: 0 <= j < i ==> !Leads(s, s.con[c].queue[j])
  }

  // The process p is reached from c by taking the least entry that leads to a process at every level.
  ghost predicate Best(s: Shape, c: Ptr, p: Ptr)
    requires Forest(s) && c in s.con
    decreases s.bottom - s.depth[c]
  {
    exists i: nat :: Least(s, c, i) && (var x := s.con[c].queue[i]; if x in s.con then Best(s, x, p) else x == p)
  }

  // There is at most one such process.
  lemma {:induction false} BestUnique(s: Shape, c: Ptr, p: Ptr, q: Ptr)
    requires Forest(s) && c in s.con && Best(s, c, p) && Best(s, c, q)
    ensures p == q
    decreases s.bottom - s.depth[c]
  {
    var i: nat :| Least(s, c, i) && (var x := s.con[c].queue[i]; if x in s.con then Best(s, x, p) else x == p);
    var j: nat :| Least(s, c, j) && (var x := s.con[c].queue[j]; if x in s.con then Best(s, x, q) else x == q);
    assert i == j;
    var x := s.con[c].queue[i];
    if x in s.con {
      BestUnique(s, x, p, q);
    }
  }

  // And there is one whenever some process can be reached.
  lemma {:induction false} BestExists(s: Shape, c: Ptr) returns (p: Ptr)
    requires Forest(s) && c in s.con && Alive(s, c)
    ensures Best(s, c, p)
    decreases s.bottom - s.depth[c]
  {
    var q := s.con[c].queue;
    var y :| y in q && Leads(s, y);
    var i := LeastFrom(s, c, 0);
    var x := q[i];
    if x in s.con {
      p := BestExists(s, x);
    } else {
      p := x;
    }
  }

  lemma {:induction false} LeastFrom(s: Shape, c: Ptr, k: nat) returns (i: nat)
    requires Forest(s) && c in s.con && k <= |s.con[c].queue|
    requires forall j :: 0 <= j < k ==> !Leads(s, s.con[c].queue[j])
    requires Alive(s, c)
    ensures Least(s, c, i)
    decreases |s.con[c].queue| - k
  {
    var q := s.con[c].queue;
    var y :| y in q && Leads(s, y);
    var m :| 0 <= m < |q| && q[m] == y;
    if Leads(s, q[k]) {
      i := k;
    } else {
      i := LeastFrom(s, c, k + 1);
    }
  }

  // A container that Best passes through so far: every entry before it, at every level above, leads nowhere,
  // and neither it nor any container above it is marked.
  ghost predicate OnPath(s: Shape, skip: set<Ptr>, c: Ptr)
    requires Forest(s) && c in s.con
    decreases s.depth[c]
  {
    && c !in skip
    && (c != s.root ==>
          var p := s.con[c].parent;
          && OnPath(s, skip, p)
          && exists i :: 0 <= i < |s.con[p].queue| && s.con[p].queue[i] == c && forall j :: 0 <= j < i ==>
               !Leads(s, s.con[p].queue[j]))
  }

  // What Best finds below a container on the path is what it finds from the root.
  lemma {:induction false} PathBest(s: Shape, skip: set<Ptr>, c: Ptr, p: Ptr)
    requires Forest(s) && c in s.con && OnPath(s, skip, c) && Best(s, c, p)
    ensures Best(s, s.root, p)
    decreases s.depth[c]
  {
    if c != s.root {
      var u := s.con[c].parent;
      var i :| 0 <= i < |s.con[u].queue| && s.con[u].queue[i] == c && forall j :: 0 <= j < i ==>
          !Leads(s, s.con[u].queue[j]);
      BestAlive(s, c, p);
      assert Least(s, u, i);
      PathBest(s, skip, u, p);
    }
  }

  lemma BestAlive(s: Shape, c: Ptr, p: Ptr)
    requires Forest(s) && c in s.con && Best(s, c, p)
    ensures Alive(s, c)
  {
    var i: nat :| Least(s, c, i) && (var x := s.con[c].queue[i]; if x in s.con then Best(s, x, p) else x == p);
    assert s.con[c].queue[i] in s.con[c].queue;
  }

  // Marking a container at or below c's level leaves the containers above c on the path.
  lemma {:induction false} PathMark(s: Shape, skip: set<Ptr>, c: Ptr, g: Ptr)
    requires Forest(s) && c in s.con && g in s.con && OnPath(s, skip, c) && s.depth[c] < s.depth[g]
    ensures OnPath(s, skip + {g}, c)
    decreases s.depth[c]
  {
    if c != s.root {
      PathMark(s, skip, s.con[c].parent, g);
    }
  }

  // Only groups that lead nowhere are marked.
  ghost predicate MarksOk(s: Shape, skip: set<Ptr>)
    requires Forest(s)
  {
    forall g :: g in skip ==> g in s.con && g != s.root && !Alive(s, g)
  }

  // A container all of whose entries are marked leads nowhere.
  lemma AllMarked(s: Shape, skip: set<Ptr>, c: Ptr)
    requires Forest(s) && c in s.con && MarksOk(s, skip)
    requires forall j :: 0 <= j < |s.con[c].queue| ==> s.con[c].queue[j] in skip
    ensures !Alive(s, c)
  {
    forall x | x in s.con[c].queue ensures !Leads(s, x) {
      var j :| 0 <= j < |s.con[c].queue| && s.con[c].queue[j] == x;
    }
  }

  // The first unmarked entry, a group, continues the path.
  lemma PathDown(s: Shape, skip: set<Ptr>, c: Ptr, i: nat)
    requires Forest(s) && c in s.con && MarksOk(s, skip) && OnPath(s, skip, c)
    requires i < |s.con[c].queue| && s.con[c].queue[i] in s.con && s.con[c].queue[i] !in skip
    requires forall j :: 0 <= j < i ==> s.con[c].queue[j] in skip
    ensures var g := s.con[c].queue[i];
            s.con[g].parent == c && s.depth[g] == s.depth[c] + 1 && g != s.root && OnPath(s, skip, g)
  {
    var g := s.con[c].queue[i];
    assert g in s.con[c].queue;
    assert forall j :: 0 <= j < i ==> !Leads(s, s.con[c].queue[j]);
  }

  // The first unmarked entry, a process, is the best one.
  lemma PathEnd(s: Shape, skip: set<Ptr>, c: Ptr, i: nat)
    requires Forest(s) && c in s.con && MarksOk(s, skip) && OnPath(s, skip, c)
    requires i < |s.con[c].queue| && s.con[c].queue[i] !in s.con && forall j :: 0 <= j < i ==> s.con[c].queue[j] in skip
    ensures Best(s, s.root, s.con[c].queue[i])
  {
    assert Least(s, c, i);
    PathBest(s, skip, c, s.con[c].queue[i]);
  }

  // The group g is reached from a through queues.
  ghost predicate Under(s: Shape, g: Ptr, a: Ptr)
    requires Forest(s) && g in s.con
    decreases s.depth[g]
  {
    g == a || (g != s.root && g in s.con[s.con[g].parent].queue && Under(s, s.con[g].parent, a))
  }

  lemma {:induction false} PathUnder(s: Shape, skip: set<Ptr>, c: Ptr)
    requires Forest(s) && c in s.con && OnPath(s, skip, c)
    ensures Under(s, c, s.root)
    decreases s.depth[c]
  {
    if c != s.root {
      PathUnder(s, skip, s.con[c].parent);
    }
  }

  // What is under a and is not a is under some entry of a's queue.
  lemma {:induction false} UnderEntry(s: Shape, g: Ptr, a: Ptr) returns (i: nat)
    requires Forest(s) && g in s.con && a in s.con && Under(s, g, a) && g != a
    ensures i < |s.con[a].queue| && s.con[a].queue[i] in s.con && Under(s, g, s.con[a].queue[i])
    decreases s.depth[g]
  {
    var p := s.con[g].parent;
    if p == a {
      i :| 0 <= i < |s.con[a].queue| && s.con[a].queue[i] == g;
    } else {
      i := UnderEntry(s, p, a);
    }
  }

  // The search stands at c: the marks so far are right, and c is on the path.
  ghost predicate Search(s: Shape, skip: set<Ptr>, c: Ptr) {
    && Forest(s) && c in s.con && MarksOk(s, skip) && OnPath(s, skip, c)
    && Marked(s, skip)
  }

  // Marked groups are reached from the root.
  ghost predicate Marked(s: Shape, skip: set<Ptr>)
    requires Forest(s)
  {
    forall g :: g in skip ==> g in s.con && g != s.root && Under(s, g, s.root)
  }

  // How many containers are unmarked, and how far the bottom is.
  ghost function Rank(s: Shape, skip: set<Ptr>): nat { |s.con.Keys - skip| }

  ghost function Level(s: Shape, c: Ptr): nat {
    if c in s.depth && s.depth[c] <= s.bottom then s.bottom - s.depth[c] else 0
  }

  ghost predicate Picked(s: Shape, p: Ptr) {
    Forest(s) && if p == NULL then !Alive(s, s.root) else Best(s, s.root, p)
  }

  lemma RankDrops(s: Shape, skip: set<Ptr>, g: Ptr)
    requires g in s.con && g !in skip
    ensures Rank(s, skip + {g}) < Rank(s, skip)
  {
    assert s.con.Keys - (skip + {g}) == (s.con.Keys - skip) - {g};
  }

  lemma Look(s: Shape, c: Ptr)
    requires Forest(s) && c in s.con
    ensures NULL !in s.con[c].queue && s.con[c].node_cnt == |s.con[c].queue|
    ensures c != s.root ==> s.con[c].parent in s.con
  {
  }

  // Climbing from a container whose entries are all marked.
  lemma ClimbStep(s: Shape, skip: set<Ptr>, c: Ptr)
    requires Search(s, skip, c) && c != s.root && FirstIn(s.con[c].queue, skip) == NULL
    ensures s.con[c].parent in s.con && Search(s, skip + {c}, s.con[c].parent) && Rank(s, skip + {c}) < Rank(s, skip)
    ensures s.con[s.con[c].parent].queue != []
  {
    var i := FirstInAt(s.con[c].queue, skip);
    AllMarked(s, skip, c);
    PathMark(s, skip, s.con[c].parent, c);
    PathUnder(s, skip, c);
    RankDrops(s, skip, c);
  }

  // Nothing left at the root.
  lemma RootStep(s: Shape, skip: set<Ptr>)
    requires Search(s, skip, s.root) && FirstIn(s.con[s.root].queue, skip) == NULL
    ensures Picked(s, NULL)
  {
    var i := FirstInAt(s.con[s.root].queue, skip);
    AllMarked(s, skip, s.root);
  }

  // The queues without the entry p of h's queue.
  function Dropped(con: Cons, h: Ptr, p: Ptr): (r: Cons)
    requires h in con
  {
    con[h := con[h].(queue := Without(con[h].queue, p), node_cnt := con[h].node_cnt - 1)]
  }

  // Dropping a process keeps the tree of containers and the groups reached from the root.
  lemma DropForest(s: Shape, h: Ptr, p: Ptr)
    requires Forest(s) && h in s.con && p in s.con[h].queue && p !in s.con
    ensures Forest(s.(con := Dropped(s.con, h, p)))
  {
  }

  lemma {:induction false} DropUnder(s: Shape, h: Ptr, p: Ptr, g: Ptr)
    requires Forest(s) && h in s.con && p in s.con[h].queue && p !in s.con && g in s.con && Under(s, g, s.root)
    requires Forest(s.(con := Dropped(s.con, h, p)))
    ensures Under(s.(con := Dropped(s.con, h, p)), g, s.root)
    decreases s.depth[g]
  {
    if g != s.root {
      DropUnder(s, h, p, s.con[g].parent);
    }
  }

  // Finding a process, which leaves its queue.
  lemma FoundStep(s: Shape, skip: set<Ptr>, c: Ptr)
    requires Search(s, skip, c) && FirstIn(s.con[c].queue, skip) != NULL && FirstIn(s.con[c].queue, skip) !in s.con
    ensures var p := FirstIn(s.con[c].queue, skip);
            var s' := s.(con := Dropped(s.con, c, p));
            p in s.con[c].queue && Picked(s, p) && Forest(s') && Marked(s', skip) && s'.con[c].node_cnt >= 0
  {
    var i := FirstInAt(s.con[c].queue, skip);
    PathEnd(s, skip, c, i);
    var p := s.con[c].queue[i];
    DropForest(s, c, p);
    forall g | g in skip ensures Under(s.(con := Dropped(s.con, c, p)), g, s.root) {
      DropUnder(s, c, p, g);
    }
  }

  // Finding a group: go down, or mark it if it is empty.
  lemma DownStep(s: Shape, skip: set<Ptr>, c: Ptr)
    requires Search(s, skip, c) && FirstIn(s.con[c].queue, skip) != NULL && FirstIn(s.con[c].queue, skip) in s.con
    ensures var g := FirstIn(s.con[c].queue, skip);
            && Search(s, skip, g) && Level(s, g) < Level(s, c) && g != s.root && s.con[c].queue != []
            && s.con[g].node_cnt == |s.con[g].queue|
            && (s.con[g].queue == [] ==> Search(s, skip + {g}, c) && Rank(s, skip + {g}) < Rank(s, skip))
  {
    var i := FirstInAt(s.con[c].queue, skip);
    PathDown(s, skip, c, i);
    var g := s.con[c].queue[i];
    if s.con[g].queue == [] {
      AllMarked(s, skip, g);
      PathMark(s, skip, c, g);
      PathUnder(s, skip, g);
      RankDrops(s, skip, g);
    }
  }

  // Marks that are left after c's entries from i on were cleared: nothing under those entries.
  ghost predicate Cleared(s: Shape, skip: set<Ptr>, c: Ptr, i: nat)
    requires Forest(s) && c in s.con
  {
    forall g, j :: g in skip && g in s.con && i <= j < |s.con[c].queue| && s.con[c].queue[j] in s.con ==>
        !Under(s, g, s.con[c].queue[j])
  }

  // Clearing an entry, then what is below it, then the entries after it.
  lemma ClearedStep(s: Shape, was: set<Ptr>, skip: set<Ptr>, c: Ptr, i: nat)
    requires Forest(s) && c in s.con && i < |s.con[c].queue| && skip <= was && Cleared(s, skip, c, i + 1)
    requires var x := s.con[c].queue[i]; x in s.con ==> x !in was && Cleared(s, was, x, 0)
    ensures Cleared(s, skip, c, i)
  {
    var x := s.con[c].queue[i];
    if x in s.con {
      forall g | g in skip && g in s.con ensures !Under(s, g, x) {
        if Under(s, g, x) {
          var j := UnderEntry(s, g, x);
          assert false;
        }
      }
    }
  }

  // With the whole queue of the root done no mark is left.
  lemma ClearedAll(s: Shape, was: set<Ptr>, skip: set<Ptr>)
    requires Forest(s) && Marked(s, was) && skip <= was && Cleared(s, skip, s.root, 0)
    ensures skip == {}
  {
    forall g | g in skip ensures false {
      var i := UnderEntry(s, g, s.root);
      assert false;
    }
  }

  /** The containers' queues, virtual run times and skip marks. */
  class RunQueues {
    var con: Cons
    var key: map<Ptr, U64>
    var skip: set<Ptr>
    var panic_flag: bool
    const root: Ptr
    ghost var depth: map<Ptr, nat>
    ghost var bottom: nat

    ghost function S(): Shape
      reads this
    {
      Shape(con, root, depth, bottom)
    }

    constructor (root: Ptr)
      requires root != NULL
      ensures this.root == root && con == map[root := Con(NULL, [], 0)] && key == map[] && skip == {}
      ensures Forest(S())
      ensures !panic_flag
    {
      this.root, con, key, skip, panic_flag := root, map[root := Con(NULL, [], 0)], map[], {}, false;
      depth, bottom := map[root := 0], 0;
    }

    // _rb_insert into the queue of c: -1 if an equivalent node is there.
    method Enqueue(c: Ptr, x: Ptr) returns (r: int)
      requires c in con && x in key && Sorted(key, con[c].queue) && InWindow(key)
      modifies this
      ensures key == old(key) && r == if x in old(con)[c].queue then -1 else 0
      ensures con == if r == 0 then old(con)[c := old(con)[c].(queue := Insert(key, old(con)[c].queue, x))]
                else old(con)
      ensures skip == old(skip) && panic_flag == old(panic_flag) && depth == old(depth) && bottom == old(bottom)
    {
      if x in con[c].queue {
        return -1;
      }
      con := con[c := con[c].(queue := Insert(key, con[c].queue, x))];
      r := 0;
    }

    // _rb_erase from the queue of c.
    method Unqueue(c: Ptr, x: Ptr)
      requires c in con && x in con[c].queue
      modifies this
      ensures con == old(con)[c := old(con)[c].(queue := Without(old(con)[c].queue, x))]
      ensures key == old(key) && skip == old(skip) && panic_flag == old(panic_flag) && depth == old(depth)
      ensures bottom == old(bottom)
    {
      con := con[c := con[c].(queue := Without(con[c].queue, x))];
    }

    // pick_next_r: takes the pick p out of its queue, that of h. NULL stands for the idle process of the CPU.
    method PickNextR(c: Ptr) returns (p: Ptr, ghost h: Ptr)
      requires Search(S(), skip, c) && (c == root || con[c].queue != [])
      modifies this
      ensures key == old(key) && panic_flag == old(panic_flag) && depth == old(depth) && bottom == old(bottom)
      ensures p == NULL ==> con == old(con)
      ensures p != NULL ==> h in old(con) && p in old(con)[h].queue && p !in old(con) && con == Dropped(old(con), h, p)
      ensures Forest(S()) && Marked(S(), skip)
      ensures if panic_flag then p == NULL else Picked(old(S()), p)
      decreases Rank(S(), skip), Level(S(), c)
    {
      hide MarksOk, Marked, OnPath, Alive, Best, Picked, Rank, Level;
      h := c;
      if panic_flag {
        return NULL, c;
      }
      ghost var s := S();
      Look(s, c);
      hide Forest;
      var get_node := FirstIn(con[c].queue, skip);
      if c != root && con[c].node_cnt != 0 && get_node == NULL {
        ClimbStep(s, skip, c);
        skip := skip + {c};
        p, h := PickNextR(con[c].parent);
        return;
      }
      if get_node == NULL {
        RootStep(s, skip);
        return NULL, c;
      }
      if get_node !in con {
        FoundStep(s, skip, c);
        con := Dropped(con, c, get_node);
        assert con[c].node_cnt >= 0;
        return get_node, c;
      }
      DownStep(s, skip, c);
      if con[get_node].node_cnt == 0 {
        skip := skip + {get_node};
        p, h := PickNextR(c);
      } else {
        p, h := PickNextR(get_node);
      }
    }

    // _rb_fix_skip, from the i-th entry of c's queue on: clears the entry, what is below it, and what follows it.
    method FixSkip(c: Ptr, i: nat)
      requires Forest(S()) && c in con && i <= |con[c].queue|
      modifies this
      ensures con == old(con) && key == old(key) && panic_flag == old(panic_flag) && depth == old(depth)
      ensures bottom == old(bottom)
      ensures skip <= old(skip) && Forest(S()) && Cleared(S(), skip, c, i)
      decreases Level(S(), c), |con[c].queue| - i
    {
      ghost var s := S();
      if i == |con[c].queue| {
        return;
      }
      var x := con[c].queue[i];
      skip := skip - {x};
      if x in con {
        assert x in con[c].queue;
        FixSkip(x, 0);
      }
      ghost var was := skip;
      FixSkip(c, i + 1);
      ClearedStep(s, was, skip, c, i);
    }

    // pick_next: the best process, and no marks left.
    method PickNext() returns (p: Ptr, ghost h: Ptr)
      requires Forest(S()) && skip == {}
      modifies this
      ensures key == old(key) && panic_flag == old(panic_flag) && depth == old(depth) && bottom == old(bottom)
      ensures p == NULL ==> con == old(con)
      ensures p != NULL ==> h in old(con) && p in old(con)[h].queue && p !in old(con) && con == Dropped(old(con), h, p)
      ensures skip == {} && Forest(S())
      ensures if panic_flag then p == NULL else Picked(old(S()), p)
    {
      p, h := PickNextR(root);
      ghost var was := skip;
      FixSkip(root, 0);
      ClearedAll(S(), was, skip);
    }
  }
}
