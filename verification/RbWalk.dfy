/** What a valid red-black tree means for its memory: walks from the root along the links, without the shape. */
module RbWalk {
  import opened Basics
  import opened RbShape
  import opened RbTree

  // The node that the turns lead to from n, a left turn for true; NULL once a link is NULL.
  function Walk(m: Mem, n: Ptr, turns: seq<bool>): Ptr
    decreases |turns|
  {
    if n == NULL || n !in m || turns == [] then n
    else Walk(m, if turns[0] then m[n].left else m[n].right, turns[1..])
  }

  // The black nodes on the way, the last one included.
  function Blacks(m: Mem, n: Ptr, turns: seq<bool>): nat
    decreases |turns|
  {
    if n == NULL || n !in m then 0
    else
      (if m[n].red then 0 else 1)
      + if turns == [] then 0 else Blacks(m, if turns[0] then m[n].left else m[n].right, turns[1..])
  }

  // A walk does not leave the tree.
  lemma {:induction false} WalkInside(t: Tree, n: Ptr, p: Ptr, m: Mem, turns: seq<bool>)
    requires IsTree(t, n, p, m)
    ensures Walk(m, n, turns) == NULL || Walk(m, n, turns) in Nodes(t)
    decreases t
  {
    if t.Fork? && turns != [] {
      if turns[0] {
        WalkInside(t.l, m[n].left, n, m, turns[1..]);
      } else {
        WalkInside(t.r, m[n].right, n, m, turns[1..]);
      }
    }
  }

  // Every node is reached.
  lemma {:induction false} Reached(t: Tree, n: Ptr, p: Ptr, m: Mem, x: Ptr) returns (turns: seq<bool>)
    requires IsTree(t, n, p, m) && x in Nodes(t)
    ensures Walk(m, n, turns) == x && x != NULL
    decreases t
  {
    turns := [];
    if x != n {
      if x in Nodes(t.l) {
        turns := Reached(t.l, m[n].left, n, m, x);
        assert ([true] + turns)[1..] == turns;
        turns := [true] + turns;
      } else {
        turns := Reached(t.r, m[n].right, n, m, x);
        assert ([false] + turns)[1..] == turns;
        turns := [false] + turns;
      }
    }
  }

  // All ways to a NULL link have the same number of black nodes.
  lemma {:induction false} EqualBlacks(t: Tree, n: Ptr, p: Ptr, m: Mem, h: nat, turns: seq<bool>)
    requires IsTree(t, n, p, m) && Bal(t, h) && Walk(m, n, turns) == NULL
    ensures Blacks(m, n, turns) == h
    decreases t
  {
    if t.Fork? {
      var rest := if t.red then h else h - 1;
      if turns[0] {
        EqualBlacks(t.l, m[n].left, n, m, rest, turns[1..]);
      } else {
        EqualBlacks(t.r, m[n].right, n, m, rest, turns[1..]);
      }
    }
  }

  // The links of a node lead back to it, and if it is red its children are black.
  ghost predicate NodeOk(m: Mem, x: Ptr) {
    && x in m
    && (m[x].left != NULL ==> m[x].left in m && m[m[x].left].parent == x && !(m[x].red && m[m[x].left].red))
    && (m[x].right != NULL ==> m[x].right in m && m[m[x].right].parent == x && !(m[x].red && m[m[x].right].red))
  }

  lemma {:induction false} NodesOk(t: Tree, n: Ptr, p: Ptr, m: Mem, h: nat, x: Ptr)
    requires IsTree(t, n, p, m) && Bal(t, h) && x in Nodes(t)
    ensures NodeOk(m, x)
    decreases t
  {
    if x != n {
      var rest := if t.red then h else h - 1;
      if x in Nodes(t.l) {
        NodesOk(t.l, m[n].left, n, m, rest, x);
      } else {
        NodesOk(t.r, m[n].right, n, m, rest, x);
      }
    }
  }

  // What a walk reaches to the left of a node is below it, and what it reaches to the right is above it.
  ghost predicate Placed(lt: (Ptr, Ptr) -> bool, m: Mem, x: Ptr)
    requires x in m
  {
    && (forall w: seq<bool> :: Walk(m, m[x].left, w) != NULL ==> lt(Walk(m, m[x].left, w), x))
    && (forall w: seq<bool> :: Walk(m, m[x].right, w) != NULL ==> lt(x, Walk(m, m[x].right, w)))
  }

  lemma {:induction false} NodePlaced(lt: (Ptr, Ptr) -> bool, t: Tree, n: Ptr, p: Ptr, m: Mem, x: Ptr)
    requires IsTree(t, n, p, m) && Sorted(lt, InOrder(t)) && x in Nodes(t)
    ensures x in m && Placed(lt, m, x)
    decreases t
  {
    var a, b := InOrder(t.l), InOrder(t.r);
    assert InOrder(t) == [] + (a + [t.n] + b) + [];
    SortedSplit(lt, [], a, t.n, b, []);
    assert InOrder(t)[..|a|] == a && InOrder(t)[|a| + 1..] == b;
    SortedPart(lt, InOrder(t), 0, |a|);
    SortedPart(lt, InOrder(t), |a| + 1, |a| + 1 + |b|);
    assert InOrder(t)[|a| + 1..|a| + 1 + |b|] == b;
    if x == n {
      InOrderNodes(t.l);
      InOrderNodes(t.r);
      forall w: seq<bool> | Walk(m, m[x].left, w) != NULL ensures lt(Walk(m, m[x].left, w), x) {
        WalkInside(t.l, m[x].left, x, m, w);
      }
      forall w: seq<bool> | Walk(m, m[x].right, w) != NULL ensures lt(x, Walk(m, m[x].right, w)) {
        WalkInside(t.r, m[x].right, x, m, w);
      }
    } else if x in Nodes(t.l) {
      NodePlaced(lt, t.l, m[n].left, n, m, x);
    } else {
      NodePlaced(lt, t.r, m[n].right, n, m, x);
    }
  }

  lemma SortedPart(lt: (Ptr, Ptr) -> bool, s: seq<Ptr>, i: nat, j: nat)
    requires Sorted(lt, s) && i <= j <= |s|
    ensures Sorted(lt, s[i..j])
  {
  }

  // A valid tree: the root is black, every node on a walk has links that agree and no red child if it is red, all ways
  // down have the same number of black nodes, the nodes on the walks are those of the order, and they are in order.
  lemma ValidMeans(q: RbRoot, lt: (Ptr, Ptr) -> bool)
    requires q.Valid() && Sorted(lt, InOrder(q.tree))
    ensures q.root != NULL ==> q.root in q.mem && !q.mem[q.root].red && q.mem[q.root].parent == NULL
    ensures forall w: seq<bool>, v: seq<bool> :: Walk(q.mem, q.root, w) == NULL && Walk(q.mem, q.root, v) == NULL ==>
              Blacks(q.mem, q.root, w) == Blacks(q.mem, q.root, v)
    ensures forall w: seq<bool> :: Walk(q.mem, q.root, w) != NULL ==> Walk(q.mem, q.root, w) in InOrder(q.tree)
    ensures forall x :: x in InOrder(q.tree) ==>
              x != NULL && NodeOk(q.mem, x) && Placed(lt, q.mem, x) && Found(q.mem, q.root, x)
  {
    var t, m, n := q.tree, q.mem, q.root;
    var h: nat :| Bal(t, h);
    InOrderNodes(t);
    forall w: seq<bool> | Walk(m, n, w) == NULL ensures Blacks(m, n, w) == h {
      EqualBlacks(t, n, NULL, m, h, w);
    }
    forall w: seq<bool> ensures Walk(m, n, w) == NULL || Walk(m, n, w) in Nodes(t) {
      WalkInside(t, n, NULL, m, w);
    }
    hide NodeOk, Placed, Found;
    forall x | x in InOrder(t)
      ensures x != NULL && NodeOk(m, x) && Placed(lt, m, x) && Found(m, n, x)
    {
      Member(lt, t, n, m, h, x);
    }
  }

  ghost predicate Found(m: Mem, n: Ptr, x: Ptr) { exists w: seq<bool> :: Walk(m, n, w) == x }

  lemma Member(lt: (Ptr, Ptr) -> bool, t: Tree, n: Ptr, m: Mem, h: nat, x: Ptr)
    requires IsTree(t, n, NULL, m) && Bal(t, h) && Sorted(lt, InOrder(t)) && x in InOrder(t)
    ensures x != NULL && NodeOk(m, x) && Placed(lt, m, x) && Found(m, n, x)
  {
    hide Walk, InOrder;
    InOrderNodes(t);
    NodesOk(t, n, NULL, m, h, x);
    NodePlaced(lt, t, n, NULL, m, x);
    var w := Reached(t, n, NULL, m, x);
  }
}
