/** The intrusive red-black tree of src/common/rbtree.c: insertion, erasure, lookup and minimum
    over a shared memory of nodes. */
module RbTree {
  import opened Basics
  import opened RbShape
  import opened RbSteps
  import opened RbErase

  // The sequence is strictly increasing under the comparison.
  ghost predicate Sorted(lt: (Ptr, Ptr) -> bool, s: seq<Ptr>) {
    forall i, j :: 0 <= i < j < |s| ==> lt(s[i], s[j])
  }

  // The comparison is transitive on s.
  ghost predicate Transitive(lt: (Ptr, Ptr) -> bool, s: set<Ptr>) {
    forall x, y, z :: x in s && y in s && z in s && lt(x, y) && lt(y, z) ==> lt(x, z)
  }

  // Everything before the hole is below node and everything after it is above node.
  ghost predicate Brackets(lt: (Ptr, Ptr) -> bool, c: Ctx, node: Ptr) {
    (forall x :: x in Before(c) ==> lt(x, node)) && (forall x :: x in After(c) ==> lt(node, x))
  }

  // The sequence with one more element somewhere.
  ghost predicate Inserted(s: seq<Ptr>, s': seq<Ptr>, x: Ptr) {
    exists k :: 0 <= k <= |s| && s' == s[..k] + [x] + s[k..]
  }

  // Equivalent under the comparison: neither is below the other.
  predicate Equivalent(lt: (Ptr, Ptr) -> bool, x: Ptr, y: Ptr) { !lt(x, y) && !lt(y, x) }

  lemma SortedSplit(lt: (Ptr, Ptr) -> bool, a: seq<Ptr>, l: seq<Ptr>, n: Ptr, r: seq<Ptr>, b: seq<Ptr>)
    requires Sorted(lt, a + (l + [n] + r) + b)
    ensures (forall x :: x in l ==> lt(x, n)) && (forall x :: x in r ==> lt(n, x))
  {
    var s := a + (l + [n] + r) + b;
    var k := |a| + |l|;
    assert s[k] == n;
    forall x | x in l ensures lt(x, n) {
      var i :| 0 <= i < |l| && l[i] == x;
      assert s[|a| + i] == x;
    }
    forall x | x in r ensures lt(n, x) {
      var i :| 0 <= i < |r| && r[i] == x;
      assert s[k + 1 + i] == x;
    }
  }

  lemma SortedInsert(lt: (Ptr, Ptr) -> bool, a: seq<Ptr>, n: Ptr, b: seq<Ptr>)
    requires Sorted(lt, a + b) && (forall x :: x in a ==> lt(x, n)) && (forall x :: x in b ==> lt(n, x))
    ensures Sorted(lt, a + [n] + b)
  {
    var s, s' := a + b, a + [n] + b;
    forall i, j | 0 <= i < j < |s'| ensures lt(s'[i], s'[j]) {
      assert s'[i] == (if i < |a| then s[i] else if i == |a| then n else s[i - 1]);
      assert s'[j] == (if j < |a| then s[j] else if j == |a| then n else s[j - 1]);
    }
  }

  lemma NoBrackets(lt: (Ptr, Ptr) -> bool, node: Ptr)
    ensures Brackets(lt, Top, node)
  {
  }

  // Descending to the side on which node belongs keeps it bracketed.
  lemma Descend(lt: (Ptr, Ptr) -> bool, c: Ctx, t: Tree, node: Ptr, left: bool)
    requires t.Fork? && Sorted(lt, InOrder(Plug(c, t))) && Transitive(lt, Nodes(Plug(c, t)) + {node})
    requires Brackets(lt, c, node) && if left then lt(node, t.n) else lt(t.n, node)
    ensures Brackets(lt, Frame(left, t.n, t.red, Far(left, t), c), node)
    ensures Plug(Frame(left, t.n, t.red, Far(left, t), c), Near(left, t)) == Plug(c, t)
  {
    PlugInOrder(c, t);
    PlugSep(c, t);
    SortedSplit(lt, Before(c), InOrder(t.l), t.n, InOrder(t.r), After(c));
    InOrderNodes(t.l);
    InOrderNodes(t.r);
    assert t.n in Nodes(t) && Nodes(t.l) <= Nodes(t) && Nodes(t.r) <= Nodes(t);
  }

  // The tree around a hole, empty or holding node alone.
  lemma HoleShape(c: Ctx, node: Ptr)
    ensures InOrder(Plug(c, Leaf)) == Before(c) + After(c)
    ensures InOrder(Plug(c, Fork(Leaf, node, true, Leaf))) == Before(c) + [node] + After(c)
    ensures Nodes(Plug(c, Fork(Leaf, node, true, Leaf))) == Nodes(Plug(c, Leaf)) + {node}
    ensures forall x :: x in Nodes(Plug(c, Leaf)) ==> x in Before(c) || x in After(c)
  {
    hide InOrder, Nodes, Before, After, Plug;
    var one := Fork(Leaf, node, true, Leaf);
    SmallTrees(node);
    PlugInOrder(c, Leaf);
    PlugInOrder(c, one);
    PlugSep(c, Leaf);
    PlugSep(c, one);
    InOrderNodes(Plug(c, Leaf));
    assert Before(c) + [] + After(c) == Before(c) + After(c);
  }

  lemma SmallTrees(node: Ptr)
    ensures var one := Fork(Leaf, node, true, Leaf);
            InOrder(Leaf) == [] && InOrder(one) == [node] && Nodes(one) == {node} && Nodes(Leaf) == {}
  {
  }

  // Where the descent stops, node is placed in order and nothing in the tree is equivalent to it.
  lemma Landed(lt: (Ptr, Ptr) -> bool, c: Ctx, node: Ptr)
    requires Sorted(lt, InOrder(Plug(c, Leaf))) && Brackets(lt, c, node)
    ensures var s := InOrder(Plug(c, Leaf)); var k := |Before(c)|;
            && k <= |s| && InOrder(Plug(c, Fork(Leaf, node, true, Leaf))) == s[..k] + [node] + s[k..]
            && Inserted(s, InOrder(Plug(c, Fork(Leaf, node, true, Leaf))), node)
    ensures Sorted(lt, InOrder(Plug(c, Fork(Leaf, node, true, Leaf))))
    ensures Nodes(Plug(c, Fork(Leaf, node, true, Leaf))) == Nodes(Plug(c, Leaf)) + {node}
    ensures forall x :: x in Nodes(Plug(c, Leaf)) ==> !Equivalent(lt, node, x)
  {
    hide InOrder, Nodes, Before, After, Plug, Sorted;
    HoleShape(c, node);
    var a, b := Before(c), After(c);
    assert (a + b)[..|a|] == a && (a + b)[|a|..] == b;
    SortedInsert(lt, a, node, b);
  }

  class RbRoot {
    var mem: Mem
    var root: Ptr
    ghost var tree: Tree

    // The memory holds a red-black tree at the root.
    ghost predicate Valid()
      reads this
    {
      IsTree(tree, root, NULL, mem) && Sep(tree) && RedBlack(tree)
    }

    // The empty tree, over the memory in which the nodes lie.
    constructor (mem: Mem)
      ensures Valid() && tree == Leaf && root == NULL && this.mem == mem
    {
      assert Bal(Leaf, 0);
      this.mem, root, tree := mem, NULL, Leaf;
    }

    // __rb_change_child
    method ChangeChild(old_: Ptr, new_: Ptr, parent: Ptr)
      requires parent != NULL ==> parent in mem
      modifies this`mem, this`root
      ensures root == if parent == NULL then new_ else old(root)
      ensures Touched(old(mem), mem, Opt(parent)) && Swung(old(mem), mem, parent, old_, new_)
    {
      if parent != NULL {
        if mem[parent].left == old_ {
          mem := mem[parent := mem[parent].(left := new_)];
        } else {
          mem := mem[parent := mem[parent].(right := new_)];
        }
      } else {
        root := new_;
      }
    }

    // __rb_rotate_set_parents
    method RotateSetParents(old_: Ptr, new_: Ptr, red: bool)
      requires old_ in mem && new_ in mem && old_ != new_
      requires mem[old_].parent != NULL ==> mem[old_].parent in mem && mem[old_].parent !in {old_, new_}
      modifies this`mem, this`root
      ensures root == if old(mem[old_].parent) == NULL then new_ else old(root)
      ensures Touched(old(mem), mem, {old_, new_} + Opt(old(mem[old_].parent)))
      ensures mem[new_] == old(mem[new_].(parent := mem[old_].parent, red := mem[old_].red))
      ensures mem[old_] == old(mem[old_]).(parent := new_, red := red)
      ensures Swung(old(mem), mem, old(mem[old_].parent), old_, new_)
    {
      var parent := mem[old_].parent;
      mem := mem[new_ := mem[new_].(parent := mem[old_].parent, red := mem[old_].red)];
      mem := mem[old_ := mem[old_].(parent := new_, red := red)];
      ChangeChild(old_, new_, parent);
    }

    // ---- insertion ----

    // Case 2, parent being a left child: node, its right child, is rotated above it.
    method InsertInnerL(node: Ptr, parent: Ptr, gparent: Ptr, ghost up: Ctx, ghost a: Tree, ghost b: Tree,
                        ghost d: Tree)
      requires Pieces(true, root, up, a, parent, b, gparent, d, node, mem) && IsRed(b) && b.n == node && !IsRed(b.l)
      modifies this`mem
      ensures node in mem
      ensures Pieces(true, root, up, Fork(a, parent, true, b.l), node, b.r, gparent, d, mem[node].right, mem)
      ensures Touched(old(mem), mem, {parent} + Nodes(b)) && gparent in old(mem) && mem[gparent] == old(mem[gparent])
    {
      hide IsTree, Seg, CNodes, Sep, CSep, Pieces;
      ghost var m := mem;
      InnerEnds(true, root, up, a, parent, b, gparent, d, node, m);
      var tmp := mem[node].left;
      mem := mem[parent := mem[parent].(right := tmp)];
      if tmp != NULL {
        mem := mem[tmp := mem[tmp].(parent := parent, red := false)];
      }
      mem := mem[node := mem[node].(left := parent)];
      mem := mem[parent := mem[parent].(parent := node, red := true)];
      Rotate2(true, root, up, a, parent, b.l, node, b.r, gparent, d, m, mem);
    }

    // Case 3, parent being a left child.
    method InsertOuterL(parent: Ptr, gparent: Ptr, tmp: Ptr, ghost up: Ctx, ghost a: Tree, ghost b: Tree, ghost d: Tree)
      requires Pieces(true, root, up, a, parent, b, gparent, d, tmp, mem) && !IsRed(b)
      modifies this`mem, this`root
      ensures At(root, up, Fork(a, parent, false, Fork(b, gparent, true, d)), parent, old(mem[gparent].parent), mem)
      ensures Touched(old(mem), mem, CNodes(up) + Nodes(b) + {parent, gparent})
    {
      hide IsTree, Seg, Sep, CSep, At;
      ghost var m, top := mem, root;
      Ends(b, tmp, parent, m);
      CEnds(up, top, gparent, mem[gparent].parent, m);
      mem := mem[gparent := mem[gparent].(left := tmp)];
      if tmp != NULL {
        mem := mem[tmp := mem[tmp].(parent := gparent, red := false)];
      }
      mem := mem[parent := mem[parent].(right := gparent)];
      RotateSetParents(gparent, parent, true);
      Rotate3(true, top, up, a, parent, b, gparent, d, tmp, m, mem);
    }
    // Case 2, parent being a right child: node, its left child, is rotated above it.
    method InsertInnerR(node: Ptr, parent: Ptr, gparent: Ptr, ghost up: Ctx, ghost a: Tree, ghost b: Tree,
                        ghost d: Tree)
      requires Pieces(false, root, up, a, parent, b, gparent, d, node, mem) && IsRed(b) && b.n == node && !IsRed(b.r)
      modifies this`mem
      ensures node in mem
      ensures Pieces(false, root, up, Fork(b.r, parent, true, a), node, b.l, gparent, d, mem[node].left, mem)
      ensures Touched(old(mem), mem, {parent} + Nodes(b)) && gparent in old(mem) && mem[gparent] == old(mem[gparent])
    {
      hide IsTree, Seg, CNodes, Sep, CSep, Pieces;
      ghost var m := mem;
      InnerEnds(false, root, up, a, parent, b, gparent, d, node, m);
      var tmp := mem[node].right;
      mem := mem[parent := mem[parent].(left := tmp)];
      if tmp != NULL {
        mem := mem[tmp := mem[tmp].(parent := parent, red := false)];
      }
      mem := mem[node := mem[node].(right := parent)];
      mem := mem[parent := mem[parent].(parent := node, red := true)];
      Rotate2(false, root, up, a, parent, b.r, node, b.l, gparent, d, m, mem);
    }

    // Case 3, parent being a right child.
    method InsertOuterR(parent: Ptr, gparent: Ptr, tmp: Ptr, ghost up: Ctx, ghost a: Tree, ghost b: Tree, ghost d: Tree)
      requires Pieces(false, root, up, a, parent, b, gparent, d, tmp, mem) && !IsRed(b)
      modifies this`mem, this`root
      ensures At(root, up, Fork(Fork(d, gparent, true, b), parent, false, a), parent, old(mem[gparent].parent), mem)
      ensures Touched(old(mem), mem, CNodes(up) + Nodes(b) + {parent, gparent})
    {
      hide IsTree, Seg, Sep, CSep, At;
      ghost var m, top := mem, root;
      Ends(b, tmp, parent, m);
      CEnds(up, top, gparent, mem[gparent].parent, m);
      mem := mem[gparent := mem[gparent].(right := tmp)];
      if tmp != NULL {
        mem := mem[tmp := mem[tmp].(parent := gparent, red := false)];
      }
      mem := mem[parent := mem[parent].(left := gparent)];
      RotateSetParents(gparent, parent, true);
      Rotate3(false, top, up, a, parent, b, gparent, d, tmp, m, mem);
    }

    // The rotations that end an insertion, parent being the left child of gparent and the uncle black.
    method InsertRotateL(node: Ptr, parent0: Ptr, gparent: Ptr, ghost c: Ctx, ghost t: Tree, ghost h: nat)
      requires At(root, c, t, node, parent0, mem) && RedSubtree(c, t, h) && t.n == node
      requires c.Frame? && c.red && c.up.Frame? && c.up.left == true && c.up.x == gparent && !IsRed(Uncle(c))
      modifies this
      ensures Valid() && InOrder(tree) == InOrder(Plug(c, t)) && Nodes(tree) == Nodes(Plug(c, t))
      ensures Touched(old(mem), mem, Nodes(tree))
    {
      hide IsTree, Seg, CNodes, Sep, CSep, Pieces, At, InOrder, Plug, Bal, CBal, RedBlack;
      ghost var m, top := mem, root;
      RedParent(root, c, t, node, parent0, h, m);
      ghost var up, d, pt, inner := c.up.up, Uncle(c), Make(c.left, t, parent0, true, c.other), c.left != c.up.left;
      ghost var gp := m[gparent].parent;
      TakePieces(true, root, up, pt.l, parent0, true, pt.r, gparent, d, gp, m);
      EdgeKid(true, root, up, pt, node, inner, gparent, d, m);
      var parent := parent0;
      var tmp := mem[parent].right;
      ghost var a, b := pt.l, pt.r;
      if node == tmp {
        InsertInnerL(node, parent, gparent, up, a, b, d);
        a, b := Fork(pt.l, parent, true, pt.r.l), pt.r.r;
        parent := node;
        tmp := mem[node].right;
      }
      InsertOuterL(parent, gparent, tmp, up, a, b, d);
      tree := Plug(up, Rotated(true, inner, pt, gparent, d));
      RotateStep(top, root, c, t, node, parent0, h, m, gp, mem);
    }

    // The rotations that end an insertion, parent being the right child of gparent and the uncle black.
    method InsertRotateR(node: Ptr, parent0: Ptr, gparent: Ptr, ghost c: Ctx, ghost t: Tree, ghost h: nat)
      requires At(root, c, t, node, parent0, mem) && RedSubtree(c, t, h) && t.n == node
      requires c.Frame? && c.red && c.up.Frame? && c.up.left == false && c.up.x == gparent && !IsRed(Uncle(c))
      modifies this
      ensures Valid() && InOrder(tree) == InOrder(Plug(c, t)) && Nodes(tree) == Nodes(Plug(c, t))
      ensures Touched(old(mem), mem, Nodes(tree))
    {
      hide IsTree, Seg, CNodes, Sep, CSep, Pieces, At, InOrder, Plug, Bal, CBal, RedBlack;
      ghost var m, top := mem, root;
      RedParent(root, c, t, node, parent0, h, m);
      ghost var up, d, pt, inner := c.up.up, Uncle(c), Make(c.left, t, parent0, true, c.other), c.left != c.up.left;
      ghost var gp := m[gparent].parent;
      TakePieces(false, root, up, pt.r, parent0, true, pt.l, gparent, d, gp, m);
      EdgeKid(false, root, up, pt, node, inner, gparent, d, m);
      var parent := parent0;
      var tmp := mem[parent].left;
      ghost var a, b := pt.r, pt.l;
      if node == tmp {
        InsertInnerR(node, parent, gparent, up, a, b, d);
        a, b := Fork(pt.l.r, parent, true, pt.r), pt.l.l;
        parent := node;
        tmp := mem[node].left;
      }
      InsertOuterR(parent, gparent, tmp, up, a, b, d);
      tree := Plug(up, Rotated(false, inner, pt, gparent, d));
      RotateStep(top, root, c, t, node, parent0, h, m, gp, mem);
    }

    // __rb_insert_fix: node0 is red, and only the edge to its parent may be red-red.
    method InsertFix(node0: Ptr, ghost c0: Ctx, ghost t0: Tree, ghost h0: nat)
      requires t0.Fork? && t0.n == node0 && node0 in mem && RedSubtree(c0, t0, h0)
      requires At(if c0 == Top then node0 else root, c0, t0, node0, mem[node0].parent, mem)
      modifies this
      ensures Valid() && InOrder(tree) == InOrder(Plug(c0, t0)) && Nodes(tree) == Nodes(Plug(c0, t0))
      ensures Touched(old(mem), mem, Nodes(tree))
    {
      hide IsTree, Seg, CNodes, Sep, CSep, Bal, CBal, InOrder, Nodes, RedBlack, Rotated, Plug, RedEdge, Recolored;
      var node, parent := node0, mem[node0].parent;
      ghost var c, t, h := c0, t0, h0;
      while true
        invariant t.Fork? && t.n == node && RedSubtree(c, t, h)
        invariant At(if c == Top then node else root, c, t, node, parent, mem)
        invariant InOrder(Plug(c, t)) == InOrder(Plug(c0, t0)) && Nodes(Plug(c, t)) == Nodes(Plug(c0, t0))
        invariant Touched(old(mem), mem, Nodes(Plug(c0, t0)))
        decreases c
      {
        Ends(t, node, parent, mem);
        CEnds(c, if c == Top then node else root, node, parent, mem);
        if parent == NULL {
          ghost var m := mem;
          mem := mem[node := mem[node].(parent := NULL, red := false)];
          root := node;
          RootStep(t, node, h, m, mem);
          tree := Blacken(t);
          break;
        }
        Climb(root, c, t, node, parent, mem);
        if !mem[parent].red {
          Finish(root, c, t, node, parent, h, mem);
          tree := Plug(c, t);
          break;
        }
        RedParent(root, c, t, node, parent, h, mem);
        var gparent := mem[parent].parent;
        var tmp := mem[gparent].right;
        ghost var m, top, n, g := mem, root, node, c.up;
        ghost var pt := Make(c.left, t, parent, true, c.other);
        if parent != tmp {
          if tmp != NULL && mem[tmp].red {
            mem := mem[tmp := mem[tmp].(parent := gparent, red := false)];
            mem := mem[parent := mem[parent].(parent := gparent, red := false)];
            node := gparent;
            parent := mem[node].parent;
            mem := mem[node := mem[node].(parent := parent, red := true)];
            RecolorStep(top, c, t, n, c.x, h, m, mem);
            c, t, h := g.up, Recolored(c, t), h + 1;
            continue;
          }
          InsertRotateL(node, parent, gparent, c, t, h);
          break;
        } else {
          tmp := mem[gparent].left;
          if tmp != NULL && mem[tmp].red {
            mem := mem[tmp := mem[tmp].(parent := gparent, red := false)];
            mem := mem[parent := mem[parent].(parent := gparent, red := false)];
            node := gparent;
            parent := mem[node].parent;
            mem := mem[node := mem[node].(parent := parent, red := true)];
            RecolorStep(top, c, t, n, c.x, h, m, mem);
            c, t, h := g.up, Recolored(c, t), h + 1;
            continue;
          }
          InsertRotateR(node, parent, gparent, c, t, h);
          break;
        }
      }
    }

    // _rb_insert
    method Insert(node: Ptr, lt: (Ptr, Ptr) -> bool) returns (r: int)
      requires Valid() && node != NULL && node in mem && node !in Nodes(tree)
      requires Transitive(lt, Nodes(tree) + {node}) && Sorted(lt, InOrder(tree))
      modifies this
      ensures Valid() && Sorted(lt, InOrder(tree))
      ensures r == if exists x :: x in Nodes(old(tree)) && Equivalent(lt, node, x) then -1 else 0
      ensures r == -1 ==> tree == old(tree) && root == old(root) && Touched(old(mem), mem, {node})
      ensures r == 0 ==> Inserted(InOrder(old(tree)), InOrder(tree), node)
      ensures r == 0 ==> Nodes(tree) == Nodes(old(tree)) + {node} && Touched(old(mem), mem, Nodes(tree))
    {
      hide IsTree, Seg, CNodes, Sep, CSep, Bal, CBal, InOrder, Nodes, RedBlack, Plug, At, Brackets, Transitive, Sorted,
           Inserted;
      assert Brackets(lt, Top, node) by { NoBrackets(lt, node); }
      var nw, parent := root, NULL;
      ghost var c, t, m0 := Top, tree, mem;
      mem := mem[node := Cell(NULL, NULL, NULL, true)];
      ghost var m1 := mem;
      PlugTop(t);
      Elsewhere(tree, root, m0, m1, node);
      Ends(tree, root, NULL, m1);
      while nw != NULL
        invariant Plug(c, t) == tree && Brackets(lt, c, node) && (t == Leaf <==> nw == NULL)
        invariant nw != NULL || c == Top ==> mem == m1 && At(root, c, t, nw, parent, m1)
        invariant nw == NULL && c != Top ==> parent in Nodes(tree) && Touched(m1, mem, {parent, node})
        invariant nw == NULL && c != Top ==> At(root, c, Fork(Leaf, node, true, Leaf), node, parent, mem)
        invariant tree == old(tree) && root == old(root)
        decreases t
      {
        ghost var above := parent;
        parent := nw;
        if lt(node, nw) {
          StepDown(true, root, c, t, nw, above, m1);
          Descend(lt, c, t, node, true);
          nw := mem[nw].left;
          c, t := Frame(true, t.n, t.red, t.r, c), t.l;
          if nw == NULL {
            mem := mem[parent := mem[parent].(left := node)];
            mem := mem[node := mem[node].(parent := parent)];
            LinkNode(root, c, parent, node, m1, mem);
          }
        } else if lt(nw, node) {
          StepDown(false, root, c, t, nw, above, m1);
          Descend(lt, c, t, node, false);
          nw := mem[nw].right;
          c, t := Frame(false, t.n, t.red, t.l, c), t.r;
          if nw == NULL {
            mem := mem[parent := mem[parent].(right := node)];
            mem := mem[node := mem[node].(parent := parent)];
            LinkNode(root, c, parent, node, m1, mem);
          }
        } else {
          StepDown(false, root, c, t, nw, above, m1);
          FrameTree(tree, root, NULL, m0, m1);
          return -1;
        }
      }
      Landed(lt, c, node);
      NewNode(c, node);
      if c == Top {
        FirstNode(c, node, mem);
      } else {
        Linked(root, c, node, parent, mem);
      }
      InsertFix(node, c, Fork(Leaf, node, true, Leaf), 0);
      r := 0;
    }

    // ---- erasure ----

    // Case 1 of __rb_erase_fix, the short subtree being on the left.
    method EraseTurnL(parent: Ptr, sibling: Ptr, ghost c: Ctx, ghost t: Tree, ghost node: Ptr,
                      ghost h: nat) returns (tmp1: Ptr)
      requires At(root, c, t, node, parent, mem) && Short(c, t, h) && c.left == true && IsRed(c.other)
      requires c.other.n == sibling
      modifies this`mem, this`root
      ensures At(root, Turned(true, c), t, node, parent, mem) && Short(Turned(true, c), t, h)
      ensures !IsRed(Turned(true, c).other)
      ensures tmp1 == Turned(true, c).other.n
      ensures InOrder(Plug(Turned(true, c), t)) == InOrder(Plug(c, t))
      ensures Nodes(Plug(Turned(true, c), t)) == Nodes(Plug(c, t))
      ensures Touched(old(mem), mem, Nodes(Plug(c, t)))
    {
      hide IsTree, Seg, CNodes, Sep, CSep, InOrder, Plug, Bal, CBal, At, Short;
      ghost var m, top := mem, root;
      Sibling(c, t, h);
      Around(root, c, t, node, parent, m);
      TurnedOk(c, t, h);
      tmp1 := mem[sibling].left;
      assert tmp1 in Nodes(c.other);
      mem := mem[parent := mem[parent].(right := tmp1)];
      mem := mem[tmp1 := mem[tmp1].(parent := parent, red := false)];
      mem := mem[sibling := mem[sibling].(left := parent)];
      RotateSetParents(parent, sibling, true);
      Rotate1(true, top, c, t, node, parent, m, mem);
    }

    // Case 3 of __rb_erase_fix, the short subtree being on the left.
    method EraseInnerL(parent: Ptr, sibling: Ptr, tmp2: Ptr, ghost c: Ctx, ghost t: Tree, ghost node: Ptr, ghost h: nat)
      requires At(root, c, t, node, parent, mem) && Short(c, t, h) && c.left == true
      requires !IsRed(c.other) && c.other.n == sibling && IsRed(Near(true, c.other)) && Near(true, c.other).n == tmp2
      requires !IsRed(Far(true, Near(true, c.other)))
      modifies this`mem
      ensures var s, n2 := c.other, Near(true, c.other);
              Pieces4(true, root, c.up, t, parent, Near(true, n2), tmp2,
                      Make(true, Far(true, n2), sibling, false, Far(true, s)), tmp2, mem)
      ensures parent in mem && mem[parent].red == c.red && Touched(old(mem), mem, Nodes(Plug(c, t)))
      ensures parent in old(mem) && mem[parent].parent == old(mem[parent].parent)
    {
      hide IsTree, Seg, CNodes, Sep, CSep, InOrder, Plug, Bal, CBal, At, Pieces4;
      ghost var m := mem;
      Sibling(c, t, h);
      Around(root, c, t, node, parent, m);
      Nephew(true, root, c, t, node, parent, m);
      var tmp1 := mem[tmp2].right;
      mem := mem[sibling := mem[sibling].(left := tmp1)];
      if tmp1 != NULL {
        mem := mem[tmp1 := mem[tmp1].(parent := sibling, red := false)];
      }
      mem := mem[tmp2 := mem[tmp2].(right := sibling)];
      mem := mem[parent := mem[parent].(right := tmp2)];
      Rotate43(true, root, c, t, node, parent, m, mem);
    }

    // Case 4 of __rb_erase_fix, the short subtree being on the left.
    method EraseOuterL(parent: Ptr, sibling: Ptr, tmp1: Ptr, ghost up: Ctx, ghost t: Tree, ghost y: Tree, ghost e: Tree,
                       ghost q: Ptr)
      requires Pieces4(true, root, up, t, parent, y, sibling, e, q, mem) && tmp1 == e.n
      modifies this`mem, this`root
      ensures At(root, up, Make(true, Make(true, t, parent, false, y), sibling, old(mem[parent].red), Blacken(e)),
                 sibling, old(mem[parent].parent), mem)
      ensures Touched(old(mem), mem, {parent, sibling} + Nodes(e) + Nodes(y) + CNodes(up))
    {
      hide IsTree, Seg, CNodes, Sep, CSep, At, Nodes, Make;
      ghost var m, top := mem, root;
      Ends(y, mem[sibling].left, q, m);
      Ends(e, tmp1, mem[tmp1].parent, m);
      CEnds(up, top, parent, mem[parent].parent, m);
      var tmp2 := mem[sibling].left;
      mem := mem[parent := mem[parent].(right := tmp2)];
      if tmp2 != NULL {
        mem := mem[tmp2 := mem[tmp2].(parent := parent)];
      }
      mem := mem[sibling := mem[sibling].(left := parent)];
      mem := mem[tmp1 := mem[tmp1].(parent := sibling, red := false)];
      RotateSetParents(parent, sibling, false);
      Rotate4(true, top, up, t, parent, y, sibling, e, q, m, mem);
    }

    // Case 1 of __rb_erase_fix, the short subtree being on the right.
    method EraseTurnR(parent: Ptr, sibling: Ptr, ghost c: Ctx, ghost t: Tree, ghost node: Ptr,
                      ghost h: nat) returns (tmp1: Ptr)
      requires At(root, c, t, node, parent, mem) && Short(c, t, h) && c.left == false && IsRed(c.other)
      requires c.other.n == sibling
      modifies this`mem, this`root
      ensures At(root, Turned(false, c), t, node, parent, mem) && Short(Turned(false, c), t, h)
      ensures !IsRed(Turned(false, c).other)
      ensures tmp1 == Turned(false, c).other.n
      ensures InOrder(Plug(Turned(false, c), t)) == InOrder(Plug(c, t))
      ensures Nodes(Plug(Turned(false, c), t)) == Nodes(Plug(c, t))
      ensures Touched(old(mem), mem, Nodes(Plug(c, t)))
    {
      hide IsTree, Seg, CNodes, Sep, CSep, InOrder, Plug, Bal, CBal, At, Short;
      ghost var m, top := mem, root;
      Sibling(c, t, h);
      Around(root, c, t, node, parent, m);
      TurnedOk(c, t, h);
      tmp1 := mem[sibling].right;
      assert tmp1 in Nodes(c.other);
      mem := mem[parent := mem[parent].(left := tmp1)];
      mem := mem[tmp1 := mem[tmp1].(parent := parent, red := false)];
      mem := mem[sibling := mem[sibling].(right := parent)];
      RotateSetParents(parent, sibling, true);
      Rotate1(false, top, c, t, node, parent, m, mem);
    }

    // Case 3 of __rb_erase_fix, the short subtree being on the right.
    method EraseInnerR(parent: Ptr, sibling: Ptr, tmp2: Ptr, ghost c: Ctx, ghost t: Tree, ghost node: Ptr, ghost h: nat)
      requires At(root, c, t, node, parent, mem) && Short(c, t, h) && c.left == false
      requires !IsRed(c.other) && c.other.n == sibling && IsRed(Near(false, c.other)) && Near(false, c.other).n == tmp2
      requires !IsRed(Far(false, Near(false, c.other)))
      modifies this`mem
      ensures var s, n2 := c.other, Near(false, c.other);
              Pieces4(false, root, c.up, t, parent, Near(false, n2), tmp2,
                      Make(false, Far(false, n2), sibling, false, Far(false, s)), tmp2, mem)
      ensures parent in mem && mem[parent].red == c.red && Touched(old(mem), mem, Nodes(Plug(c, t)))
      ensures parent in old(mem) && mem[parent].parent == old(mem[parent].parent)
    {
      hide IsTree, Seg, CNodes, Sep, CSep, InOrder, Plug, Bal, CBal, At, Pieces4;
      ghost var m := mem;
      Sibling(c, t, h);
      Around(root, c, t, node, parent, m);
      Nephew(false, root, c, t, node, parent, m);
      var tmp1 := mem[tmp2].left;
      mem := mem[sibling := mem[sibling].(right := tmp1)];
      if tmp1 != NULL {
        mem := mem[tmp1 := mem[tmp1].(parent := sibling, red := false)];
      }
      mem := mem[tmp2 := mem[tmp2].(left := sibling)];
      mem := mem[parent := mem[parent].(left := tmp2)];
      Rotate43(false, root, c, t, node, parent, m, mem);
    }

    // Case 4 of __rb_erase_fix, the short subtree being on the right.
    method EraseOuterR(parent: Ptr, sibling: Ptr, tmp1: Ptr, ghost up: Ctx, ghost t: Tree, ghost y: Tree, ghost e: Tree,
                       ghost q: Ptr)
      requires Pieces4(false, root, up, t, parent, y, sibling, e, q, mem) && tmp1 == e.n
      modifies this`mem, this`root
      ensures At(root, up, Make(false, Make(false, t, parent, false, y), sibling, old(mem[parent].red), Blacken(e)),
                 sibling, old(mem[parent].parent), mem)
      ensures Touched(old(mem), mem, {parent, sibling} + Nodes(e) + Nodes(y) + CNodes(up))
    {
      hide IsTree, Seg, CNodes, Sep, CSep, At, Nodes, Make;
      ghost var m, top := mem, root;
      Ends(y, mem[sibling].right, q, m);
      Ends(e, tmp1, mem[tmp1].parent, m);
      CEnds(up, top, parent, mem[parent].parent, m);
      var tmp2 := mem[sibling].right;
      mem := mem[parent := mem[parent].(left := tmp2)];
      if tmp2 != NULL {
        mem := mem[tmp2 := mem[tmp2].(parent := parent)];
      }
      mem := mem[sibling := mem[sibling].(right := parent)];
      mem := mem[tmp1 := mem[tmp1].(parent := sibling, red := false)];
      RotateSetParents(parent, sibling, false);
      Rotate4(false, top, up, t, parent, y, sibling, e, q, m, mem);
    }

    // Cases 3 and 4 of __rb_erase_fix, which end it, the short subtree being on the left.
    method EraseRotateL(parent: Ptr, sibling0: Ptr, ghost c: Ctx, ghost t: Tree, ghost node: Ptr, ghost h: nat)
      requires At(root, c, t, node, parent, mem) && Short(c, t, h) && c.left == true && !IsRed(c.other)
      requires c.other.n == sibling0
      requires IsRed(c.other.l) || IsRed(c.other.r)
      modifies this
      ensures Valid() && InOrder(tree) == InOrder(Plug(c, t)) && Nodes(tree) == Nodes(Plug(c, t))
      ensures Touched(old(mem), mem, Nodes(tree))
    {
      hide IsTree, Seg, CNodes, Sep, CSep, InOrder, Plug, Bal, CBal, At, Pieces4, RedBlack, Nodes;
      ghost var m, s, h' := mem, c.other, if c.red then h + 1 else h + 2;
      Sibling(c, t, h);
      Around(root, c, t, node, parent, m);
      ghost var gp := mem[parent].parent;
      EraseScope(c, t, true);
      var sibling := sibling0;
      var tmp1 := mem[sibling].right;
      if tmp1 == NULL || !mem[tmp1].red {
        var tmp2 := mem[sibling].left;
        ghost var n2 := s.l;
        RedNephew(c, t, h, true);
        EraseInnerL(parent, sibling, tmp2, c, t, node, h);
        tmp1 := sibling;
        sibling := tmp2;
        ghost var e := Make(true, Far(true, n2), s.n, false, s.r);
        EraseOuterL(parent, sibling, tmp1, c.up, t, Near(true, n2), e, n2.n);
        Rotated34Ok(c, t, h);
        Finish(root, c.up, Rotated34(true, c, t), sibling, gp, h', mem);
        tree := Plug(c.up, Rotated34(true, c, t));
      } else {
        TakePieces4(true, root, c, t, node, parent, m);
        EraseOuterL(parent, sibling, tmp1, c.up, t, s.l, s.r, s.n);
        Rotated4Ok(c, t, h);
        Finish(root, c.up, Rotated4(true, c, t), sibling, gp, h', mem);
        tree := Plug(c.up, Rotated4(true, c, t));
      }
    }

    // Cases 3 and 4 of __rb_erase_fix, which end it, the short subtree being on the right.
    method EraseRotateR(parent: Ptr, sibling0: Ptr, ghost c: Ctx, ghost t: Tree, ghost node: Ptr, ghost h: nat)
      requires At(root, c, t, node, parent, mem) && Short(c, t, h) && c.left == false && !IsRed(c.other)
      requires c.other.n == sibling0
      requires IsRed(c.other.l) || IsRed(c.other.r)
      modifies this
      ensures Valid() && InOrder(tree) == InOrder(Plug(c, t)) && Nodes(tree) == Nodes(Plug(c, t))
      ensures Touched(old(mem), mem, Nodes(tree))
    {
      hide IsTree, Seg, CNodes, Sep, CSep, InOrder, Plug, Bal, CBal, At, Pieces4, RedBlack, Nodes;
      ghost var m, s, h' := mem, c.other, if c.red then h + 1 else h + 2;
      Sibling(c, t, h);
      Around(root, c, t, node, parent, m);
      ghost var gp := mem[parent].parent;
      EraseScope(c, t, false);
      var sibling := sibling0;
      var tmp1 := mem[sibling].left;
      if tmp1 == NULL || !mem[tmp1].red {
        var tmp2 := mem[sibling].right;
        ghost var n2 := s.r;
        RedNephew(c, t, h, false);
        EraseInnerR(parent, sibling, tmp2, c, t, node, h);
        tmp1 := sibling;
        sibling := tmp2;
        ghost var e := Make(false, Far(false, n2), s.n, false, s.l);
        EraseOuterR(parent, sibling, tmp1, c.up, t, Near(false, n2), e, n2.n);
        Rotated34Ok(c, t, h);
        Finish(root, c.up, Rotated34(false, c, t), sibling, gp, h', mem);
        tree := Plug(c.up, Rotated34(false, c, t));
      } else {
        TakePieces4(false, root, c, t, node, parent, m);
        EraseOuterR(parent, sibling, tmp1, c.up, t, s.r, s.l, s.n);
        Rotated4Ok(c, t, h);
        Finish(root, c.up, Rotated4(false, c, t), sibling, gp, h', mem);
        tree := Plug(c.up, Rotated4(false, c, t));
      }
    }

    // Case 2 of __rb_erase_fix: done when parent was red or is the root.
    method EraseRecolor(parent: Ptr, sibling: Ptr, ghost c: Ctx, ghost t: Tree, ghost node: Ptr,
                        ghost h: nat) returns (done: bool)
      requires At(root, c, t, node, parent, mem) && Short(c, t, h) && !IsRed(c.other) && c.other.n == sibling
      requires !IsRed(c.other.l) && !IsRed(c.other.r)
      modifies this`mem, this`tree
      ensures Touched(old(mem), mem, Nodes(Plug(c, t)))
      ensures done ==> Valid() && InOrder(tree) == InOrder(Plug(c, t)) && Nodes(tree) == Nodes(Plug(c, t))
      ensures !done ==> !c.red && parent in mem && Short(c.up, Demoted(c, t), h + 1)
      ensures !done ==> At(root, c.up, Demoted(c, t), parent, mem[parent].parent, mem)
      ensures !done ==> InOrder(Plug(c.up, Demoted(c, t))) == InOrder(Plug(c, t))
      ensures !done ==> Nodes(Plug(c.up, Demoted(c, t))) == Nodes(Plug(c, t))
    {
      hide IsTree, Seg, CNodes, Sep, CSep, InOrder, Plug, Bal, CBal, At, Nodes, RedBlack, Make;
      ghost var m := mem;
      Sibling(c, t, h);
      ghost var t' := Demoted(c, t);
      Around(root, c, t, node, parent, mem);
      Recolor2Ok(c, t, h);
      mem := mem[sibling := mem[sibling].(parent := parent, red := true)];
      if mem[parent].red {
        mem := mem[parent := mem[parent].(red := false)];
        done := true;
      } else {
        done := mem[parent].parent == NULL;
      }
      Recolor2(root, c, t, node, parent, m, mem);
      if done {
        Finish(root, c.up, t', parent, mem[parent].parent, h + 1, mem);
        tree := Plug(c.up, t');
      }
    }

    // __rb_erase_fix: the empty subtree below parent0 is one black node short.
    method EraseFix(parent0: Ptr, ghost c0: Ctx)
      requires At(root, c0, Leaf, NULL, parent0, mem) && Short(c0, Leaf, 0)
      modifies this
      ensures Valid() && InOrder(tree) == InOrder(Plug(c0, Leaf)) && Nodes(tree) == Nodes(Plug(c0, Leaf))
      ensures Touched(old(mem), mem, Nodes(tree))
    {
      hide IsTree, Seg, CNodes, Sep, CSep, InOrder, Plug, Bal, CBal, At, Nodes, RedBlack;
      var node, parent := NULL, parent0;
      ghost var c, t, h: nat := c0, Leaf, 0;
      while true
        invariant At(root, c, t, node, parent, mem) && Short(c, t, h)
        invariant InOrder(Plug(c, t)) == InOrder(Plug(c0, Leaf)) && Nodes(Plug(c, t)) == Nodes(Plug(c0, Leaf))
        invariant Touched(old(mem), mem, Nodes(Plug(c0, Leaf)))
        decreases c
      {
        Sibling(c, t, h);
        Around(root, c, t, node, parent, mem);
        var sibling := mem[parent].right;
        if node != sibling {
          if mem[sibling].red {
            sibling := EraseTurnL(parent, sibling, c, t, node, h);
            c := Turned(true, c);
            Sibling(c, t, h);
            Around(root, c, t, node, parent, mem);
          }
          var tmp1, tmp2 := mem[sibling].right, mem[sibling].left;
          if (tmp1 == NULL || !mem[tmp1].red) && (tmp2 == NULL || !mem[tmp2].red) {
            var done := EraseRecolor(parent, sibling, c, t, node, h);
            if done {
              break;
            }
            c, t, h := c.up, Demoted(c, t), h + 1;
            node := parent;
            parent := mem[node].parent;
            continue;
          }
          EraseRotateL(parent, sibling, c, t, node, h);
          break;
        } else {
          sibling := mem[parent].left;
          if mem[sibling].red {
            sibling := EraseTurnR(parent, sibling, c, t, node, h);
            c := Turned(false, c);
            Sibling(c, t, h);
            Around(root, c, t, node, parent, mem);
          }
          var tmp1, tmp2 := mem[sibling].left, mem[sibling].right;
          if (tmp1 == NULL || !mem[tmp1].red) && (tmp2 == NULL || !mem[tmp2].red) {
            var done := EraseRecolor(parent, sibling, c, t, node, h);
            if done {
              break;
            }
            c, t, h := c.up, Demoted(c, t), h + 1;
            node := parent;
            parent := mem[node].parent;
            continue;
          }
          EraseRotateR(parent, sibling, c, t, node, h);
          break;
        }
      }
    }

    // The memory holds, where node was, either a fitting rest or a short empty place below rebalance.
    ghost predicate Unlinked(rebalance: Ptr, c': Ctx, t': Tree)
      reads this
    {
      if rebalance == NULL then Valid() && tree == Plug(c', t')
      else t' == Leaf && At(root, c', Leaf, NULL, rebalance, mem) && Short(c', Leaf, 0)
    }

    // __rb_erase, node lacking a subtree on the left or else on the right.
    method UnlinkOne(node: Ptr, ghost c: Ctx, ghost t: Tree) returns (rebalance: Ptr, ghost t': Tree)
      requires node in mem && At(root, c, t, node, mem[node].parent, mem) && t.Fork? && t.n == node
      requires RedBlack(Plug(c, t))
      requires mem[node].left == NULL || mem[node].right == NULL
      modifies this
      ensures Unlinked(rebalance, c, t') && Removed(InOrder(Plug(c, t)), InOrder(Plug(c, t')), node)
      ensures Touched(old(mem), mem, Nodes(Plug(c, t)))
    {
      hide IsTree, Seg, CNodes, Sep, CSep, InOrder, Plug, Bal, CBal, Nodes, RedBlack, Removed;
      ghost var m, top, left := mem, root, mem[node].left == NULL;
      ghost var k := Far(left, t);
      OneChild(left, root, c, t, node, mem[node].parent, mem);
      SpliceInOrder(left, c, node, t.red, k);
      ghost var h := SpliceOk(left, c, node, t.red, k);
      var child, tmp, parent, red := mem[node].right, mem[node].left, mem[node].parent, mem[node].red;
      if tmp == NULL {
        ChangeChild(node, child, parent);
        if child != NULL {
          mem := mem[child := mem[child].(parent := parent, red := red)];
          rebalance := NULL;
        } else {
          rebalance := if !red then parent else NULL;
        }
      } else {
        mem := mem[tmp := mem[tmp].(parent := parent, red := red)];
        ChangeChild(node, tmp, parent);
        rebalance := NULL;
      }
      t' := Repainted(k, red);
      SpliceOut(left, top, c, node, red, k, parent, m, mem);
      if rebalance == NULL {
        tree := Plug(c, t');
        Finish(root, c, t', Kid(m[node], !left), parent, h, mem);
      }
    }

    // __rb_erase: the successor leaves its place below parent and takes node's right child.
    method TakeRight(successor: Ptr, parent: Ptr, child: Ptr, child2: Ptr)
      requires successor in mem && parent in mem && child in mem && successor !in {parent, child}
      modifies this`mem
      ensures Touched(old(mem), mem, {successor, parent, child})
      ensures mem[successor] == old(mem[successor]).(right := child)
      ensures mem[parent] == old(mem[parent]).(left := child2, parent := if parent == child then successor
                                               else old(mem[parent].parent))
      ensures mem[child]
              == old(mem[child]).(left := if parent == child then child2 else old(mem[child].left), parent := successor)
    {
      mem := mem[parent := mem[parent].(left := child2)];
      mem := mem[successor := mem[successor].(right := child)];
      mem := mem[child := mem[child].(parent := successor)];
    }

    // __rb_erase: the successor takes node's left child, parent link and colour.
    method TakePlace(node: Ptr, successor: Ptr, parent: Ptr, child2: Ptr) returns (rebalance: Ptr)
      requires node in mem && successor in mem && mem[node].left in mem
      requires var l, p := mem[node].left, mem[node].parent;
               && node !in {successor, l, p} && successor !in {l, p} && l != p && (p != NULL ==> p in mem)
               && (child2 != NULL ==> child2 in mem && child2 !in {node, successor, l, p})
      modifies this`mem, this`root
      ensures root == if old(mem[node].parent) == NULL then successor else old(root)
      ensures rebalance == if child2 == NULL && !old(mem[successor].red) then parent else NULL
      ensures Touched(old(mem), mem, {successor, old(mem[node].left)} + Opt(child2) + Opt(old(mem[node].parent)))
      ensures mem[successor] == old(mem[successor]).(left := old(mem[node].left), parent := old(mem[node].parent),
                                                     red := old(mem[node].red))
      ensures mem[old(mem[node].left)] == old(mem[mem[node].left].(parent := successor))
      ensures Painted(old(mem), mem, child2, parent, false)
      ensures Swung(old(mem), mem, old(mem[node].parent), node, successor)
    {
      var tmp := mem[node].left;
      mem := mem[successor := mem[successor].(left := tmp)];
      mem := mem[tmp := mem[tmp].(parent := successor)];
      var p, red := mem[node].parent, mem[node].red;
      ChangeChild(node, successor, p);
      if child2 != NULL {
        mem := mem[successor := mem[successor].(parent := p, red := red)];
        mem := mem[child2 := mem[child2].(parent := parent, red := false)];
        rebalance := NULL;
      } else {
        var red2 := mem[successor].red;
        mem := mem[successor := mem[successor].(parent := p, red := red)];
        rebalance := if !red2 then parent else NULL;
      }
    }

    // __rb_erase, node having two subtrees: the successor, found below parent, is linked in its place.
    method Relink(node: Ptr, successor: Ptr, parent: Ptr, far: bool, ghost l: Tree) returns (rebalance: Ptr)
      requires RelinkApart(far, l, node, successor, parent, mem)
      modifies this`mem, this`root
      ensures Relinked(far, l, node, successor, parent, old(mem), mem)
      ensures root == if old(mem[node].parent) == NULL then successor else old(root)
      ensures rebalance == if old(mem[successor].right == NULL && !mem[successor].red) then parent else NULL
    {
      var child, child2 := mem[node].right, mem[successor].right;
      if far {
        TakeRight(successor, parent, child, child2);
      }
      rebalance := TakePlace(node, successor, parent, child2);
    }

    // __rb_erase, node having two subtrees.
    method UnlinkTwo(node: Ptr, ghost c: Ctx, ghost t: Tree) returns (rebalance: Ptr, ghost c': Ctx, ghost t': Tree)
      requires node in mem && At(root, c, t, node, mem[node].parent, mem) && t.Fork? && t.n == node
      requires RedBlack(Plug(c, t))
      requires mem[node].left != NULL && mem[node].right != NULL
      modifies this
      ensures Unlinked(rebalance, c', t') && Removed(InOrder(Plug(c, t)), InOrder(Plug(c', t')), node)
      ensures Touched(old(mem), mem, Nodes(Plug(c, t)))
    {
      hide IsTree, Seg, CNodes, Sep, CSep, InOrder, Plug, Bal, CBal, Nodes, RedBlack, Removed, At, FarPieces, Relinked,
           RelinkApart, Replaced, Spine, Append;
      ghost var m, top, l, red := mem, root, t.l, t.red;
      TwoChildren(root, c, t, node, mem[node].parent, mem);
      var child := mem[node].right;
      var successor, tmp, parent := child, mem[child].left, node;
      ghost var spine, cur := Top, t.r;
      SpineStart(node, red, l, c);
      if tmp == NULL {
        parent := successor;
        SpineEnd(root, Frame(false, node, red, l, c), cur, successor, node, m);
        NearApart(root, c, l, node, red, successor, cur.red, cur.r, m);
        rebalance := Relink(node, successor, parent, false, l);
        ReplaceNear(top, c, l, node, red, successor, cur.red, cur.r, m, mem);
        SpineStart(successor, red, l, c);
      } else {
        while tmp != NULL
          invariant Spine(spine) && At(root, Replaced(spine, node, red, l, c), cur, successor, parent, mem)
          invariant cur.Fork? && cur.n == successor && successor in mem && tmp == mem[successor].left
          invariant Plug(Replaced(spine, node, red, l, c), cur) == Plug(c, t)
          invariant mem == m && root == top && (tmp == NULL ==> spine.Frame?)
          decreases cur
        {
          SpineStep(root, spine, node, red, l, c, cur, successor, parent, mem);
          spine, cur := Frame(true, successor, cur.red, cur.r, spine), cur.l;
          parent := successor;
          successor := tmp;
          tmp := mem[tmp].left;
        }
        SpineEnd(root, Replaced(spine, node, red, l, c), cur, successor, parent, m);
        TakeFar(root, spine, c, l, node, red, successor, cur.red, cur.r, parent, m);
        FarApart(root, spine, c, l, node, red, successor, cur.r, parent, m);
        rebalance := Relink(node, successor, parent, true, l);
        ReplaceFar(top, spine, c, l, node, red, successor, cur.r, parent, m, mem);
      }
      c', t' := Replaced(spine, successor, red, l, c), Blacken(cur.r);
      ReplaceInOrder(spine, c, l, node, red, successor, cur.red, cur.r);
      ghost var h := ReplaceOk(spine, c, l, node, red, successor, cur.red, cur.r);
      RelinkScope(top, spine, c, l, node, red, successor, cur.red, cur.r, parent, m, mem);
      if rebalance == NULL {
        tree := Plug(c', t');
        Finish(root, c', t', m[successor].right, parent, h, mem);
      }
    }

    // _rb_erase
    method Erase(node: Ptr)
      requires Valid() && node in Nodes(tree)
      modifies this
      ensures Valid() && Removed(InOrder(old(tree)), InOrder(tree), node)
      ensures Nodes(tree) == Nodes(old(tree)) - {node} && Touched(old(mem), mem, Nodes(old(tree)))
    {
      hide IsTree, Seg, CNodes, Sep, CSep, InOrder, Bal, CBal, Nodes, RedBlack, Removed, Plug;
      ghost var tree0 := tree;
      AtRoot(tree, root, mem);
      ghost var c, t, p := Locate(root, Top, tree, root, NULL, mem, node);
      var rebalance;
      ghost var c', t' := c, t;
      if mem[node].left == NULL || mem[node].right == NULL {
        rebalance, t' := UnlinkOne(node, c, t);
      } else {
        rebalance, c', t' := UnlinkTwo(node, c, t);
      }
      RemovedNodes(tree0, Plug(c', t'), node);
      if rebalance != NULL {
        EraseFix(rebalance, c');
      }
    }

    // _rb_lookup
    method Lookup(node: Ptr, lt: (Ptr, Ptr) -> bool) returns (r: Ptr)
      requires Valid() && Transitive(lt, Nodes(tree) + {node}) && Sorted(lt, InOrder(tree))
      ensures r != NULL ==> r in Nodes(tree) && Equivalent(lt, node, r)
      ensures r == NULL ==> forall x :: x in Nodes(tree) ==> !Equivalent(lt, node, x)
    {
      hide IsTree, Seg, CNodes, Sep, CSep, Bal, CBal, InOrder, Nodes, RedBlack, Plug, At, Brackets, Transitive, Sorted;
      r := root;
      ghost var c, t, p := Top, tree, NULL;
      AtRoot(tree, root, mem);
      NoBrackets(lt, node);
      Ends(tree, root, NULL, mem);
      while r != NULL
        invariant At(root, c, t, r, p, mem) && Plug(c, t) == tree && Brackets(lt, c, node) && (t == Leaf <==> r == NULL)
        decreases t
      {
        if lt(node, r) {
          StepDown(true, root, c, t, r, p, mem);
          Descend(lt, c, t, node, true);
          c, t, p := Frame(true, r, t.red, t.r, c), t.l, r;
          r := mem[r].left;
        } else if lt(r, node) {
          StepDown(false, root, c, t, r, p, mem);
          Descend(lt, c, t, node, false);
          c, t, p := Frame(false, r, t.red, t.l, c), t.r, r;
          r := mem[r].right;
        } else {
          StepDown(true, root, c, t, r, p, mem);
          return;
        }
      }
      Landed(lt, c, node);
    }

    // _rb_first
    method First() returns (n: Ptr)
      requires Valid()
      ensures n == if tree == Leaf then NULL else InOrder(tree)[0]
    {
      hide Seg, CNodes, Sep, CSep, Bal, CBal, Nodes, RedBlack;
      n := root;
      if n == NULL {
        return;
      }
      ghost var t, p := tree, NULL;
      while mem[n].left != NULL
        invariant t.Fork? && IsTree(t, n, p, mem) && InOrder(t)[0] == InOrder(tree)[0]
        decreases t
      {
        t, p := t.l, n;
        n := mem[n].left;
      }
      assert InOrder(t.l) == [];
    }
  }
}
