/** What each rebalancing step of the red-black tree does to the tree that memory holds.
    A step is stated once for both mirror images: `left` says on which side it works. */
module RbSteps {
  import opened Basics
  import opened RbShape

  // ---- insertion ----

  // The subtree under repair is red with black children; only the edge to its parent may be red-red.
  ghost predicate RedSubtree(c: Ctx, t: Tree, h: nat) {
    IsRed(t) && Bal(t, h) && CBal(c, h)
  }

  // Red uncle: both children of g turn black and g turns red.
  lemma Recolor(top: Ptr, up: Ctx, g: Ptr, l: Tree, r: Tree, p: Ptr, m: Mem, m': Mem)
    requires l.Fork? && r.Fork? && At(top, up, Fork(l, g, false, r), g, p, m)
    requires Touched(m, m', {g, l.n, r.n}) && g in m && m'[g] == m[g].(red := true)
    requires Painted(m, m', l.n, g, false) && Painted(m, m', r.n, g, false)
    ensures At(top, up, Fork(Blacken(l), g, true, Blacken(r)), g, p, m')
  {
    hide IsTree, Seg, Nodes, CNodes, Sep, CSep;
    TakeTree(true, l, g, false, r, g, p, m);
    Ends(l, m[g].left, g, m);
    Ends(r, m[g].right, g, m);
    Reroot(l, l.n, g, g, false, m, m');
    Reroot(r, r.n, g, g, false, m, m');
    FrameSeg(up, top, NULL, g, p, m, m');
    SameNodes(l, false);
    SameNodes(r, false);
    MakeTree(true, Blacken(l), g, true, Blacken(r), p, m');
  }

  lemma SameNodes(t: Tree, red': bool)
    ensures t.Fork? ==> Nodes(t.(red := red')) == Nodes(t) && (Sep(t) ==> Sep(t.(red := red')))
    ensures t.Fork? ==> InOrder(t.(red := red')) == InOrder(t)
  {
  }

  // What an insertion rotation works on: parent still holds a and gparent still holds d, tmp is the
  // root of b (held by parent), and the links that the rotation writes are free.
  ghost predicate Pieces(left: bool, top: Ptr, up: Ctx, a: Tree, parent: Ptr, b: Tree, gparent: Ptr, d: Tree, tmp: Ptr,
                         m: Mem) {
    && parent in m && gparent in m && parent != gparent && parent != NULL && gparent != NULL && !m[gparent].red
    && Sep(a) && Sep(b) && Sep(d) && CSep(up)
    && Nodes(a) !! Nodes(b) && Nodes(a) !! Nodes(d) && Nodes(b) !! Nodes(d)
    && Nodes(a) !! CNodes(up) && Nodes(b) !! CNodes(up) && Nodes(d) !! CNodes(up)
    && parent !in Nodes(a) && parent !in Nodes(b) && parent !in Nodes(d) && parent !in CNodes(up)
    && gparent !in Nodes(a) && gparent !in Nodes(b) && gparent !in Nodes(d) && gparent !in CNodes(up)
    && Seg(up, top, NULL, gparent, m[gparent].parent, m)
    && IsTree(a, Kid(m[parent], left), parent, m) && IsTree(b, tmp, parent, m)
    && IsTree(d, Kid(m[gparent], !left), gparent, m)
  }

  lemma TakePieces(left: bool, top: Ptr, up: Ctx, a: Tree, parent: Ptr, red: bool, b: Tree, gparent: Ptr, d: Tree,
                   p: Ptr, m: Mem)
    requires At(top, up, Make(left, Make(left, a, parent, red, b), gparent, false, d), gparent, p, m)
    ensures parent in m && Pieces(left, top, up, a, parent, b, gparent, d, Kid(m[parent], !left), m)
    ensures Kid(m[gparent], left) == parent && m[parent].parent == gparent && m[gparent].parent == p
    ensures m[parent].red == red
  {
    hide IsTree, Seg, Nodes, CNodes, Sep, CSep, Make;
    TakeTree(left, Make(left, a, parent, red, b), gparent, false, d, gparent, p, m);
    TakeTree(left, a, parent, red, b, Kid(m[gparent], left), gparent, m);
  }

  // The outer rotation: parent takes the place of gparent, which becomes its red child.
  lemma Rotate3(left: bool, top: Ptr, up: Ctx, a: Tree, parent: Ptr, b: Tree, gparent: Ptr, d: Tree, tmp: Ptr, m: Mem,
                m': Mem)
    requires Pieces(left, top, up, a, parent, b, gparent, d, tmp, m) && !IsRed(b)
    requires Touched(m, m', {parent, gparent} + Opt(tmp) + Opt(m[gparent].parent))
    requires m'[parent] == SetKid(m[parent], !left, gparent).(parent := m[gparent].parent, red := false)
    requires m'[gparent] == SetKid(m[gparent], left, tmp).(parent := parent, red := true)
    requires Painted(m, m', tmp, gparent, false)
    requires Swung(m, m', m[gparent].parent, gparent, parent)
    ensures At(if m[gparent].parent == NULL then parent else top, up,
               Make(left, a, parent, false, Make(left, b, gparent, true, d)), parent, m[gparent].parent, m')
  {
    hide IsTree, Seg, Nodes, CNodes, Sep, CSep, Make;
    var gp := m[gparent].parent;
    Ends(b, tmp, parent, m);
    CEnds(up, top, gparent, gp, m);
    FrameTree(a, Kid(m[parent], left), parent, m, m');
    Reroot(b, tmp, parent, gparent, false, m, m');
    FrameTree(d, Kid(m[gparent], !left), gparent, m, m');
    Rehang(up, top, NULL, gparent, parent, gp, m, m');
    MakeTree(left, b, gparent, true, d, parent, m');
    MakeTree(left, a, parent, false, Make(left, b, gparent, true, d), gp, m');
  }

  // The inner rotation, which prepares an outer one with node in the role of parent.
  lemma Rotate2(left: bool, top: Ptr, up: Ctx, a: Tree, parent: Ptr, b1: Tree, node: Ptr, b2: Tree, gparent: Ptr,
                d: Tree, m: Mem, m': Mem)
    requires Pieces(left, top, up, a, parent, Make(left, b1, node, true, b2), gparent, d, node, m) && !IsRed(b1)
    requires node in m
    requires Touched(m, m', {parent, node} + Opt(Kid(m[node], left)))
    requires m'[parent] == SetKid(m[parent], !left, Kid(m[node], left)).(parent := node, red := true)
    requires m'[node] == SetKid(m[node], left, parent)
    requires Painted(m, m', Kid(m[node], left), parent, false)
    ensures Pieces(left, top, up, Make(left, a, parent, true, b1), node, b2, gparent, d, Kid(m'[node], !left), m')
  {
    hide IsTree, Seg, Nodes, CNodes, Sep, CSep, Make, Touched, Agree;
    var w := {parent, node} + Opt(Kid(m[node], left));
    CellOff(parent, m, m', w);
    CellOff(node, m, m', w);
    CellOff(gparent, m, m', w);
    TakeTree(left, b1, node, true, b2, node, parent, m);
    Ends(b1, Kid(m[node], left), node, m);
    TreeOff(a, Kid(m[parent], left), parent, m, m', w);
    RerootOff(b1, Kid(m[node], left), node, parent, false, m, m', w);
    TreeOff(b2, Kid(m[node], !left), node, m, m', w);
    TreeOff(d, Kid(m[gparent], !left), gparent, m, m', w);
    SegOff(up, top, NULL, gparent, m[gparent].parent, m, m', w);
    MakeTree(left, a, parent, true, b1, node, m');
  }

  lemma InnerEnds(left: bool, top: Ptr, up: Ctx, a: Tree, parent: Ptr, b: Tree, gparent: Ptr, d: Tree, node: Ptr,
                  m: Mem)
    requires Pieces(left, top, up, a, parent, b, gparent, d, node, m) && b.Fork? && b.n == node
    ensures node in m && node != NULL && node !in {parent, gparent} && parent in m && gparent in m && parent != gparent
    ensures var tmp := Kid(m[node], left);
            tmp != NULL ==> tmp in m && tmp !in {parent, gparent, node} && tmp in Nodes(b)
    ensures node in Nodes(b) && gparent !in Nodes(b)
  {
    TakeTree(left, Near(left, b), node, b.red, Far(left, b), node, parent, m);
    Ends(Near(left, b), Kid(m[node], left), node, m);
  }

  // The red node is a child of the red root of pt: its inner child or its outer one.
  ghost predicate RedEdge(left: bool, pt: Tree, node: Ptr, inner: bool) {
    && IsRed(pt)
    && var nt, other := if inner then Far(left, pt) else Near(left, pt), if inner then Near(left, pt)
         else Far(left, pt);
    && IsRed(nt) && nt.n == node && !IsRed(nt.l) && !IsRed(nt.r) && !IsRed(other)
  }

  // Comparing node with the inner child of its parent tells which child it is.
  lemma EdgeKid(left: bool, top: Ptr, up: Ctx, pt: Tree, node: Ptr, inner: bool, gparent: Ptr, d: Tree, m: Mem)
    requires RedEdge(left, pt, node, inner) && pt.n in m
    requires Pieces(left, top, up, Near(left, pt), pt.n, Far(left, pt), gparent, d, Kid(m[pt.n], !left), m)
    ensures inner <==> Kid(m[pt.n], !left) == node
  {
    Ends(Near(left, pt), Kid(m[pt.n], left), pt.n, m);
    Ends(Far(left, pt), Kid(m[pt.n], !left), pt.n, m);
  }

  // The tree that replaces gparent's, pt being parent's subtree: node is the inner grandchild or the outer one.
  function Rotated(left: bool, inner: bool, pt: Tree, gparent: Ptr, d: Tree): Tree
    requires pt.Fork? && (inner ==> Far(left, pt).Fork?)
  {
    if inner then
      var b := Far(left, pt);
      Make(left, Make(left, Near(left, pt), pt.n, true, Near(left, b)), b.n, false,
           Make(left, Far(left, b), gparent, true, d))
    else
      Make(left, Near(left, pt), pt.n, false, Make(left, Far(left, pt), gparent, true, d))
  }

  function Near(left: bool, t: Tree): Tree requires t.Fork? { if left then t.l else t.r }
  function Far(left: bool, t: Tree): Tree requires t.Fork? { if left then t.r else t.l }

  lemma Reassociate(a: Tree, x: Ptr, r1: bool, b: Tree, y: Ptr, r2: bool, c: Tree, r3: bool, r4: bool)
    ensures InOrder(Fork(Fork(a, x, r1, b), y, r2, c)) == InOrder(Fork(a, x, r3, Fork(b, y, r4, c)))
    ensures Nodes(Fork(Fork(a, x, r1, b), y, r2, c)) == Nodes(Fork(a, x, r3, Fork(b, y, r4, c)))
  {
    calc {
      InOrder(Fork(Fork(a, x, r1, b), y, r2, c));
      (InOrder(a) + [x] + InOrder(b)) + [y] + InOrder(c);
      InOrder(a) + [x] + (InOrder(b) + [y] + InOrder(c));
      InOrder(Fork(a, x, r3, Fork(b, y, r4, c)));
    }
  }

  // The same for either side: near x (mid y far) and (near x mid) y far.
  lemma Rotation(left: bool, near: Tree, x: Ptr, r1: bool, mid: Tree, y: Ptr, r2: bool, far: Tree, r3: bool, r4: bool)
    ensures InOrder(Make(left, Make(left, near, x, r1, mid), y, r2, far))
            == InOrder(Make(left, near, x, r3, Make(left, mid, y, r4, far)))
    ensures Nodes(Make(left, Make(left, near, x, r1, mid), y, r2, far))
            == Nodes(Make(left, near, x, r3, Make(left, mid, y, r4, far)))
  {
    if left {
      Reassociate(near, x, r1, mid, y, r2, far, r3, r4);
    } else {
      Reassociate(far, y, r4, mid, x, r3, near, r2, r1);
    }
  }

  // Equal parts in order give equal wholes in order.
  lemma SameMake(left: bool, near: Tree, near': Tree, x: Ptr, red: bool, red': bool, far: Tree, far': Tree)
    requires InOrder(near) == InOrder(near') && Nodes(near) == Nodes(near') && InOrder(far) == InOrder(far')
    requires Nodes(far) == Nodes(far')
    ensures InOrder(Make(left, near, x, red, far)) == InOrder(Make(left, near', x, red', far'))
    ensures Nodes(Make(left, near, x, red, far)) == Nodes(Make(left, near', x, red', far'))
  {
  }

  // A rotation keeps the in-order sequence and yields a black-rooted balanced subtree.
  lemma RotatedOk(left: bool, inner: bool, pt: Tree, gparent: Ptr, d: Tree, h: nat)
    requires IsRed(pt) && !IsRed(d) && Bal(d, h) && Bal(pt.l, h) && Bal(pt.r, h)
    requires inner ==> IsRed(Far(left, pt)) && !IsRed(Near(left, pt))
    requires !inner ==> !IsRed(Far(left, pt))
    ensures Bal(Rotated(left, inner, pt, gparent, d), h + 1) && !IsRed(Rotated(left, inner, pt, gparent, d))
    ensures InOrder(Rotated(left, inner, pt, gparent, d)) == InOrder(Make(left, pt, gparent, false, d))
    ensures Nodes(Rotated(left, inner, pt, gparent, d)) == Nodes(Make(left, pt, gparent, false, d))
  {
    var a, b := Near(left, pt), Far(left, pt);
    assert Bal(a, h) && Bal(b, h);
    hide InOrder, Nodes;
    if inner {
      Rotation(left, a, pt.n, true, Near(left, b), b.n, true, Far(left, b), true, true);
      SameMake(left, pt, Make(left, Make(left, a, pt.n, true, Near(left, b)), b.n, true, Far(left, b)), gparent, false,
               false, d, d);
      Rotation(left, Make(left, a, pt.n, true, Near(left, b)), b.n, true, Far(left, b), gparent, false, d, false, true);
    } else {
      Rotation(left, a, pt.n, true, b, gparent, false, d, false, true);
    }
  }

  // One level up: the subtree under repair together with its parent.
  lemma Climb(top: Ptr, c: Ctx, t: Tree, node: Ptr, p: Ptr, m: Mem)
    requires At(top, c, t, node, p, m) && c.Frame?
    ensures p == c.x && p in m && p != NULL && m[p].red == c.red
    ensures At(top, c.up, Make(c.left, t, p, c.red, c.other), p, m[p].parent, m)
    ensures Kid(m[p], c.left) == node && IsTree(c.other, Kid(m[p], !c.left), p, m)
  {
    hide IsTree, Seg, Nodes, CNodes, Sep, CSep, Make;
    TakeFrame(c.left, c.x, c.red, c.other, c.up, top, NULL, node, p, m);
    MakeTree(c.left, t, c.x, c.red, c.other, m[c.x].parent, m);
  }

  // Below a red parent the path has a black grandparent; the side of the parent shows in the right link.
  lemma RedParent(top: Ptr, c: Ctx, t: Tree, node: Ptr, p: Ptr, h: nat, m: Mem)
    requires At(top, c, t, node, p, m) && RedSubtree(c, t, h) && c.Frame? && c.red
    ensures p == c.x && p in m && c.up.Frame? && !c.up.red
    ensures var g := c.up;
            && g.x in m && m[p].parent == g.x && g.x != NULL && m[g.x].red == false
            && At(top, g.up, Make(g.left, Make(c.left, t, p, true, c.other), g.x, false, g.other), g.x, m[g.x].parent,
                  m)
            && (g.left <==> p != m[g.x].right)
            && (Kid(m[g.x], !g.left) != NULL <==> g.other.Fork?)
            && (g.other.Fork? ==>
                Kid(m[g.x], !g.left) == g.other.n && g.other.n in m && m[g.other.n].red == g.other.red)
            && Bal(c.other, h) && !IsRed(c.other) && Bal(g.other, h) && CBal(g.up, h + 1)
    ensures RedEdge(c.up.left, Make(c.left, t, p, true, c.other), t.n, c.left != c.up.left)
  {
    hide IsTree, Seg, Nodes, CNodes, Sep, CSep;
    var g := c.up;
    assert CBal(g, h) && g.Frame?;
    Climb(top, c, t, node, p, m);
    var pt := Make(c.left, t, p, true, c.other);
    Climb(top, g, pt, p, m[p].parent, m);
    TakeTree(g.left, pt, g.x, false, g.other, g.x, m[g.x].parent, m);
    Ends(g.other, Kid(m[g.x], !g.left), g.x, m);
    Ends(pt, p, g.x, m);
  }

  // A red uncle: the grandparent, now red over two black children, is the next subtree to repair.
  lemma RecoloredOk(left: bool, cl: bool, up: Ctx, t: Tree, p: Ptr, other: Tree, g: Ptr, d: Tree, h: nat)
    requires IsRed(t) && Bal(t, h) && Bal(other, h) && !IsRed(other) && IsRed(d) && Bal(d, h) && CBal(up, h + 1)
    ensures var t' := Make(left, Make(cl, t, p, false, other), g, true, Blacken(d));
            && RedSubtree(up, t', h + 1)
            && InOrder(t') == InOrder(Make(left, Make(cl, t, p, true, other), g, false, d))
            && Nodes(t') == Nodes(Make(left, Make(cl, t, p, true, other), g, false, d))
  {
    var pt := Make(cl, t, p, true, other);
    SameNodes(pt, false);
    SameNodes(d, false);
    SameMake(left, pt, Blacken(pt), g, false, true, d, Blacken(d));
  }

  lemma SamePlug(c: Ctx, t: Tree, t': Tree)
    requires InOrder(t) == InOrder(t') && Nodes(t) == Nodes(t')
    ensures InOrder(Plug(c, t)) == InOrder(Plug(c, t')) && Nodes(Plug(c, t)) == Nodes(Plug(c, t'))
  {
    PlugInOrder(c, t);
    PlugInOrder(c, t');
    PlugSep(c, t);
    PlugSep(c, t');
  }

  // When the repaired subtree fits its path, the whole is a red-black tree in memory.
  lemma Finish(top: Ptr, c: Ctx, t: Tree, n: Ptr, p: Ptr, h: nat, m: Mem)
    requires At(top, c, t, n, p, m) && Bal(t, h) && CBal(c, h) && (IsRed(t) ==> c != Top && !CRed(c))
    ensures IsTree(Plug(c, t), top, NULL, m) && Sep(Plug(c, t)) && RedBlack(Plug(c, t))
    ensures Nodes(Plug(c, t)) == CNodes(c) + Nodes(t)
  {
    PlugTree(c, t, top, NULL, n, p, m);
    PlugSep(c, t);
    PlugRedBlack(c, t, h);
  }

  function Uncle(c: Ctx): Tree requires c.Frame? && c.up.Frame? { c.up.other }

  // The grandparent's subtree after a red uncle was recoloured.
  function Recolored(c: Ctx, t: Tree): Tree requires c.Frame? && c.up.Frame? {
    Make(c.up.left, Make(c.left, t, c.x, false, c.other), c.up.x, true, Blacken(c.up.other))
  }

  lemma RecolorStep(top: Ptr, c: Ctx, t: Tree, node: Ptr, p: Ptr, h: nat, m: Mem, m': Mem)
    requires At(top, c, t, node, p, m) && RedSubtree(c, t, h) && c.Frame? && c.red && c.up.Frame? && IsRed(Uncle(c))
    requires Touched(m, m', {c.x, c.up.x, Uncle(c).n}) && c.up.x in m && m'[c.up.x] == m[c.up.x].(red := true)
    requires Painted(m, m', c.x, c.up.x, false) && Painted(m, m', Uncle(c).n, c.up.x, false)
    ensures At(top, c.up.up, Recolored(c, t), c.up.x, m[c.up.x].parent, m')
    ensures RedSubtree(c.up.up, Recolored(c, t), h + 1)
    ensures InOrder(Plug(c.up.up, Recolored(c, t))) == InOrder(Plug(c, t))
    ensures Nodes(Plug(c.up.up, Recolored(c, t))) == Nodes(Plug(c, t))
    ensures {c.x, c.up.x, Uncle(c).n} <= Nodes(Plug(c, t))
    ensures Recolored(c, t).Fork? && Recolored(c, t).n == c.up.x && (c.up.up == Top ==> top == c.up.x)
  {
    RedParent(top, c, t, node, p, h, m);
    var g := c.up;
    var pt := Make(c.left, t, p, true, c.other);
    if g.left {
      Recolor(top, g.up, g.x, pt, g.other, m[g.x].parent, m, m');
    } else {
      Recolor(top, g.up, g.x, g.other, pt, m[g.x].parent, m, m');
    }
    RecoloredOk(g.left, c.left, g.up, t, p, c.other, g.x, g.other, h);
    SamePlug(g.up, Recolored(c, t), Make(g.left, pt, g.x, false, g.other));
    PlugSep(c, t);
  }

  // A rotation at the grandparent completes the repair.
  lemma RotateStep(top: Ptr, top': Ptr, c: Ctx, t: Tree, node: Ptr, p: Ptr, h: nat, m: Mem, p': Ptr, m': Mem)
    requires At(top, c, t, node, p, m) && RedSubtree(c, t, h) && c.Frame? && c.red && c.up.Frame? && !IsRed(Uncle(c))
    requires var g := c.up; var pt := Make(c.left, t, c.x, true, c.other);
             var t' := Rotated(g.left, c.left != g.left, pt, g.x, g.other);
             At(top', g.up, t', t'.n, p', m')
    ensures var g := c.up; var pt := Make(c.left, t, c.x, true, c.other);
            var w := Plug(g.up, Rotated(g.left, c.left != g.left, pt, g.x, g.other));
            && IsTree(w, top', NULL, m') && Sep(w) && RedBlack(w)
            && InOrder(w) == InOrder(Plug(c, t)) && Nodes(w) == Nodes(Plug(c, t))
            && Nodes(w) == CNodes(g.up) + Nodes(Make(g.left, pt, g.x, false, g.other))
  {
    RedParent(top, c, t, node, p, h, m);
    var g := c.up;
    var pt := Make(c.left, t, p, true, c.other);
    RotatedOk(g.left, c.left != g.left, pt, g.x, g.other, h);
    var t' := Rotated(g.left, c.left != g.left, pt, g.x, g.other);
    SamePlug(g.up, t', Make(g.left, pt, g.x, false, g.other));
    Finish(top', g.up, t', t'.n, p', h + 1, m');
  }

  // The repair ends at the root, which turns black, or below a black parent.
  lemma RootStep(t: Tree, node: Ptr, h: nat, m: Mem, m': Mem)
    requires At(node, Top, t, node, NULL, m) && RedSubtree(Top, t, h)
    requires Touched(m, m', {node}) && Painted(m, m', node, NULL, false)
    ensures IsTree(Blacken(t), node, NULL, m') && Sep(Blacken(t)) && RedBlack(Blacken(t))
    ensures InOrder(Blacken(t)) == InOrder(t) && Nodes(Blacken(t)) == Nodes(t) && node in Nodes(t) && Plug(Top, t) == t
  {
    Reroot(t, node, NULL, NULL, false, m, m');
    SameNodes(t, false);
    assert Bal(Blacken(t), h + 1);
  }

  // One level down.
  lemma StepDown(left: bool, top: Ptr, c: Ctx, t: Tree, n: Ptr, p: Ptr, m: Mem)
    requires At(top, c, t, n, p, m) && t.Fork?
    ensures n == t.n && n != NULL && n in m && n in Nodes(Plug(c, t))
    ensures At(top, Frame(left, n, t.red, Far(left, t), c), Near(left, t), Kid(m[n], left), n, m)
    ensures Kid(m[n], left) == NULL <==> Near(left, t) == Leaf
  {
    PlugSep(c, t);
    hide IsTree, Seg, CNodes, Sep, CSep;
    TakeTree(left, Near(left, t), t.n, t.red, Far(left, t), n, p, m);
    MakeFrame(left, n, t.red, Far(left, t), c, top, NULL, Kid(m[n], left), m);
    Ends(Near(left, t), Kid(m[n], left), n, m);
  }

  // A node linked into an empty place.
  lemma LinkNode(top: Ptr, c: Ctx, p: Ptr, node: Ptr, m: Mem, m': Mem)
    requires At(top, c, Leaf, NULL, p, m) && c.Frame? && node != NULL && node !in Nodes(Plug(c, Leaf)) && node in m
    requires Touched(m, m', {p, node}) && p in m && m'[p] == SetKid(m[p], c.left, node)
    requires m'[node] == Cell(NULL, NULL, p, true)
    ensures At(top, c, Fork(Leaf, node, true, Leaf), node, p, m')
  {
    PlugSep(c, Leaf);
    TakeFrame(c.left, c.x, c.red, c.other, c.up, top, NULL, NULL, p, m);
    FrameTree(c.other, Kid(m[p], !c.left), p, m, m');
    FrameSeg(c.up, top, NULL, p, m[p].parent, m, m');
  }

  lemma AtRoot(t: Tree, top: Ptr, m: Mem)
    requires IsTree(t, top, NULL, m) && Sep(t)
    ensures At(top, Top, t, top, NULL, m) && Plug(Top, t) == t
  {
  }

  // Memory outside the tree may change.
  lemma Elsewhere(t: Tree, top: Ptr, m: Mem, m': Mem, node: Ptr)
    requires IsTree(t, top, NULL, m) && Sep(t) && node !in Nodes(t) && Touched(m, m', {node})
    ensures IsTree(t, top, NULL, m') && At(top, Top, t, top, NULL, m')
  {
    FrameTree(t, top, NULL, m, m');
  }

  // A new red node at an empty place is all there is to repair.
  lemma NewNode(c: Ctx, node: Ptr)
    requires RedBlack(Plug(c, Leaf))
    ensures RedSubtree(c, Fork(Leaf, node, true, Leaf), 0)
  {
    var h := UnplugRedBlack(c, Leaf);
  }

  lemma FirstNode(c: Ctx, node: Ptr, m: Mem)
    requires node != NULL && node in m && m[node] == Cell(NULL, NULL, NULL, true)
    ensures At(node, Top, Fork(Leaf, node, true, Leaf), node, NULL, m)
  {
  }

  lemma Linked(top: Ptr, c: Ctx, node: Ptr, p: Ptr, m: Mem)
    requires At(top, c, Fork(Leaf, node, true, Leaf), node, p, m)
    ensures node in m && m[node].parent == p
  {
  }
}
