/** The steps of an erasure: unlinking the node, then the repair of a subtree that is one black node short. */
module RbErase {
  import opened Basics
  import opened RbShape
  import opened RbSteps

  // The subtree t is black and one black node short of what its path expects.
  ghost predicate Short(c: Ctx, t: Tree, h: nat) {
    c.Frame? && !IsRed(t) && Bal(t, h) && CBal(c, h + 1)
  }

  // The subtree t fits its path.
  ghost predicate Fits(c: Ctx, t: Tree, h: nat) {
    Bal(t, h) && CBal(c, h) && (IsRed(t) ==> c != Top && !CRed(c))
  }

  // What the last erasure rotation works on: parent holds t, sib holds y (whose root still has parent q)
  // and leads to e, whose own parent word is free.
  ghost predicate Pieces4(left: bool, top: Ptr, up: Ctx, t: Tree, parent: Ptr, y: Tree, sib: Ptr, e: Tree, q: Ptr,
                          m: Mem) {
    && parent in m && sib in m && parent != sib && parent != NULL && sib != NULL
    && e.Fork? && e.n in m && Kid(m[sib], !left) == e.n && IsTree(e, e.n, m[e.n].parent, m)
    && Sep(t) && Sep(y) && Sep(e) && CSep(up)
    && Nodes(t) !! Nodes(y) && Nodes(t) !! Nodes(e) && Nodes(y) !! Nodes(e)
    && Nodes(t) !! CNodes(up) && Nodes(y) !! CNodes(up) && Nodes(e) !! CNodes(up)
    && parent !in Nodes(t) && parent !in Nodes(y) && parent !in Nodes(e) && parent !in CNodes(up)
    && sib !in Nodes(t) && sib !in Nodes(y) && sib !in Nodes(e) && sib !in CNodes(up)
    && Seg(up, top, NULL, parent, m[parent].parent, m)
    && IsTree(t, Kid(m[parent], left), parent, m) && IsTree(y, Kid(m[sib], left), q, m)
  }

  // Case 4: sib takes the place and colour of parent, both its children turn black.
  lemma Rotate4(left: bool, top: Ptr, up: Ctx, t: Tree, parent: Ptr, y: Tree, sib: Ptr, e: Tree, q: Ptr, m: Mem,
                m': Mem)
    requires Pieces4(left, top, up, t, parent, y, sib, e, q, m)
    requires Touched(m, m', {parent, sib, e.n} + Opt(Kid(m[sib], left)) + Opt(m[parent].parent))
    requires m'[parent] == SetKid(m[parent], !left, Kid(m[sib], left)).(parent := sib, red := false)
    requires m'[sib] == SetKid(m[sib], left, parent).(parent := m[parent].parent, red := m[parent].red)
    requires y.Fork? ==> Painted(m, m', Kid(m[sib], left), parent, y.red)
    requires Painted(m, m', e.n, sib, false)
    requires Swung(m, m', m[parent].parent, parent, sib)
    ensures At(if m[parent].parent == NULL then sib else top, up,
               Make(left, Make(left, t, parent, false, y), sib, m[parent].red, Blacken(e)), sib, m[parent].parent, m')
  {
    hide IsTree, Seg, Nodes, CNodes, Sep, CSep, Make, Agree;
    var gp := m[parent].parent;
    var w := {parent, sib, e.n} + Opt(Kid(m[sib], left)) + Opt(gp);
    Ends(y, Kid(m[sib], left), q, m);
    Ends(e, e.n, m[e.n].parent, m);
    CEnds(up, top, parent, gp, m);
    TreeOff(t, Kid(m[parent], left), parent, m, m', w);
    RerootOff(y, Kid(m[sib], left), q, parent, if y.Fork? then y.red else false, m, m', w);
    RerootOff(e, e.n, m[e.n].parent, sib, false, m, m', w);
    SameNodes(e, false);
    Rehang(up, top, NULL, parent, sib, gp, m, m');
    MakeTree(left, t, parent, false, y, sib, m');
    MakeTree(left, Make(left, t, parent, false, y), sib, m[parent].red, Blacken(e), gp, m');
  }

  lemma TakePieces4(left: bool, top: Ptr, c: Ctx, t: Tree, node: Ptr, parent: Ptr, m: Mem)
    requires At(top, c, t, node, parent, m) && c.Frame? && c.left == left && c.other.Fork? && Far(left, c.other).Fork?
    ensures parent == c.x && parent in m
    ensures Pieces4(left, top, c.up, t, parent, Near(left, c.other), c.other.n, Far(left, c.other), c.other.n, m)
    ensures Kid(m[parent], left) == node && Kid(m[parent], !left) == c.other.n && m[parent].red == c.red
  {
    hide IsTree, Seg, Nodes, CNodes, Sep, CSep;
    TakeFrame(c.left, c.x, c.red, c.other, c.up, top, NULL, node, parent, m);
    var s := c.other;
    TakeTree(left, Near(left, s), s.n, s.red, Far(left, s), Kid(m[parent], !left), parent, m);
    Ends(Far(left, s), Kid(m[s.n], !left), s.n, m);
  }

  // Case 3: the red near nephew n2 is rotated above the sibling, as a new sibling.
  lemma Rotate43(left: bool, top: Ptr, c: Ctx, t: Tree, node: Ptr, parent: Ptr, m: Mem, m': Mem)
    requires At(top, c, t, node, parent, m) && c.Frame? && c.left == left
    requires c.other.Fork? && !c.other.red && IsRed(Near(left, c.other)) && !IsRed(Far(left, Near(left, c.other)))
    requires var sib, n2 := c.other.n, Near(left, c.other).n;
             && parent in m && sib in m && n2 in m
             && Touched(m, m', {parent, sib, n2} + Opt(Kid(m[n2], !left)))
             && m'[sib] == SetKid(m[sib], left, Kid(m[n2], !left))
             && Painted(m, m', Kid(m[n2], !left), sib, false)
             && m'[n2] == SetKid(m[n2], !left, sib)
             && m'[parent] == SetKid(m[parent], !left, n2)
    ensures var s, n2 := c.other, Near(left, c.other);
            Pieces4(left, top, c.up, t, parent, Near(left, n2), n2.n,
                    Make(left, Far(left, n2), s.n, false, Far(left, s)), n2.n, m')
  {
    hide IsTree, Seg, Nodes, CNodes, Sep, CSep, Touched, Agree;
    var s := c.other;
    var nn, e := Near(left, s), Far(left, s);
    var n2, y, x := nn.n, Near(left, nn), Far(left, nn);
    TakeFrame(c.left, c.x, c.red, s, c.up, top, NULL, node, parent, m);
    TakeTree(left, nn, s.n, false, e, Kid(m[parent], !left), parent, m);
    TakeTree(left, y, n2, true, x, Kid(m[s.n], left), s.n, m);
    var w := {parent, s.n, n2} + Opt(Kid(m[n2], !left));
    CellOff(parent, m, m', w);
    CellOff(s.n, m, m', w);
    CellOff(n2, m, m', w);
    Ends(x, Kid(m[n2], !left), n2, m);
    TreeOff(t, node, parent, m, m', w);
    TreeOff(y, Kid(m[n2], left), n2, m, m', w);
    RerootOff(x, Kid(m[n2], !left), n2, s.n, false, m, m', w);
    TreeOff(e, Kid(m[s.n], !left), s.n, m, m', w);
    SegOff(c.up, top, NULL, parent, m[parent].parent, m, m', w);
    MakeTree(left, x, s.n, false, e, m'[s.n].parent, m');
  }

  // Case 1: a red sibling is rotated above the parent; the near nephew is the new, black sibling.
  lemma Rotate1(left: bool, top: Ptr, c: Ctx, t: Tree, node: Ptr, parent: Ptr, m: Mem, m': Mem)
    requires At(top, c, t, node, parent, m) && c.Frame? && c.left == left && IsRed(c.other) && !c.red
    requires Near(left, c.other).Fork? && !IsRed(Near(left, c.other))
    requires var sib, tmp := c.other.n, Near(left, c.other).n;
             && parent in m && sib in m && tmp in m
             && Touched(m, m', {parent, sib, tmp} + Opt(m[parent].parent))
             && m'[parent] == SetKid(m[parent], !left, tmp).(parent := sib, red := true)
             && m'[sib] == SetKid(m[sib], left, parent).(parent := m[parent].parent, red := false)
             && Painted(m, m', tmp, parent, false)
             && Swung(m, m', m[parent].parent, parent, sib)
    ensures At(if m[parent].parent == NULL then c.other.n else top, Turned(left, c), t, node, parent, m')
  {
    hide IsTree, Seg, Nodes, CNodes, Sep, CSep;
    var s, gp := c.other, m[parent].parent;
    var near, far := Near(left, s), Far(left, s);
    TakeFrame(c.left, c.x, c.red, s, c.up, top, NULL, node, parent, m);
    TakeTree(left, near, s.n, true, far, Kid(m[parent], !left), parent, m);
    Ends(near, Kid(m[s.n], left), s.n, m);
    CEnds(c.up, top, parent, gp, m);
    FrameTree(t, node, parent, m, m');
    FrameTree(far, Kid(m[s.n], !left), s.n, m, m');
    Reroot(near, near.n, s.n, parent, false, m, m');
    Rehang(c.up, top, NULL, parent, s.n, gp, m, m');
    var top' := if gp == NULL then s.n else top;
    MakeFrame(left, s.n, false, far, c.up, top', NULL, parent, m');
    MakeFrame(left, parent, true, near, Frame(left, s.n, false, far, c.up), top', NULL, node, m');
  }

  // The path after case 1.
  function Turned(left: bool, c: Ctx): Ctx requires c.Frame? && c.other.Fork? {
    Frame(left, c.x, true, Near(left, c.other), Frame(left, c.other.n, false, Far(left, c.other), c.up))
  }

  // The parent's subtree after case 2.
  function Demoted(c: Ctx, t: Tree): Tree requires c.Frame? && c.other.Fork? {
    Make(c.left, t, c.x, false, c.other.(red := true))
  }

  // Case 2: the sibling turns red and the parent black.
  lemma Recolor2(top: Ptr, c: Ctx, t: Tree, node: Ptr, parent: Ptr, m: Mem, m': Mem)
    requires At(top, c, t, node, parent, m) && c.Frame? && c.other.Fork?
    requires parent in m && Touched(m, m', {parent, c.other.n}) && Painted(m, m', c.other.n, parent, true)
    requires m'[parent] == m[parent].(red := false)
    ensures At(top, c.up, Demoted(c, t), parent, m[parent].parent, m')
  {
    hide IsTree, Seg, Nodes, CNodes, Sep, CSep, Make;
    TakeFrame(c.left, c.x, c.red, c.other, c.up, top, NULL, node, parent, m);
    Ends(c.other, Kid(m[parent], !c.left), parent, m);
    FrameTree(t, node, parent, m, m');
    Reroot(c.other, c.other.n, parent, parent, true, m, m');
    SameNodes(c.other, true);
    FrameSeg(c.up, top, NULL, parent, m[parent].parent, m, m');
    MakeTree(c.left, t, parent, false, c.other.(red := true), m[parent].parent, m');
  }

  // ---- balance ----

  // The sibling of a short subtree exists, and a red one has two black children.
  lemma Sibling(c: Ctx, t: Tree, h: nat)
    requires Short(c, t, h)
    ensures c.Frame? && c.other.Fork?
    ensures IsRed(c.other) ==> !c.red && c.other.l.Fork? && !c.other.l.red && c.other.r.Fork? && !c.other.r.red
  {
    if IsRed(c.other) {
      assert Bal(c.other.l, h + 1) && Bal(c.other.r, h + 1);
    }
  }

  lemma TurnedOk(c: Ctx, t: Tree, h: nat)
    requires Short(c, t, h) && IsRed(c.other)
    ensures Short(Turned(c.left, c), t, h) && !IsRed(Turned(c.left, c).other)
    ensures InOrder(Plug(Turned(c.left, c), t)) == InOrder(Plug(c, t))
    ensures Nodes(Plug(Turned(c.left, c), t)) == Nodes(Plug(c, t))
  {
    Sibling(c, t, h);
    var l, s := c.left, c.other;
    assert s == Make(l, Near(l, s), s.n, true, Far(l, s));
    Rotation(l, t, c.x, true, Near(l, s), s.n, false, Far(l, s), false, true);
    SamePlug(c.up, Make(l, Make(l, t, c.x, true, Near(l, s)), s.n, false, Far(l, s)), Make(l, t, c.x, false, s));
  }

  // Case 2 either fits (red parent, or parent at the root) or is short one level up.
  lemma Recolor2Ok(c: Ctx, t: Tree, h: nat)
    requires Short(c, t, h) && !IsRed(c.other) && !IsRed(c.other.l) && !IsRed(c.other.r)
    ensures var t' := Demoted(c, t);
            && (c.red || c.up == Top ==> Fits(c.up, t', h + 1))
            && (!c.red && c.up != Top ==> Short(c.up, t', h + 1))
            && InOrder(Plug(c.up, t')) == InOrder(Plug(c, t)) && Nodes(Plug(c.up, t')) == Nodes(Plug(c, t))
  {
    SameNodes(c.other, true);
    var t' := Make(c.left, t, c.x, false, c.other.(red := true));
    SameMake(c.left, t, t, c.x, false, c.red, c.other.(red := true), c.other);
    SamePlug(c.up, t', Make(c.left, t, c.x, c.red, c.other));
  }

  // The subtree after case 4, or after cases 3 and 4, fits.
  function Rotated4(left: bool, c: Ctx, t: Tree): Tree
    requires c.Frame? && c.other.Fork?
  {
    var s := c.other;
    Make(left, Make(left, t, c.x, false, Near(left, s)), s.n, c.red, Blacken(Far(left, s)))
  }

  function Rotated34(left: bool, c: Ctx, t: Tree): Tree
    requires c.Frame? && c.other.Fork? && Near(left, c.other).Fork?
  {
    var s := c.other;
    var n2 := Near(left, s);
    Make(left, Make(left, t, c.x, false, Near(left, n2)), n2.n, c.red,
         Make(left, Far(left, n2), s.n, false, Far(left, s)))
  }

  lemma Rotated4Ok(c: Ctx, t: Tree, h: nat)
    requires Short(c, t, h) && !IsRed(c.other) && IsRed(Far(c.left, c.other))
    ensures c.other.Fork? && Fits(c.up, Rotated4(c.left, c, t), if c.red then h + 1 else h + 2)
    ensures InOrder(Plug(c.up, Rotated4(c.left, c, t))) == InOrder(Plug(c, t))
    ensures Nodes(Plug(c.up, Rotated4(c.left, c, t))) == Nodes(Plug(c, t))
  {
    var l, s := c.left, c.other;
    var far := Far(l, s);
    assert Bal(Near(l, s), h) && Bal(far, h) && Bal(far.l, h) && Bal(far.r, h);
    assert Bal(Blacken(far), h + 1) && Bal(Make(l, t, c.x, false, Near(l, s)), h + 1);
    SameNodes(far, false);
    Rotation(l, t, c.x, false, Near(l, s), s.n, c.red, far, c.red, false);
    SameMake(l, Make(l, t, c.x, false, Near(l, s)), Make(l, t, c.x, false, Near(l, s)), s.n, c.red, c.red, far,
             Blacken(far));
    SamePlug(c.up, Rotated4(l, c, t), Make(l, t, c.x, c.red, s));
  }

  lemma Rotated34Ok(c: Ctx, t: Tree, h: nat)
    requires Short(c, t, h) && !IsRed(c.other) && !IsRed(Far(c.left, c.other)) && IsRed(Near(c.left, c.other))
    ensures c.other.Fork? && Fits(c.up, Rotated34(c.left, c, t), if c.red then h + 1 else h + 2)
    ensures InOrder(Plug(c.up, Rotated34(c.left, c, t))) == InOrder(Plug(c, t))
    ensures Nodes(Plug(c.up, Rotated34(c.left, c, t))) == Nodes(Plug(c, t))
  {
    var l, s := c.left, c.other;
    var n2 := Near(l, s);
    var y, x, far := Near(l, n2), Far(l, n2), Far(l, s);
    assert Bal(n2, h) && Bal(far, h);
    assert Bal(y, h) && Bal(x, h) && !IsRed(y) && !IsRed(x);
    assert Bal(Make(l, t, c.x, false, y), h + 1) && Bal(Make(l, x, s.n, false, far), h + 1);
    Rotation(l, y, n2.n, true, x, s.n, false, far, true, false);
    SameMake(l, t, t, c.x, c.red, c.red, s, Make(l, y, n2.n, true, Make(l, x, s.n, false, far)));
    Rotation(l, t, c.x, false, y, n2.n, c.red, Make(l, x, s.n, false, far), c.red, true);
    SamePlug(c.up, Rotated34(l, c, t), Make(l, t, c.x, c.red, s));
  }

  // The links that the repair reads around a short subtree.
  lemma Around(top: Ptr, c: Ctx, t: Tree, node: Ptr, parent: Ptr, m: Mem)
    requires At(top, c, t, node, parent, m) && c.Frame? && c.other.Fork?
    ensures parent == c.x && parent in m && parent != NULL && m[parent].red == c.red
    ensures Kid(m[parent], c.left) == node && Kid(m[parent], !c.left) == c.other.n && node != c.other.n
    ensures (c.left <==> node != m[parent].right)
    ensures m[parent].parent != NULL ==> m[parent].parent in m && m[parent].parent in CNodes(c.up)
    ensures m[parent].parent == NULL <==> c.up == Top
    ensures var s := c.other;
            && s.n in m && s.n != NULL && s.n != parent && m[s.n].red == s.red && s.n != m[parent].parent
            && m[s.n].parent == parent
            && LinkTo(m[s.n].left, s.l, s.n, parent, m) && LinkTo(m[s.n].right, s.r, s.n, parent, m)
            && m[parent].parent != parent
            && (s.l.Fork? ==> s.l.n != m[parent].parent) && (s.r.Fork? ==> s.r.n != m[parent].parent)
            && (s.l.Fork? && s.r.Fork? ==> s.l.n != s.r.n)
    ensures {parent, c.other.n} + Opt(m[parent].parent) <= Nodes(Plug(c, t))
    ensures forall x :: x in Nodes(c.other) ==> x in Nodes(Plug(c, t)) && x != parent
  {
    PlugSep(c, t);
    hide IsTree, Seg, CNodes, Sep, CSep;
    TakeFrame(c.left, c.x, c.red, c.other, c.up, top, NULL, node, parent, m);
    CEnds(c.up, top, parent, m[parent].parent, m);
    Ends(t, node, parent, m);
    var s := c.other;
    TakeTree(true, s.l, s.n, s.red, s.r, Kid(m[parent], !c.left), parent, m);
    Ends(s.l, m[s.n].left, s.n, m);
    Ends(s.r, m[s.n].right, s.n, m);
  }

  // The pointer q leads to the subtree k, which lies apart from s and parent.
  ghost predicate LinkTo(q: Ptr, k: Tree, s: Ptr, parent: Ptr, m: Mem) {
    && (q == NULL <==> k == Leaf)
    && (k.Fork? ==> q == k.n && q in m && m[q].red == k.red && q !in {s, parent})
  }

  // The links around a red near nephew.
  lemma Nephew(left: bool, top: Ptr, c: Ctx, t: Tree, node: Ptr, parent: Ptr, m: Mem)
    requires At(top, c, t, node, parent, m) && c.Frame? && c.left == left && c.other.Fork? && Near(left, c.other).Fork?
    ensures var n2, s := Near(left, c.other), c.other.n;
            && n2.n in m && n2.n != NULL && n2.n !in {s, parent} && n2.n in Nodes(Plug(c, t))
            && LinkTo(Kid(m[n2.n], !left), Far(left, n2), s, parent, m)
            && (Far(left, n2).Fork? ==> Far(left, n2).n != n2.n && Far(left, n2).n in Nodes(Plug(c, t)))
  {
    PlugSep(c, t);
    hide IsTree, Seg, CNodes, Sep, CSep;
    TakeFrame(c.left, c.x, c.red, c.other, c.up, top, NULL, node, parent, m);
    var s := c.other;
    var nn := Near(left, s);
    TakeTree(left, nn, s.n, s.red, Far(left, s), Kid(m[parent], !left), parent, m);
    TakeTree(left, Near(left, nn), nn.n, nn.red, Far(left, nn), Kid(m[s.n], left), s.n, m);
    Ends(Far(left, nn), Kid(m[nn.n], !left), nn.n, m);
  }

  // The nodes that the last rotations may write all belong to the tree.
  lemma EraseScope(c: Ctx, t: Tree, left: bool)
    requires c.Frame? && c.other.Fork?
    ensures var s := c.other; var w := Nodes(Plug(c, t));
            && {c.x, s.n} + CNodes(c.up) + Nodes(s.l) + Nodes(s.r) <= w
            && (Near(left, s).Fork? ==>
                  var n2 := Near(left, s);
                  {n2.n} + Nodes(n2.l) + Nodes(n2.r) + Nodes(Make(left, Far(left, n2), s.n, false, Far(left, s))) <= w)
  {
    PlugSep(c, t);
  }

  // With a black far nephew the near one is red, and its children are black.
  lemma RedNephew(c: Ctx, t: Tree, h: nat, left: bool)
    requires Short(c, t, h) && !IsRed(c.other) && !IsRed(Far(left, c.other)) && (IsRed(c.other.l) || IsRed(c.other.r))
    ensures IsRed(Near(left, c.other)) && !IsRed(Near(left, c.other).l) && !IsRed(Near(left, c.other).r)
  {
    assert Bal(Near(left, c.other), h);
  }

  // ---- unlinking ----

  // A node without a subtree on one side is replaced by its other subtree, which takes its colour.
  lemma SpliceOut(left: bool, top: Ptr, c: Ctx, node: Ptr, red: bool, k: Tree, p: Ptr, m: Mem, m': Mem)
    requires At(top, c, Make(left, Leaf, node, red, k), node, p, m) && node in m
    requires var q := Kid(m[node], !left);
             Touched(m, m', Opt(p) + Opt(q)) && Swung(m, m', p, node, q) && Painted(m, m', q, p, red)
    ensures At(if p == NULL then Kid(m[node], !left) else top, c, Repainted(k, red), Kid(m[node], !left), p, m')
  {
    var q := Kid(m[node], !left);
    SameNodes(k, red);
    hide IsTree, Seg, CNodes, Sep, CSep, Nodes;
    TakeTree(left, Leaf, node, red, k, node, p, m);
    Ends(k, q, node, m);
    CEnds(c, top, node, p, m);
    Reroot(k, q, node, p, red, m, m');
    Rehang(c, top, NULL, node, q, p, m, m');
  }

  function Repainted(t: Tree, red: bool): Tree { if t.Fork? then t.(red := red) else t }

  // What is left after the splice: a fitting subtree, or an empty one that is short.
  lemma SpliceOk(left: bool, c: Ctx, node: Ptr, red: bool, k: Tree) returns (h: nat)
    requires RedBlack(Plug(c, Make(left, Leaf, node, red, k)))
    ensures k.Fork? ==> !red && IsRed(k)
    ensures if k == Leaf && !red && c != Top then Short(c, Leaf, 0) else Fits(c, Repainted(k, red), h)
  {
    var h1 := UnplugRedBlack(c, Make(left, Leaf, node, red, k));
    h := if k == Leaf then 0 else h1;
    assert Bal(Leaf, if red then h1 else h1 - 1) && Bal(k, if red then h1 else h1 - 1);
    assert k.Fork? ==> Bal(k, 0);
  }

  // A path that only descends to the left.
  predicate Spine(c: Ctx) { c == Top || (c.left && Spine(c.up)) }

  lemma {:induction false} SpineBefore(c: Ctx)
    requires Spine(c)
    ensures Before(c) == []
  {
    if c.Frame? { SpineBefore(c.up); }
  }

  lemma {:induction false} AppendUnseg(below: Ctx, above: Ctx, top: Ptr, tp: Ptr, hole: Ptr, p: Ptr, m: Mem)
    requires above.Frame? && Seg(Append(below, above), top, tp, hole, p, m)
    ensures above.x in m && Seg(above, top, tp, Kid(m[above.x], above.left), above.x, m)
    ensures Seg(below, Kid(m[above.x], above.left), above.x, hole, p, m)
  {
    if below.Frame? {
      AppendUnseg(below.up, above, top, tp, below.x, m[below.x].parent, m);
    }
  }

  lemma {:induction false} AppendBal(below: Ctx, above: Ctx, above': Ctx, h: nat)
    requires CBal(Append(below, above), h) && above.Frame? && above'.Frame?
    requires above'.red == above.red && above'.other == above.other && above'.up == above.up
    ensures CBal(Append(below, above'), h)
  {
    if below.Frame? {
      AppendBal(below.up, above, above', if below.red then h else h + 1);
    }
  }

  // The path from the hole left by the successor: below it the spine, above it the successor in node's place.
  function Replaced(spine: Ctx, succ: Ptr, red: bool, l: Tree, c: Ctx): Ctx {
    Append(spine, Frame(false, succ, red, l, c))
  }

  lemma ReplacedInOrder(spine: Ctx, c: Ctx, l: Tree, x: Ptr, red: bool, t: Tree)
    requires Spine(spine)
    ensures InOrder(Plug(Replaced(spine, x, red, l, c), t))
            == Before(c) + (InOrder(l) + [x] + (InOrder(t) + After(spine))) + After(c)
  {
    SpineBefore(spine);
    AppendShape(spine, Frame(false, x, red, l, c), t);
    var u := Plug(spine, t);
    assert Plug(Frame(false, x, red, l, c), u) == Plug(c, Fork(l, x, red, u));
    assert InOrder(Fork(l, x, red, u)) == InOrder(l) + [x] + InOrder(u);
    PlugInOrder(spine, t);
    PlugInOrder(c, Fork(l, x, red, u));
    hide InOrder, Before, After, Plug, Nodes;
    assert [] + InOrder(t) == InOrder(t);
  }

  lemma Regroup(a: seq<Ptr>, b: seq<Ptr>, x: Ptr, c: seq<Ptr>, d: seq<Ptr>)
    ensures a + (b + [x] + c) + d == a + b + [x] + (c + d)
  {
  }

  // The in-order sequence loses just node.
  lemma SuccessorInOrder(spine: Ctx, c: Ctx, l: Tree, node: Ptr, red: bool, succ: Ptr, sred: bool, r2: Tree, t': Tree)
    requires Spine(spine) && InOrder(t') == InOrder(r2)
    ensures var a, b := Before(c) + InOrder(l), [succ] + InOrder(r2) + After(spine) + After(c);
            && InOrder(Plug(Replaced(spine, node, red, l, c), Fork(Leaf, succ, sred, r2))) == a + [node] + b
            && InOrder(Plug(Replaced(spine, succ, red, l, c), t')) == a + b
  {
    hide Before, After, Plug, Replaced, Spine, Nodes;
    ReplacedInOrder(spine, c, l, node, red, Fork(Leaf, succ, sred, r2));
    ReplacedInOrder(spine, c, l, succ, red, t');
    assert InOrder(Fork(Leaf, succ, sred, r2)) == [succ] + InOrder(r2);
    hide *;
    WithNode(Before(c), InOrder(l), node, succ, InOrder(r2), After(spine), After(c));
    WithoutNode(Before(c), InOrder(l), succ, InOrder(r2), After(spine), After(c));
  }

  lemma WithNode(a: seq<Ptr>, b: seq<Ptr>, x: Ptr, y: Ptr, c: seq<Ptr>, d: seq<Ptr>, e: seq<Ptr>)
    ensures a + (b + [x] + ([y] + c + d)) + e == a + b + [x] + ([y] + c + d + e)
  {
    Regroup(a, b, x, [y] + c + d, e);
  }

  lemma WithoutNode(a: seq<Ptr>, b: seq<Ptr>, y: Ptr, c: seq<Ptr>, d: seq<Ptr>, e: seq<Ptr>)
    ensures a + (b + [y] + (c + d)) + e == a + b + ([y] + c + d + e)
  {
    Regroup(a, b, y, c + d, e);
    SeqAssoc([y], c, d, e);
    SeqAssoc(a + b, [y], c + d, e);
  }

  // The spine after its lower end lost the successor and its upper end was hung below the successor.
  lemma SpineMoved(spine: Ctx, child: Ptr, node: Ptr, succ: Ptr, child2: Ptr, p2: Ptr, m: Mem, m': Mem)
    requires spine.Frame? && Spine(spine) && Seg(spine, child, node, succ, p2, m) && CSep(spine)
    requires succ != NULL && succ !in CNodes(spine) && p2 in m && child in m && m[child].parent == node
    requires Agree(m, m', CNodes(spine) - {p2, child}) && p2 in m' && child in m'
    requires m'[p2] == m[p2].(left := child2, parent := if p2 == child then succ else m[p2].parent)
    requires m'[child] == m[child].(left := if p2 == child then child2 else m[child].left, parent := succ)
    ensures Seg(spine, child, succ, child2, p2, m')
  {
    TopIn(spine, child, node, succ, p2, m);
    var m1 := m'[child := m'[child].(parent := node)];
    assert m[p2].left == succ;
    hide IsTree, Seg, CNodes, Sep, CSep;
    Rehang(spine, child, node, succ, child2, p2, m, m1);
    Retop(spine, child, node, succ, child2, p2, m1, m');
  }

  // Above the hole the successor has taken node's place, colour and left subtree.
  lemma ReplaceFrame(top: Ptr, c: Ctx, l: Tree, node: Ptr, red: bool, succ: Ptr, m: Mem, m': Mem)
    requires l.Fork? && node in m
    requires Seg(Frame(false, node, red, l, c), top, NULL, m[node].right, node, m)
    requires CSep(Frame(false, node, red, l, c))
    requires succ != NULL && succ in m' && succ !in Nodes(l) && succ !in CNodes(c)
    requires m'[succ].left == m[node].left && m'[succ].parent == m[node].parent && m'[succ].red == red
    requires Painted(m, m', l.n, succ, l.red) && Swung(m, m', m[node].parent, node, succ)
    requires Agree(m, m', Nodes(l) - {l.n}) && Agree(m, m', CNodes(c) - Opt(m[node].parent))
    ensures Seg(Frame(false, succ, red, l, c), if m[node].parent == NULL then succ
                else top, NULL, m'[succ].right, succ, m')
    ensures CSep(Frame(false, succ, red, l, c))
    ensures CNodes(Frame(false, succ, red, l, c)) == CNodes(c) + {succ} + Nodes(l)
  {
    hide IsTree, Seg, CNodes, Sep, CSep, Nodes;
    TakeFrame(false, node, red, l, c, top, NULL, m[node].right, node, m);
    Ends(l, m[node].left, node, m);
    CEnds(c, top, node, m[node].parent, m);
    Reroot(l, l.n, node, succ, l.red, m, m');
    Rehang(c, top, NULL, node, succ, m[node].parent, m, m');
    MakeFrame(false, succ, red, l, c, if m[node].parent == NULL then succ else top, NULL, m'[succ].right, m');
  }

  // What the relinking writes, child being node's right child and p2 the parent of the hole.
  ghost predicate Relinked(far: bool, l: Tree, node: Ptr, succ: Ptr, p2: Ptr, m: Mem, m': Mem)
    requires node in m && succ in m && l.Fork?
  {
    var child, child2, p := m[node].right, m[succ].right, m[node].parent;
    && Touched(m, m', {succ, l.n} + Opt(child2) + Opt(p) + (if far then {p2, child} else {}))
    && succ in m' && m'[succ] == Cell(m[node].left, if far then child else child2, p, m[node].red)
    && Painted(m, m', l.n, succ, l.red)
    && Painted(m, m', child2, p2, false)
    && Swung(m, m', p, node, succ)
    && (far ==> p2 in m && child in m && p2 in m' && child in m')
    && (far ==> m'[p2] == m[p2].(left := child2, parent := if p2 == child then succ else m[p2].parent))
    && (far ==> m'[child] == m[child].(left := if p2 == child then child2 else m[child].left, parent := succ))
  }

  // The successor is the right child of node.
  lemma ReplaceNear(top: Ptr, c: Ctx, l: Tree, node: Ptr, red: bool, succ: Ptr, sred: bool, r2: Tree, m: Mem, m': Mem)
    requires l.Fork? && node in m && succ in m
    requires At(top, Frame(false, node, red, l, c), Fork(Leaf, succ, sred, r2), succ, node, m)
    requires Relinked(false, l, node, succ, succ, m, m')
    ensures At(if m[node].parent == NULL then succ
               else top, Frame(false, succ, red, l, c), Blacken(r2), m[succ].right, succ, m')
  {
    SameNodes(r2, false);
    hide IsTree, Seg, CNodes, Sep, CSep, Nodes;
    TakeFrame(false, node, red, l, c, top, NULL, succ, node, m);
    TakeTree(true, Leaf, succ, sred, r2, succ, node, m);
    Ends(l, m[node].left, node, m);
    Ends(r2, m[succ].right, succ, m);
    CEnds(c, top, node, m[node].parent, m);
    ReplaceFrame(top, c, l, node, red, succ, m, m');
    Reroot(r2, m[succ].right, succ, succ, false, m, m');
  }

  // The parts around a successor further down the spine, all apart from each other.
  ghost predicate FarPieces(top: Ptr, spine: Ctx, c: Ctx, l: Tree, node: Ptr, red: bool, succ: Ptr, r2: Tree, p2: Ptr,
                            m: Mem)
    requires node in m && succ in m
  {
    && Seg(Frame(false, node, red, l, c), top, NULL, m[node].right, node, m) && CSep(Frame(false, node, red, l, c))
    && Seg(spine, m[node].right, node, succ, p2, m) && CSep(spine)
    && IsTree(r2, m[succ].right, succ, m) && Sep(r2)
    && CNodes(spine) !! CNodes(c) && CNodes(spine) !! Nodes(l) && node !in CNodes(spine) && m[node].red == red
    && node != NULL && succ != NULL && succ != node && succ !in CNodes(spine) && succ !in CNodes(c) && succ !in Nodes(l)
    && succ !in Nodes(r2)
    && Nodes(r2) !! CNodes(spine) && Nodes(r2) !! CNodes(c) && Nodes(r2) !! Nodes(l) && node !in Nodes(r2)
    && Nodes(l) !! CNodes(c) && node !in Nodes(l) && node !in CNodes(c)
  }

  lemma TakeFar(top: Ptr, spine: Ctx, c: Ctx, l: Tree, node: Ptr, red: bool, succ: Ptr, sred: bool, r2: Tree, p2: Ptr,
                m: Mem)
    requires node in m && succ in m
    requires At(top, Replaced(spine, node, red, l, c), Fork(Leaf, succ, sred, r2), succ, p2, m)
    ensures FarPieces(top, spine, c, l, node, red, succ, r2, p2, m)
  {
    var base := Frame(false, node, red, l, c);
    hide IsTree, Seg, CNodes, Sep, CSep, Nodes, Append;
    AppendUnseg(spine, base, top, NULL, succ, p2, m);
    AppendShape(spine, base, Leaf);
    TakeFrame(false, node, red, l, c, top, NULL, m[node].right, node, m);
    TakeTree(true, Leaf, succ, sred, r2, succ, p2, m);
  }

  // The nodes that the relinking writes, piece by piece.
  lemma FarEnds(top: Ptr, spine: Ctx, c: Ctx, l: Tree, node: Ptr, red: bool, succ: Ptr, r2: Tree, p2: Ptr, m: Mem)
    requires l.Fork? && node in m && succ in m && spine.Frame? && Spine(spine)
    requires FarPieces(top, spine, c, l, node, red, succ, r2, p2, m)
    ensures var child, child2, p := m[node].right, m[succ].right, m[node].parent;
            && child in CNodes(spine) && p2 in CNodes(spine) && p2 in m && child in m && m[child].parent == node
            && l.n in Nodes(l) && m[node].left == l.n && l.n in m && m[l.n].red == l.red
            && (child2 != NULL ==> child2 in Nodes(r2) && child2 in m)
            && (p != NULL ==> p in CNodes(c) && p in m) && (p == NULL <==> c == Top)
            && m[p2].left == succ
    ensures r2.Fork? <==> m[succ].right != NULL
    ensures r2.Fork? ==> r2.n == m[succ].right
  {
    hide IsTree, CNodes, Sep, CSep, Nodes, Append;
    var child := m[node].right;
    TakeFrame(false, node, red, l, c, top, NULL, child, node, m);
    TopIn(spine, child, node, succ, p2, m);
    Ends(l, m[node].left, node, m);
    Ends(r2, m[succ].right, succ, m);
    CEnds(c, top, node, m[node].parent, m);
    SpineTop(spine, child, node, succ, p2, m);
  }

  lemma FarMoved(top: Ptr, spine: Ctx, c: Ctx, l: Tree, node: Ptr, red: bool, succ: Ptr, r2: Tree, p2: Ptr, m: Mem,
                 m': Mem)
    requires l.Fork? && node in m && succ in m && spine.Frame? && Spine(spine)
    requires FarPieces(top, spine, c, l, node, red, succ, r2, p2, m)
    requires Relinked(true, l, node, succ, p2, m, m')
    ensures Seg(spine, m[node].right, succ, m[succ].right, p2, m')
    ensures IsTree(Blacken(r2), m[succ].right, p2, m')
  {
    hide IsTree, Seg, CNodes, Sep, CSep, Nodes, Append;
    FarEnds(top, spine, c, l, node, red, succ, r2, p2, m);
    SpineMoved(spine, m[node].right, node, succ, m[succ].right, p2, m, m');
    Reroot(r2, m[succ].right, succ, p2, false, m, m');
  }

  // The successor is further down the spine.
  lemma ReplaceFar(top: Ptr, spine: Ctx, c: Ctx, l: Tree, node: Ptr, red: bool, succ: Ptr, r2: Tree, p2: Ptr, m: Mem,
                   m': Mem)
    requires l.Fork? && node in m && succ in m && spine.Frame? && Spine(spine)
    requires FarPieces(top, spine, c, l, node, red, succ, r2, p2, m)
    requires Relinked(true, l, node, succ, p2, m, m')
    ensures At(if m[node].parent == NULL then succ
               else top, Replaced(spine, succ, red, l, c), Blacken(r2), m[succ].right, p2, m')
  {
    SameNodes(r2, false);
    var base' := Frame(false, succ, red, l, c);
    var top' := if m[node].parent == NULL then succ else top;
    hide IsTree, Seg, CNodes, Sep, CSep, Nodes, Append;
    FarEnds(top, spine, c, l, node, red, succ, r2, p2, m);
    ReplaceFrame(top, c, l, node, red, succ, m, m');
    FarMoved(top, spine, c, l, node, red, succ, r2, p2, m, m');
    AppendSeg(spine, base', top', NULL, m[node].right, succ, m[succ].right, p2, m');
    AppendShape(spine, base', Leaf);
  }

  lemma {:induction false} SpineTop(spine: Ctx, child: Ptr, node: Ptr, hole: Ptr, p: Ptr, m: Mem)
    requires spine.Frame? && Seg(spine, child, node, hole, p, m)
    ensures child in m && child != NULL && m[child].parent == node
  {
    if spine.up.Frame? {
      SpineTop(spine.up, child, node, spine.x, m[spine.x].parent, m);
    }
  }

  // The sequence s has one element more than s'.
  ghost predicate Removed(s: seq<Ptr>, s': seq<Ptr>, x: Ptr) {
    exists k :: 0 <= k <= |s'| && s == s'[..k] + [x] + s'[k..]
  }

  lemma RemovedAt(a: seq<Ptr>, x: Ptr, b: seq<Ptr>)
    ensures Removed(a + [x] + b, a + b, x)
  {
    assert (a + b)[..|a|] == a && (a + b)[|a|..] == b;
  }

  lemma {:induction false} NoDuplicates(t: Tree, i: nat, j: nat)
    requires Sep(t) && i < j < |InOrder(t)|
    ensures InOrder(t)[i] != InOrder(t)[j]
  {
    var l, r := InOrder(t.l), InOrder(t.r);
    InOrderNodes(t.l);
    InOrderNodes(t.r);
    if j < |l| {
      NoDuplicates(t.l, i, j);
    } else if i > |l| {
      NoDuplicates(t.r, i - |l| - 1, j - |l| - 1);
    } else if i < |l| {
      assert InOrder(t)[i] in l;
      assert j > |l| ==> InOrder(t)[j] in r;
    } else {
      assert InOrder(t)[j] in r;
    }
  }

  lemma RemovedElements(s: seq<Ptr>, s': seq<Ptr>, x: Ptr, k: nat)
    requires k <= |s'| && s == s'[..k] + [x] + s'[k..]
    requires Distinct(s)
    ensures x in s && forall y :: y in s' <==> y in s && y != x
  {
    assert s[k] == x;
    assert forall i :: 0 <= i < |s'| ==> s'[i] == s[if i < k then i else i + 1];
    forall y | y in s && y != x ensures y in s' {
      var i :| 0 <= i < |s| && s[i] == y;
      assert y == s'[if i < k then i else i - 1];
    }
  }

  // Taking one element out of the in-order sequence takes one node out of the tree.
  lemma RemovedNodes(t: Tree, t': Tree, x: Ptr)
    requires Sep(t) && Removed(InOrder(t), InOrder(t'), x)
    ensures Nodes(t') == Nodes(t) - {x} && x in Nodes(t)
  {
    hide InOrder, Nodes, Sep;
    InOrderNodes(t);
    InOrderNodes(t');
    forall i, j | 0 <= i < j < |InOrder(t)| ensures InOrder(t)[i] != InOrder(t)[j] {
      NoDuplicates(t, i, j);
    }
    var k :| 0 <= k <= |InOrder(t')| && InOrder(t) == InOrder(t')[..k] + [x] + InOrder(t')[k..];
    RemovedElements(InOrder(t), InOrder(t'), x, k);
    forall y ensures y in Nodes(t') <==> y in Nodes(t) - {x} {
      assert y in InOrder(t') <==> y in InOrder(t) && y != x;
    }
  }

  lemma SpliceInOrder(left: bool, c: Ctx, node: Ptr, red: bool, k: Tree)
    ensures Removed(InOrder(Plug(c, Make(left, Leaf, node, red, k))), InOrder(Plug(c, Repainted(k, red))), node)
  {
    var t, k' := Make(left, Leaf, node, red, k), Repainted(k, red);
    MakeInOrder(left, node, red, k);
    hide InOrder, Before, After, Plug, Make, Repainted, Removed;
    PlugInOrder(c, t);
    PlugInOrder(c, k');
    SpliceRemoved(left, Before(c), node, InOrder(k), After(c));
  }

  lemma MakeInOrder(left: bool, node: Ptr, red: bool, k: Tree)
    ensures InOrder(Repainted(k, red)) == InOrder(k)
    ensures InOrder(Make(left, Leaf, node, red, k)) == if left then [node] + InOrder(k) else InOrder(k) + [node]
  {
    assert InOrder(Leaf) == [];
  }

  lemma SpliceRemoved(left: bool, b: seq<Ptr>, x: Ptr, i: seq<Ptr>, a: seq<Ptr>)
    ensures Removed(b + (if left then [x] + i else i + [x]) + a, b + i + a, x)
  {
    if left {
      RemovedAt(b, x, i + a);
      assert b + ([x] + i) + a == b + [x] + (i + a) && b + i + a == b + (i + a);
    } else {
      RemovedAt(b + i, x, a);
      assert b + (i + [x]) + a == b + i + [x] + a;
    }
  }

  lemma ReplaceInOrder(spine: Ctx, c: Ctx, l: Tree, node: Ptr, red: bool, succ: Ptr, sred: bool, r2: Tree)
    requires Spine(spine)
    ensures Removed(InOrder(Plug(Replaced(spine, node, red, l, c), Fork(Leaf, succ, sred, r2))),
                    InOrder(Plug(Replaced(spine, succ, red, l, c), Blacken(r2))), node)
  {
    SameNodes(r2, false);
    SuccessorInOrder(spine, c, l, node, red, succ, sred, r2, Blacken(r2));
    RemovedAt(Before(c) + InOrder(l), node, [succ] + InOrder(r2) + After(spine) + After(c));
  }

  // The successor's own colour tells whether its place is now short.
  lemma ReplaceOk(spine: Ctx, c: Ctx, l: Tree, node: Ptr, red: bool, succ: Ptr, sred: bool, r2: Tree) returns (h: nat)
    requires RedBlack(Plug(Replaced(spine, node, red, l, c), Fork(Leaf, succ, sred, r2)))
    ensures var c' := Replaced(spine, succ, red, l, c);
            if r2 == Leaf && !sred then Short(c', Leaf, 0) else Fits(c', Blacken(r2), h)
  {
    var above, above' := Frame(false, node, red, l, c), Frame(false, succ, red, l, c);
    h := SpliceOk(true, Append(spine, above), succ, sred, r2);
    assert Append(spine, above).Frame? && Append(spine, above').Frame?;
    SameTops(spine, above, above');
    if r2 == Leaf && !sred {
      AppendBal(spine, above, above', 1);
    } else {
      AppendBal(spine, above, above', h);
    }
  }

  lemma SameTops(spine: Ctx, above: Ctx, above': Ctx)
    requires above.Frame? && above'.Frame? && above.red == above'.red
    ensures CRed(Append(spine, above)) == CRed(Append(spine, above'))
  {
  }

  // The links around a node that lacks a subtree on the given side.
  lemma OneChild(left: bool, top: Ptr, c: Ctx, t: Tree, node: Ptr, p: Ptr, m: Mem)
    requires At(top, c, t, node, p, m) && t.Fork? && node in m && Kid(m[node], left) == NULL
    ensures node == t.n && t == Make(left, Leaf, node, t.red, Far(left, t)) && m[node].red == t.red
    ensures m[node].parent == p
    ensures var q := Kid(m[node], !left);
            && (q == NULL <==> Far(left, t) == Leaf)
            && (q != NULL ==> q in m && q != p && q in Nodes(Plug(c, t)))
    ensures (p == NULL <==> c == Top) && (p != NULL ==> p in m && p in Nodes(Plug(c, t)))
  {
    PlugSep(c, t);
    TakeTree(left, Near(left, t), t.n, t.red, Far(left, t), node, p, m);
    Ends(Near(left, t), Kid(m[node], left), node, m);
    Ends(Far(left, t), Kid(m[node], !left), node, m);
    CEnds(c, top, node, p, m);
  }

  // The cells that the relinking writes are different ones.
  ghost predicate RelinkApart(far: bool, l: Tree, node: Ptr, succ: Ptr, p2: Ptr, m: Mem) {
    && l.Fork? && node in m && succ in m && l.n in m && l.n == m[node].left && l.red == m[l.n].red
    && var child, child2, p := m[node].right, m[succ].right, m[node].parent;
    && node != succ && l.n !in {node, succ} && l.n != NULL && succ != NULL && node != NULL
    && (child2 != NULL ==> child2 in m && child2 !in {node, succ, l.n})
    && (p != NULL ==> p in m && p !in {node, succ, l.n} && p != child2)
    && (far ==> child in m && p2 in m && child != NULL && p2 != NULL)
    && (far ==> child !in {node, succ, l.n, child2, p} && p2 !in {node, succ, l.n, child2, p})
    && (!far ==> child == succ && p2 == succ)
  }

  lemma NearApart(top: Ptr, c: Ctx, l: Tree, node: Ptr, red: bool, succ: Ptr, sred: bool, r2: Tree, m: Mem)
    requires l.Fork? && node in m && succ in m
    requires At(top, Frame(false, node, red, l, c), Fork(Leaf, succ, sred, r2), succ, node, m)
    ensures RelinkApart(false, l, node, succ, succ, m) && succ != NULL && m[node].red == red && m[succ].red == sred
    ensures m[succ].right == NULL <==> r2 == Leaf
  {
    hide IsTree, Seg, CNodes, Sep, CSep, Nodes;
    TakeFrame(false, node, red, l, c, top, NULL, succ, node, m);
    TakeTree(true, Leaf, succ, sred, r2, succ, node, m);
    Ends(l, m[node].left, node, m);
    Ends(r2, m[succ].right, succ, m);
    CEnds(c, top, node, m[node].parent, m);
    Within(c, node, red, l, succ, sred, r2);
  }

  lemma Within(c: Ctx, node: Ptr, red: bool, l: Tree, succ: Ptr, sred: bool, r2: Tree)
    ensures CNodes(Frame(false, node, red, l, c)) == CNodes(c) + {node} + Nodes(l)
    ensures Nodes(Fork(Leaf, succ, sred, r2)) == {succ} + Nodes(r2)
  {
  }

  lemma FarApart(top: Ptr, spine: Ctx, c: Ctx, l: Tree, node: Ptr, red: bool, succ: Ptr, r2: Tree, p2: Ptr, m: Mem)
    requires l.Fork? && node in m && succ in m && spine.Frame? && Spine(spine)
    requires FarPieces(top, spine, c, l, node, red, succ, r2, p2, m)
    ensures RelinkApart(true, l, node, succ, p2, m) && p2 != NULL
  {
    hide IsTree, Seg, CNodes, Sep, CSep, Nodes;
    TakeFrame(false, node, red, l, c, top, NULL, m[node].right, node, m);
    FarEnds(top, spine, c, l, node, red, succ, r2, p2, m);
    NotNull(spine, m[node].right, node, succ, p2, m);
    Ends(l, m[node].left, node, m);
  }

  lemma NotNull(spine: Ctx, child: Ptr, node: Ptr, hole: Ptr, p: Ptr, m: Mem)
    requires spine.Frame? && Seg(spine, child, node, hole, p, m)
    ensures p != NULL && child != NULL
  {
    SpineTop(spine, child, node, hole, p, m);
  }

  lemma TwoChildren(top: Ptr, c: Ctx, t: Tree, node: Ptr, p: Ptr, m: Mem)
    requires At(top, c, t, node, p, m) && t.Fork? && node in m && m[node].left != NULL && m[node].right != NULL
    ensures node == t.n && t.l.Fork? && t.r.Fork? && t.r.n == m[node].right && t.r.n in m && m[node].red == t.red
    ensures At(top, Frame(false, node, t.red, t.l, c), t.r, m[node].right, node, m)
    ensures Plug(Frame(false, node, t.red, t.l, c), t.r) == Plug(c, t)
  {
    StepDown(false, top, c, t, node, p, m);
    TakeTree(true, t.l, t.n, t.red, t.r, node, p, m);
    Ends(t.l, m[node].left, node, m);
    Ends(t.r, m[node].right, node, m);
  }

  lemma SpineStart(node: Ptr, red: bool, l: Tree, c: Ctx)
    ensures Spine(Top) && Replaced(Top, node, red, l, c) == Frame(false, node, red, l, c)
  {
  }

  // One step of the walk to the successor.
  lemma SpineStep(top: Ptr, spine: Ctx, node: Ptr, red: bool, l: Tree, c: Ctx, cur: Tree, succ: Ptr, p: Ptr, m: Mem)
    requires Spine(spine) && At(top, Replaced(spine, node, red, l, c), cur, succ, p, m) && cur.Fork? && succ in m
    requires m[succ].left != NULL
    ensures var spine' := Frame(true, succ, cur.red, cur.r, spine);
            && Spine(spine') && At(top, Replaced(spine', node, red, l, c), cur.l, m[succ].left, succ, m)
            && Plug(Replaced(spine', node, red, l, c), cur.l) == Plug(Replaced(spine, node, red, l, c), cur)
    ensures cur.l.Fork? && cur.l.n == m[succ].left && cur.l.n in m
  {
    StepDown(true, top, Replaced(spine, node, red, l, c), cur, succ, p, m);
    Ends(cur.l, m[succ].left, succ, m);
  }

  // The walk stops at a node without a left subtree.
  lemma SpineEnd(top: Ptr, c: Ctx, cur: Tree, succ: Ptr, p: Ptr, m: Mem)
    requires At(top, c, cur, succ, p, m) && cur.Fork? && succ in m && m[succ].left == NULL
    ensures cur == Fork(Leaf, succ, cur.red, cur.r) && m[succ].red == cur.red
    ensures m[succ].right == NULL <==> cur.r == Leaf
  {
    OneChild(true, top, c, cur, succ, p, m);
  }

  // The relinking writes only nodes of the tree.
  lemma RelinkScope(top: Ptr, spine: Ctx, c: Ctx, l: Tree, node: Ptr, red: bool, succ: Ptr, sred: bool, r2: Tree,
                    p2: Ptr, m: Mem, m': Mem)
    requires l.Fork? && node in m && succ in m && Spine(spine)
    requires exists sp :: At(top, Replaced(spine, node, red, l, c), Fork(Leaf, succ, sred, r2), succ, sp, m)
                          && (spine.Frame? ==> sp == p2)
    requires Relinked(spine.Frame?, l, node, succ, p2, m, m')
    ensures Touched(m, m', Nodes(Plug(Replaced(spine, node, red, l, c), Fork(Leaf, succ, sred, r2))))
  {
    var sp :| At(top, Replaced(spine, node, red, l, c), Fork(Leaf, succ, sred, r2), succ, sp, m)
      && (spine.Frame? ==> sp == p2);
    PlugSep(Replaced(spine, node, red, l, c), Fork(Leaf, succ, sred, r2));
    AppendShape(spine, Frame(false, node, red, l, c), Leaf);
    Within(c, node, red, l, succ, sred, r2);
    hide IsTree, Seg, CNodes, Sep, CSep, Nodes, Append;
    TakeFar(top, spine, c, l, node, red, succ, sred, r2, sp, m);
    if spine.Frame? {
      FarEnds(top, spine, c, l, node, red, succ, r2, p2, m);
    } else {
      TakeFrame(false, node, red, l, c, top, NULL, m[node].right, node, m);
      Ends(l, m[node].left, node, m);
      Ends(r2, m[succ].right, succ, m);
      CEnds(c, top, node, m[node].parent, m);
    }
  }

  // Every node of the tree is the root of the subtree at some path.
  lemma {:induction false} Locate(top: Ptr, c: Ctx, t: Tree, n: Ptr, p: Ptr, m: Mem, node: Ptr) returns (c': Ctx,
                                  t': Tree, p': Ptr)
    requires At(top, c, t, n, p, m) && node in Nodes(t)
    ensures t'.Fork? && t'.n == node && At(top, c', t', node, p', m) && Plug(c', t') == Plug(c, t)
    ensures node in m && m[node].parent == p'
    decreases t
  {
    if t.n == node {
      c', t', p' := c, t, p;
      Ends(t, n, p, m);
    } else {
      var left := node in Nodes(t.l);
      StepDown(left, top, c, t, n, p, m);
      c', t', p' := Locate(top, Frame(left, n, t.red, Far(left, t), c), Near(left, t), Kid(m[n], left), n, m, node);
    }
  }
}
