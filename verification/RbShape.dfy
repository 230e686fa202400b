/** Red-black trees as shapes: the node memory, the tree it holds, and the path (context) above
    the node on which a rebalancing loop is working. */
module RbShape {
  import opened Basics

  // The parent/colour word is kept as its two parts.
  datatype Cell = Cell(left: Ptr, right: Ptr, parent: Ptr, red: bool)
  type Mem = map<Ptr, Cell>

  datatype Tree = Leaf | Fork(l: Tree, n: Ptr, red: bool, r: Tree)

  // The part of a tree outside one of its subtrees: at each level the node x, its other subtree,
  // and whether the hole is its left child.
  datatype Ctx = Top | Frame(left: bool, x: Ptr, red: bool, other: Tree, up: Ctx)

  function Kid(c: Cell, left: bool): Ptr { if left then c.left else c.right }

  function SetKid(c: Cell, left: bool, q: Ptr): Cell {
    if left then c.(left := q) else c.(right := q)
  }

  // The tree with near on the given side of x and far on the other side.
  function Make(left: bool, near: Tree, x: Ptr, red: bool, far: Tree): Tree {
    if left then Fork(near, x, red, far) else Fork(far, x, red, near)
  }

  function Blacken(t: Tree): Tree { if t.Fork? then t.(red := false) else t }

  predicate IsRed(t: Tree) { t.Fork? && t.red }
  predicate CRed(c: Ctx) { c != Top && c.red }

  ghost function Nodes(t: Tree): set<Ptr> {
    match t
    case Leaf => {}
    case Fork(l, x, _, r) => Nodes(l) + {x} + Nodes(r)
  }

  ghost function CNodes(c: Ctx): set<Ptr> {
    match c
    case Top => {}
    case Frame(_, x, _, other, up) => CNodes(up) + {x} + Nodes(other)
  }

  function InOrder(t: Tree): seq<Ptr> {
    match t
    case Leaf => []
    case Fork(l, x, _, r) => InOrder(l) + [x] + InOrder(r)
  }

  function Before(c: Ctx): seq<Ptr> {
    match c
    case Top => []
    case Frame(left, x, _, other, up) => if left then Before(up) else Before(up) + (InOrder(other) + [x])
  }

  function After(c: Ctx): seq<Ptr> {
    match c
    case Top => []
    case Frame(left, x, _, other, up) => if left then ([x] + InOrder(other)) + After(up) else After(up)
  }

  function Plug(c: Ctx, t: Tree): Tree {
    match c
    case Top => t
    case Frame(left, x, red, other, up) => Plug(up, Make(left, t, x, red, other))
  }

  // The path below, continued by the path above.
  function Append(below: Ctx, above: Ctx): Ctx {
    match below
    case Top => above
    case Frame(left, x, red, other, up) => Frame(left, x, red, other, Append(up, above))
  }

  // No node occurs twice.
  ghost predicate Sep(t: Tree) {
    match t
    case Leaf => true
    case Fork(l, x, _, r) =>
      Sep(l) && Sep(r) && x !in Nodes(l) && x !in Nodes(r) && Nodes(l) !! Nodes(r)
  }

  ghost predicate CSep(c: Ctx) {
    match c
    case Top => true
    case Frame(_, x, _, other, up) =>
      CSep(up) && Sep(other) && x !in CNodes(up) && x !in Nodes(other) && Nodes(other) !! CNodes(up)
  }

  // Memory m holds tree t at pointer n, its root having parent p: child and parent links agree.
  ghost predicate IsTree(t: Tree, n: Ptr, p: Ptr, m: Mem) {
    match t
    case Leaf => n == NULL
    case Fork(l, x, red, r) =>
      n == x && x != NULL && x in m && m[x].parent == p && m[x].red == red
      && IsTree(l, m[x].left, x, m) && IsTree(r, m[x].right, x, m)
  }

  // Memory m holds the path from the link hole, whose parent is p, up to the link top, whose parent is tp.
  ghost predicate Seg(c: Ctx, top: Ptr, tp: Ptr, hole: Ptr, p: Ptr, m: Mem) {
    match c
    case Top => hole == top && p == tp
    case Frame(left, x, red, other, up) =>
      p == x && x != NULL && x in m && Kid(m[x], left) == hole && m[x].red == red
      && IsTree(other, Kid(m[x], !left), x, m) && Seg(up, top, tp, x, m[x].parent, m)
  }

  // Memory m holds tree t at pointer n, below p, on the path c from the root link top.
  ghost predicate At(top: Ptr, c: Ctx, t: Tree, n: Ptr, p: Ptr, m: Mem) {
    Seg(c, top, NULL, n, p, m) && IsTree(t, n, p, m) && Sep(t) && CSep(c) && Nodes(t) !! CNodes(c)
  }

  // Every path has h black nodes, and no red node has a red child.
  ghost predicate Bal(t: Tree, h: nat) {
    match t
    case Leaf => h == 0
    case Fork(l, _, red, r) =>
      if red then !IsRed(l) && !IsRed(r) && Bal(l, h) && Bal(r, h)
      else h > 0 && Bal(l, h - 1) && Bal(r, h - 1)
  }

  // A path that becomes a red-black tree when its hole is filled with a subtree of black height h.
  ghost predicate CBal(c: Ctx, h: nat) {
    match c
    case Top => true
    case Frame(_, _, red, other, up) =>
      Bal(other, h) && if red then !IsRed(other) && up != Top && !CRed(up) && CBal(up, h) else CBal(up, h + 1)
  }

  ghost predicate RedBlack(t: Tree) {
    !IsRed(t) && exists h: nat :: Bal(t, h)
  }

  // ---- memory changes ----

  function Opt(n: Ptr): set<Ptr> { if n == NULL then {} else {n} }

  ghost predicate Agree(m: Mem, m': Mem, s: set<Ptr>) {
    forall x :: x in s && x in m ==> x in m' && m'[x] == m[x]
  }

  // Memory m' differs from m at most on s.
  ghost predicate Touched(m: Mem, m': Mem, s: set<Ptr>) {
    m'.Keys == m.Keys && forall x :: x in m && x !in s ==> m'[x] == m[x]
  }

  // The link of parent p to hole now leads to hole'.
  ghost predicate Swung(m: Mem, m': Mem, p: Ptr, hole: Ptr, hole': Ptr) {
    p != NULL ==> p in m && p in m' && m'[p] == SetKid(m[p], m[p].left == hole, hole')
  }

  ghost predicate Painted(m: Mem, m': Mem, n: Ptr, p: Ptr, red: bool) {
    n != NULL ==> n in m && n in m' && m'[n] == m[n].(parent := p, red := red)
  }

  lemma FrameTree(t: Tree, n: Ptr, p: Ptr, m: Mem, m': Mem)
    requires IsTree(t, n, p, m) && Agree(m, m', Nodes(t))
    ensures IsTree(t, n, p, m')
  {
    if t.Fork? {
      FrameTree(t.l, m[t.n].left, t.n, m, m');
      FrameTree(t.r, m[t.n].right, t.n, m, m');
    }
  }

  lemma FrameSeg(c: Ctx, top: Ptr, tp: Ptr, hole: Ptr, p: Ptr, m: Mem, m': Mem)
    requires Seg(c, top, tp, hole, p, m) && Agree(m, m', CNodes(c))
    ensures Seg(c, top, tp, hole, p, m')
  {
    if c.Frame? {
      FrameTree(c.other, Kid(m[c.x], !c.left), c.x, m, m');
      FrameSeg(c.up, top, tp, c.x, m[c.x].parent, m, m');
    }
  }

  // The path after the link at its lower end was swung from hole to hole'.
  lemma Rehang(c: Ctx, top: Ptr, tp: Ptr, hole: Ptr, hole': Ptr, p: Ptr, m: Mem, m': Mem)
    requires Seg(c, top, tp, hole, p, m) && CSep(c) && hole != NULL && hole !in CNodes(c)
    requires c.Frame? ==> Agree(m, m', CNodes(c) - {p}) && Swung(m, m', p, hole, hole')
    ensures Seg(c, if c.Frame? then top else hole', tp, hole', p, m')
  {
    if c.Frame? {
      Ends(c.other, Kid(m[c.x], !c.left), c.x, m);
      FrameTree(c.other, Kid(m[c.x], !c.left), c.x, m, m');
      FrameSeg(c.up, top, tp, c.x, m[c.x].parent, m, m');
    }
  }

  // The path after the parent word of its topmost node was rewritten.
  lemma {:induction false} Retop(c: Ctx, top: Ptr, tp: Ptr, tp': Ptr, hole: Ptr, p: Ptr, m: Mem, m': Mem)
    requires c.Frame? && Seg(c, top, tp, hole, p, m) && CSep(c)
    requires top in m && top in m' && m'[top] == m[top].(parent := tp') && Agree(m, m', CNodes(c) - {top})
    ensures Seg(c, top, tp', hole, p, m')
  {
    TopIn(c, top, tp, hole, p, m);
    if c.up.Frame? {
      TopIn(c.up, top, tp, c.x, m[c.x].parent, m);
      Retop(c.up, top, tp, tp', c.x, m[c.x].parent, m, m');
    }
    FrameTree(c.other, Kid(m[c.x], !c.left), c.x, m, m');
  }

  lemma TopIn(c: Ctx, top: Ptr, tp: Ptr, hole: Ptr, p: Ptr, m: Mem)
    requires c.Frame? && Seg(c, top, tp, hole, p, m)
    ensures top in CNodes(c) && p in CNodes(c)
    ensures c.up == Top ==> top == c.x
  {
    if c.up.Frame? {
      TopIn(c.up, top, tp, c.x, m[c.x].parent, m);
    }
  }

  // A subtree whose root was given another parent and colour.
  lemma Reroot(t: Tree, n: Ptr, p: Ptr, p': Ptr, red': bool, m: Mem, m': Mem)
    requires IsTree(t, n, p, m) && Sep(t)
    requires t.Fork? ==> Agree(m, m', Nodes(t) - {t.n}) && t.n in m' && m'[t.n] == m[t.n].(parent := p', red := red')
    ensures IsTree(if t.Fork? then t.(red := red') else t, n, p', m')
  {
    if t.Fork? {
      FrameTree(t.l, m[t.n].left, t.n, m, m');
      FrameTree(t.r, m[t.n].right, t.n, m, m');
    }
  }

  // ---- building and taking apart ----

  // The same where m' differs from m only on s.
  lemma CellOff(x: Ptr, m: Mem, m': Mem, s: set<Ptr>)
    requires Touched(m, m', s) && x in m
    ensures x in m' && (x !in s ==> m'[x] == m[x])
  {
    assert x in m.Keys;
  }

  lemma TreeOff(t: Tree, n: Ptr, p: Ptr, m: Mem, m': Mem, s: set<Ptr>)
    requires IsTree(t, n, p, m) && Touched(m, m', s) && Nodes(t) !! s
    ensures IsTree(t, n, p, m')
  {
    hide IsTree, Nodes;
    FrameTree(t, n, p, m, m');
  }

  lemma SegOff(c: Ctx, top: Ptr, tp: Ptr, hole: Ptr, p: Ptr, m: Mem, m': Mem, s: set<Ptr>)
    requires Seg(c, top, tp, hole, p, m) && Touched(m, m', s) && CNodes(c) !! s
    ensures Seg(c, top, tp, hole, p, m')
  {
    hide Seg, CNodes;
    FrameSeg(c, top, tp, hole, p, m, m');
  }

  lemma RerootOff(t: Tree, n: Ptr, p: Ptr, p': Ptr, red': bool, m: Mem, m': Mem, s: set<Ptr>)
    requires IsTree(t, n, p, m) && Sep(t) && Touched(m, m', s)
    requires t.Fork? ==> Nodes(t) !! s - {t.n} && t.n in m' && m'[t.n] == m[t.n].(parent := p', red := red')
    ensures IsTree(if t.Fork? then t.(red := red') else t, n, p', m')
  {
    hide IsTree, Nodes, Sep;
    Reroot(t, n, p, p', red', m, m');
  }

  lemma MakeTree(left: bool, near: Tree, x: Ptr, red: bool, far: Tree, p: Ptr, m: Mem)
    requires x != NULL && x in m && m[x].parent == p && m[x].red == red
    requires IsTree(near, Kid(m[x], left), x, m) && IsTree(far, Kid(m[x], !left), x, m)
    requires Sep(near) && Sep(far) && x !in Nodes(near) && x !in Nodes(far) && Nodes(near) !! Nodes(far)
    ensures IsTree(Make(left, near, x, red, far), x, p, m) && Sep(Make(left, near, x, red, far))
    ensures Nodes(Make(left, near, x, red, far)) == Nodes(near) + {x} + Nodes(far)
  {
  }

  lemma TakeTree(left: bool, near: Tree, x: Ptr, red: bool, far: Tree, n: Ptr, p: Ptr, m: Mem)
    requires IsTree(Make(left, near, x, red, far), n, p, m) && Sep(Make(left, near, x, red, far))
    ensures n == x && x != NULL && x in m && m[x].parent == p && m[x].red == red
    ensures IsTree(near, Kid(m[x], left), x, m) && IsTree(far, Kid(m[x], !left), x, m)
    ensures Sep(near) && Sep(far) && x !in Nodes(near) && x !in Nodes(far) && Nodes(near) !! Nodes(far)
    ensures Nodes(Make(left, near, x, red, far)) == Nodes(near) + {x} + Nodes(far)
  {
  }

  lemma TakeFrame(left: bool, x: Ptr, red: bool, other: Tree, up: Ctx, top: Ptr, tp: Ptr, hole: Ptr, p: Ptr, m: Mem)
    requires Seg(Frame(left, x, red, other, up), top, tp, hole, p, m) && CSep(Frame(left, x, red, other, up))
    ensures p == x && x != NULL && x in m && Kid(m[x], left) == hole && m[x].red == red
    ensures IsTree(other, Kid(m[x], !left), x, m) && Seg(up, top, tp, x, m[x].parent, m)
    ensures CSep(up) && Sep(other) && x !in CNodes(up) && x !in Nodes(other) && Nodes(other) !! CNodes(up)
    ensures CNodes(Frame(left, x, red, other, up)) == CNodes(up) + {x} + Nodes(other)
  {
  }

  lemma MakeFrame(left: bool, x: Ptr, red: bool, other: Tree, up: Ctx, top: Ptr, tp: Ptr, hole: Ptr, m: Mem)
    requires x != NULL && x in m && Kid(m[x], left) == hole && m[x].red == red
    requires IsTree(other, Kid(m[x], !left), x, m) && Seg(up, top, tp, x, m[x].parent, m)
    requires CSep(up) && Sep(other) && x !in CNodes(up) && x !in Nodes(other) && Nodes(other) !! CNodes(up)
    ensures Seg(Frame(left, x, red, other, up), top, tp, hole, x, m) && CSep(Frame(left, x, red, other, up))
    ensures CNodes(Frame(left, x, red, other, up)) == CNodes(up) + {x} + Nodes(other)
  {
  }

  // The root pointer of a tree is one of its nodes, the parent pointer of a path lies on the path.
  lemma Ends(t: Tree, n: Ptr, p: Ptr, m: Mem)
    requires IsTree(t, n, p, m)
    ensures n != NULL ==> n in Nodes(t) && n in m && t.Fork? && m[n].parent == p && m[n].red == t.red
    ensures t.Fork? ==> n == t.n && n != NULL
  {
  }

  lemma CEnds(c: Ctx, top: Ptr, hole: Ptr, p: Ptr, m: Mem)
    requires Seg(c, top, NULL, hole, p, m)
    ensures p != NULL ==> p in CNodes(c) && p in m
    ensures p == NULL <==> c == Top
  {
  }

  lemma {:induction false} PlugTree(c: Ctx, t: Tree, top: Ptr, tp: Ptr, hole: Ptr, p: Ptr, m: Mem)
    requires Seg(c, top, tp, hole, p, m) && IsTree(t, hole, p, m)
    ensures IsTree(Plug(c, t), top, tp, m)
  {
    if c.Frame? {
      PlugTree(c.up, Make(c.left, t, c.x, c.red, c.other), top, tp, c.x, m[c.x].parent, m);
    }
  }

  lemma {:induction false} PlugSep(c: Ctx, t: Tree)
    ensures Nodes(Plug(c, t)) == CNodes(c) + Nodes(t)
    ensures Sep(Plug(c, t)) <==> Sep(t) && CSep(c) && Nodes(t) !! CNodes(c)
  {
    if c.Frame? {
      PlugSep(c.up, Make(c.left, t, c.x, c.red, c.other));
    }
  }

  lemma SeqAssoc(a: seq<Ptr>, b: seq<Ptr>, c: seq<Ptr>, d: seq<Ptr>)
    ensures a + (b + c) + d == a + b + (c + d) == (a + b) + c + d
  {
  }

  lemma {:induction false} PlugInOrder(c: Ctx, t: Tree)
    ensures InOrder(Plug(c, t)) == Before(c) + InOrder(t) + After(c)
  {
    if c.Frame? {
      PlugInOrder(c.up, Make(c.left, t, c.x, c.red, c.other));
      if c.left {
        assert InOrder(t) + [c.x] + InOrder(c.other) == InOrder(t) + ([c.x] + InOrder(c.other));
        SeqAssoc(Before(c.up), InOrder(t), [c.x] + InOrder(c.other), After(c.up));
      } else {
        SeqAssoc(Before(c.up), InOrder(c.other) + [c.x], InOrder(t), After(c.up));
      }
    }
  }

  lemma {:induction false} PlugRedBlack(c: Ctx, t: Tree, h: nat)
    requires CBal(c, h) && Bal(t, h) && (IsRed(t) ==> c != Top && !CRed(c))
    ensures RedBlack(Plug(c, t))
  {
    if c.Frame? {
      PlugRedBlack(c.up, Make(c.left, t, c.x, c.red, c.other), if c.red then h else h + 1);
    }
  }

  lemma {:induction false} AppendSeg(below: Ctx, above: Ctx, top: Ptr, tp: Ptr, mid: Ptr, mp: Ptr, hole: Ptr, p: Ptr,
                                     m: Mem)
    requires Seg(above, top, tp, mid, mp, m) && Seg(below, mid, mp, hole, p, m)
    ensures Seg(Append(below, above), top, tp, hole, p, m)
  {
    if below.Frame? {
      AppendSeg(below.up, above, top, tp, mid, mp, below.x, m[below.x].parent, m);
    }
  }

  lemma {:induction false} AppendShape(below: Ctx, above: Ctx, t: Tree)
    ensures CNodes(Append(below, above)) == CNodes(below) + CNodes(above)
    ensures CSep(Append(below, above)) <==> CSep(below) && CSep(above) && CNodes(below) !! CNodes(above)
    ensures Plug(Append(below, above), t) == Plug(above, Plug(below, t))
  {
    if below.Frame? {
      AppendShape(below.up, above, Make(below.left, t, below.x, below.red, below.other));
    }
  }

  lemma InOrderNodes(t: Tree)
    ensures forall x :: x in InOrder(t) <==> x in Nodes(t)
  {
  }

  // A subtree of a red-black tree is balanced and its path expects just that height.
  lemma {:induction false} UnplugRedBlack(c: Ctx, t: Tree) returns (h: nat)
    requires RedBlack(Plug(c, t))
    ensures Bal(t, h) && CBal(c, h) && (IsRed(t) ==> c != Top && !CRed(c))
  {
    if c == Top {
      h :| Bal(t, h);
    } else {
      var h1 := UnplugRedBlack(c.up, Make(c.left, t, c.x, c.red, c.other));
      h := if c.red then h1 else h1 - 1;
    }
  }

  lemma PlugTop(t: Tree)
    ensures Plug(Top, t) == t && Before(Top) == [] && After(Top) == []
  {
  }
}
