/** One run queue on its red-black tree (src/kernel/sched.c, src/common/rbtree.c): the methods call the tree, and what
    they do to the order of its nodes is what the scheduler's queues do. */
module QueueTree {
  import opened Basics
  import opened RbShape
  import opened RunQueue
  import RbErase
  import opened RbTree

  class Queue {
    const rb: RbRoot

    ghost function Order(): seq<Ptr>
      reads rb
    {
      InOrder(rb.tree)
    }

    // A red-black tree, sorted by the run times.
    ghost predicate Valid(key: map<Ptr, U64>)
      reads rb
    {
      rb.Valid() && RunQueue.Sorted(key, Order())
    }

    // init_schqueue, over the memory in which the nodes lie.
    constructor (mem: Mem)
      ensures fresh(rb) && rb.Valid() && Order() == [] && rb.mem == mem
    {
      rb := new RbRoot(mem);
    }

    // _rb_insert with __sched_cmp: the ASSERTs on its result hold.
    method Enqueue(x: Ptr, key: map<Ptr, U64>) returns (r: int)
      requires Valid(key) && x != NULL && x in rb.mem && x !in Order() && x in key && InWindow(key)
      modifies rb
      ensures Valid(key) && r == 0 && Order() == Insert(key, old(Order()), x)
      ensures Touched(old(rb.mem), rb.mem, Nodes(rb.tree))
    {
      hide Less, InWindow, Insert, IsTree, Sep, RedBlack, Nodes, InOrder;
      ghost var q := Order();
      QueueWindow(key, rb.tree, x);
      r := rb.Insert(x, Cmp(key));
      TreeInsert(key, q, Order(), x);
      InsertSorted(key, q, x);
    }

    // _rb_erase: the run time of x may have been changed before.
    method Unqueue(x: Ptr)
      requires rb.Valid() && x in Order()
      modifies rb
      ensures rb.Valid() && Order() == Without(old(Order()), x)
      ensures Touched(old(rb.mem), rb.mem, Nodes(old(rb.tree)))
    {
      hide IsTree, RedBlack, Nodes, InOrder, Without;
      InOrderNodes(rb.tree);
      OrderDistinct(rb.tree);
      ghost var q := Order();
      rb.Erase(x);
      TreeErase(q, Order(), x);
    }

    // The charge of update_this_state: erased, and inserted again with the new run time.
    method Reenter(x: Ptr, key: map<Ptr, U64>, t: U64) returns (r: int)
      requires Valid(key) && x in Order() && x in rb.mem && InWindow(key[x := t])
      modifies rb
      ensures Valid(key[x := t]) && r == 0 && Order() == Insert(key[x := t], Without(old(Order()), x), x)
    {
      hide Less, InWindow, Insert, IsTree, Nodes, InOrder, Without, Sep, RedBlack, Touched;
      ghost var q, key', mem := Order(), key[x := t], rb.mem;
      NoNull(rb.tree, rb.root, NULL, rb.mem);
      InOrderNodes(rb.tree);
      OrderDistinct(rb.tree);
      RemoveSorted(key, key', q, x);
      WithoutDistinct(q, x);
      Unqueue(x);
      TouchedKeys(mem, rb.mem, x);
      r := Enqueue(x, key[x := t]);
    }

    // _rb_first_ex_p from the root: the first entry in order that is not a skipped group.
    method FirstExcept(skip: set<Ptr>) returns (r: Ptr)
      requires rb.Valid()
      ensures r == FirstIn(Order(), skip)
    {
      r := FirstBelow(rb.root, skip, rb.tree, NULL);
      NoNull(rb.tree, rb.root, NULL, rb.mem);
      FirstExInOrder(rb.tree, skip);
    }

    method FirstBelow(n: Ptr, skip: set<Ptr>, ghost t: Tree, ghost p: Ptr) returns (r: Ptr)
      requires IsTree(t, n, p, rb.mem)
      ensures r == FirstEx(t, skip)
      decreases t
    {
      if n == NULL {
        return NULL;
      }
      NoNull(t.l, rb.mem[n].left, n, rb.mem);
      r := FirstBelow(rb.mem[n].left, skip, t.l, n);
      if r != NULL {
        return;
      }
      if n !in skip {
        return n;
      }
      r := FirstBelow(rb.mem[n].right, skip, t.r, n);
    }

    // _rb_first: the least entry.
    method First(key: map<Ptr, U64>) returns (r: Ptr)
      requires Valid(key)
      ensures r == NULL <==> Order() == []
      ensures r != NULL ==> r in Order() && forall y :: y in Order() && y != r ==>
                y in key && r in key && Less(key, r, y)
    {
      hide Less, RedBlack, Sep;
      NoNull(rb.tree, rb.root, NULL, rb.mem);
      InOrderNodes(rb.tree);
      r := rb.First();
      assert r != NULL ==> r == Order()[0];
    }
  }

  lemma {:induction false} NoNull(t: Tree, n: Ptr, p: Ptr, m: Mem)
    requires IsTree(t, n, p, m)
    ensures NULL !in Nodes(t) && (n == NULL <==> t == Leaf) && (t == Leaf <==> InOrder(t) == [])
  {
    if t.Fork? {
      NoNull(t.l, m[n].left, n, m);
      NoNull(t.r, m[n].right, n, m);
    }
  }

  lemma OrderDistinct(t: Tree)
    requires Sep(t)
    ensures Distinct(InOrder(t))
  {
    hide Sep, InOrder;
    forall i, j | 0 <= i < j < |InOrder(t)| ensures InOrder(t)[i] != InOrder(t)[j] {
      RbErase.NoDuplicates(t, i, j);
    }
  }

  lemma TouchedKeys(m: Mem, m': Mem, x: Ptr)
    requires x in m && exists s :: Touched(m, m', s)
    ensures x in m'
  {
    assert x in m.Keys;
  }

  // What the tree asks of the comparison, and what it gives.
  lemma QueueWindow(key: map<Ptr, U64>, t: Tree, x: Ptr)
    requires RunQueue.Sorted(key, InOrder(t)) && x in key && x !in InOrder(t) && InWindow(key)
    ensures x !in Nodes(t) && Transitive(Cmp(key), Nodes(t) + {x}) && RbTree.Sorted(Cmp(key), InOrder(t))
    ensures forall y :: y in Nodes(t) ==> !Equivalent(Cmp(key), x, y)
  {
    hide Less, Window;
    InOrderNodes(t);
    var s := Nodes(t) + {x};
    var b: U64 :| Window(key, key.Keys, b);
    forall y | y in s ensures y in key.Keys {
      if y != x {
        assert y in InOrder(t);
      }
    }
    PartWindow(key, s, b);
    WindowTree(key, s, b);
  }

  lemma PartWindow(key: map<Ptr, U64>, s: set<Ptr>, b: U64)
    requires s <= key.Keys && Window(key, key.Keys, b)
    ensures Window(key, s, b)
  {
  }
}
