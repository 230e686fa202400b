/** The slab allocator (src/kernel/mem.c): the layout of a slab page, and who has each of its objects. */
module Slab {
  import opened Counting

  const PAGE_SIZE: nat := 4096
  const SLAB_NODE: nat := 40
  const CACHE_NODE: nat := 440
  const CPU_NUM: nat := 4
  const AC_LIMIT: nat := 10
  const MAX_SIZE: nat := 2048

  type Addr = nat

  // ---- layout ----

  predicate SizeOk(size: nat) { 0 < size < MAX_SIZE }

  // Objects per slab.
  function Num(size: nat): nat
    requires SizeOk(size)
  {
    (PAGE_SIZE - SLAB_NODE - 8 - CACHE_NODE) / (size + 4)
  }

  // Where the first object starts, after the header and the index array.
  function Base(num: nat): nat { SLAB_NODE + (4 * num / 8 + 1) * 8 }

  function Page(a: Addr): Addr { a / PAGE_SIZE * PAGE_SIZE }

  // The i-th object of the slab at p, as alloc_obj computes it.
  function Obj(p: Addr, size: nat, i: nat): Addr
    requires SizeOk(size)
  {
    p + Base(Num(size)) + i * size
  }

  // get_obj_index.
  function Index(p: Addr, size: nat, a: Addr): int
    requires SizeOk(size)
  {
    (a - p - (4 * Num(size) / 8 + 1) * 8 - SLAB_NODE) / size
  }

  // As many objects, each with an index of four bytes, as go into the 3608 bytes that the header, the CacheNode and
  // eight more bytes leave of a page.
  lemma NumBounds(size: nat)
    requires SizeOk(size)
    ensures Num(size) >= 1 && Num(size) * (size + 4) <= 3608 < (Num(size) + 1) * (size + 4)
  {
  }

  lemma Product(i: nat, n: nat, size: nat)
    requires i < n
    ensures i * size + size <= n * size
  {
    assert (i + 1) * size <= n * size;
  }

  // An object lies in its page, behind the header and the index array and before the CacheNode.
  lemma Inside(p: Addr, size: nat, i: nat)
    requires SizeOk(size) && i < Num(size)
    ensures p + SLAB_NODE + 4 * Num(size) <= Obj(p, size, i) && Obj(p, size, i) + size <= p + PAGE_SIZE - CACHE_NODE
  {
    NumBounds(size);
    Product(i, Num(size), size);
    assert Num(size) * (size + 4) == Num(size) * size + Num(size) * 4;
  }

  lemma PageOf(p: Addr, size: nat, i: nat)
    requires SizeOk(size) && i < Num(size) && p % PAGE_SIZE == 0
    ensures Page(Obj(p, size, i)) == p
  {
    Inside(p, size, i);
  }

  // Objects follow each other from the first multiple of 8 above the header and the index array.
  lemma ObjectAt(p: Addr, size: nat, i: nat)
    requires SizeOk(size)
    ensures var first := Obj(p, size, 0) - p;
            && first % 8 == 0 && 40 + 4 * Num(size) < first <= 48 + 4 * Num(size)
            && Obj(p, size, i) == p + first + i * size
  {
    hide Num;
  }

  lemma IndexOf(p: Addr, size: nat, i: nat)
    requires SizeOk(size)
    ensures Index(p, size, Obj(p, size, i)) == i
  {
    Quotient(i, size);
  }

  lemma Quotient(i: nat, size: nat)
    requires size > 0
    ensures i * size / size == i
  {
    var d, r := i * size / size, i * size % size;
    assert i * size == d * size + r;
    if d < i {
      Product(d, i, size);
    } else if d > i {
      Product(i, d, size);
    }
  }

  // An object is aligned as its size is, up to 8.
  lemma Aligned(p: Addr, size: nat, i: nat, k: nat)
    requires SizeOk(size) && p % PAGE_SIZE == 0 && (k == 1 || k == 2 || k == 4 || k == 8) && size % k == 0
    ensures Obj(p, size, i) % k == 0
  {
    hide Num;
    var q := Multiple(size, k);
    Associate(i, q, k);
    AlignedSum(p, 4 * Num(size) / 8, i * q, k);
  }

  lemma Multiple(size: nat, k: nat) returns (q: nat)
    requires (k == 1 || k == 2 || k == 4 || k == 8) && size % k == 0
    ensures size == q * k
  {
    q := if k == 8 then size / 8 else if k == 4 then size / 4 else if k == 2 then size / 2 else size;
  }

  lemma Associate(i: nat, q: nat, k: nat)
    ensures i * (q * k) == i * q * k
  {
  }

  lemma AlignedSum(p: nat, b: nat, m: nat, k: nat)
    requires p % PAGE_SIZE == 0 && (k == 1 || k == 2 || k == 4 || k == 8)
    ensures (p + (SLAB_NODE + (b + 1) * 8) + m * k) % k == 0
  {
    var x := 512 * (p / PAGE_SIZE) + 6 + b;
    assert p + (SLAB_NODE + (b + 1) * 8) == 8 * x;
    if k == 8 {
      Eights(x + m);
    } else if k == 4 {
      Fours(2 * x + m);
    } else if k == 2 {
      Twos(4 * x + m);
    }
  }

  lemma Eights(x: nat)
    ensures 8 * x % 8 == 0
  {
  }

  lemma Fours(x: nat)
    ensures 4 * x % 4 == 0
  {
  }

  lemma Twos(x: nat)
    ensures 2 * x % 2 == 0
  {
  }

  // Different objects do not overlap, whatever their slabs and sizes.
  lemma Disjoint(p: Addr, size: nat, i: nat, q: Addr, size': nat, j: nat)
    requires SizeOk(size) && SizeOk(size') && i < Num(size) && j < Num(size') && p % PAGE_SIZE == 0
    requires q % PAGE_SIZE == 0
    requires p != q || (size == size' && i != j)
    ensures Obj(p, size, i) + size <= Obj(q, size', j) || Obj(q, size', j) + size' <= Obj(p, size, i)
  {
    Inside(p, size, i);
    Inside(q, size', j);
    if p == q {
      if i < j {
        Product(i, j, size);
      } else {
        Product(j, i, size);
      }
    } else {
      PagesApart(p, q);
    }
  }

  lemma PagesApart(p: Addr, q: Addr)
    requires p % PAGE_SIZE == 0 && q % PAGE_SIZE == 0 && p != q
    ensures p + PAGE_SIZE <= q || q + PAGE_SIZE <= p
  {
  }

  // ---- state ----

  // A slab: its size class, how many of its objects are handed out, and the index array.
  datatype SlabNode = SlabNode(size: nat, active: nat, freelist: seq<nat>)

  // A size class: for every CPU the stack of cached objects, and the lists of slabs.
  datatype Cache = Cache(ac: seq<seq<Addr>>, partial: seq<Addr>, full: seq<Addr>, free: seq<Addr>)

  // Who has an object: the index array at a position, a CPU's stack at a position, or a client.
  datatype Place = Free(j: nat) | Cached(cpu: nat, k: nat) | Live

  datatype World = World(slabs: map<Addr, SlabNode>, caches: map<nat, Cache>, place: map<Addr, Place>)

  predicate SlabOk(p: Addr, s: SlabNode) {
    p % PAGE_SIZE == 0 && SizeOk(s.size) && |s.freelist| == Num(s.size) && s.active <= Num(s.size)
  }

  // The object i of the slab p is where its place says.
  ghost predicate ObjOk(w: World, p: Addr, i: nat)
    requires p in w.slabs && SlabOk(p, w.slabs[p])
  {
    var s := w.slabs[p];
    var a := Obj(p, s.size, i);
    a in w.place &&
    match w.place[a]
    case Free(j) => s.active <= j < |s.freelist| && s.freelist[j] == i
    case Cached(c, k) => s.size in w.caches && c < |w.caches[s.size].ac| && k < |w.caches[s.size].ac[c]|
      && w.caches[s.size].ac[c][k] == a
    case Live => true
  }

  // The entries of the index array from active on are free objects.
  ghost predicate FreeOk(w: World, p: Addr, j: nat)
    requires p in w.slabs && SlabOk(p, w.slabs[p]) && j < |w.slabs[p].freelist|
  {
    var s := w.slabs[p];
    s.freelist[j] < Num(s.size) && Obj(p, s.size, s.freelist[j]) in w.place
      && w.place[Obj(p, s.size, s.freelist[j])] == Free(j)
  }

  // An address that is an object of the given size.
  ghost predicate IsObj(w: World, size: nat, a: Addr) {
    && Page(a) in w.slabs && w.slabs[Page(a)].size == size && SizeOk(size)
    && exists i :: 0 <= i < Num(size) && a == Obj(Page(a), size, i)
  }

  ghost predicate CachedOk(w: World, size: nat, c: nat, k: nat)
    requires size in w.caches && c < |w.caches[size].ac| && k < |w.caches[size].ac[c]|
  {
    var a := w.caches[size].ac[c][k];
    IsObj(w, size, a) && a in w.place && w.place[a] == Cached(c, k)
  }

  // Slabs in the lists for allocation have an object left.
  ghost predicate ListOk(w: World, size: nat, q: seq<Addr>) {
    forall p :: p in q ==> p in w.slabs && w.slabs[p].size == size && SizeOk(size) && w.slabs[p].active < Num(size)
  }

  ghost predicate Slabs(w: World) {
    forall p :: p in w.slabs ==> SlabOk(p, w.slabs[p]) && w.slabs[p].size in w.caches
  }

  ghost predicate Objects(w: World)
    requires Slabs(w)
  {
    forall p, i :: p in w.slabs && 0 <= i < Num(w.slabs[p].size) ==> ObjOk(w, p, i)
  }

  ghost predicate Frees(w: World)
    requires Slabs(w)
  {
    forall p, j :: p in w.slabs && w.slabs[p].active <= j < |w.slabs[p].freelist| ==> FreeOk(w, p, j)
  }

  // Every CPU has a stack, of no more than the entries that its array has room for.
  predicate AcOk(ac: seq<seq<Addr>>) {
    |ac| == CPU_NUM && forall c :: 0 <= c < CPU_NUM ==> |ac[c]| <= AC_LIMIT
  }

  ghost predicate Lists(w: World) {
    forall z :: z in w.caches ==> CacheOk(w, z)
  }

  ghost predicate CacheOk(w: World, z: nat)
    requires z in w.caches
  {
    SizeOk(z) && AcOk(w.caches[z].ac) && ListOk(w, z, w.caches[z].partial) && ListOk(w, z, w.caches[z].free)
  }

  ghost predicate Stacks(w: World)
    requires Lists(w)
  {
    forall z, c, k :: z in w.caches && 0 <= c < CPU_NUM && 0 <= k < |w.caches[z].ac[c]| ==> CachedOk(w, z, c, k)
  }

  ghost predicate Places(w: World) {
    forall a :: a in w.place ==> Page(a) in w.slabs && IsObj(w, w.slabs[Page(a)].size, a)
  }

  // Every object of every slab is in exactly one place, and every place has the object that it should.
  ghost predicate Inv(w: World) {
    Slabs(w) && Objects(w) && Frees(w) && Lists(w) && Stacks(w) && Places(w)
  }

  lemma ObjSame(w: World, p: Addr, i: nat, q: Addr, j: nat)
    requires Slabs(w) && p in w.slabs && q in w.slabs && i < Num(w.slabs[p].size) && j < Num(w.slabs[q].size)
    ensures Obj(p, w.slabs[p].size, i) == Obj(q, w.slabs[q].size, j) <==> p == q && i == j
  {
    PageOf(p, w.slabs[p].size, i);
    PageOf(q, w.slabs[q].size, j);
    IndexOf(p, w.slabs[p].size, i);
    IndexOf(q, w.slabs[q].size, j);
  }

  // Slabs keep their sizes, so objects stay objects.
  lemma StillObj(w: World, w': World, size: nat, a: Addr)
    requires IsObj(w, size, a) && forall p :: p in w.slabs ==> p in w'.slabs && w'.slabs[p].size == w.slabs[p].size
    ensures IsObj(w', size, a)
  {
  }

  // ---- moving one object ----

  // The free part of the index array gains or loses nothing but the index i0, which has the place x.
  ghost predicate IndexMoves(s: SlabNode, s': SlabNode, i0: nat, x: Place)
    requires |s.freelist| == |s'.freelist|
  {
    && (forall j :: s.active <= j < |s.freelist| && s.freelist[j] != i0 ==>
        s'.active <= j && s'.freelist[j] == s.freelist[j])
    && (forall j :: s'.active <= j < |s'.freelist| ==>
          (s'.freelist[j] == i0 && x == Free(j))
            || (s.active <= j && s.freelist[j] == s'.freelist[j] && s'.freelist[j] != i0))
  }

  // The stacks gain or lose nothing but the object a, which has the place x.
  ghost predicate StackMoves(ac: seq<seq<Addr>>, ac': seq<seq<Addr>>, a: Addr, x: Place)
    requires |ac| == |ac'|
  {
    && (forall c, k :: 0 <= c < |ac| && 0 <= k < |ac[c]| && ac[c][k] != a ==> k < |ac'[c]| && ac'[c][k] == ac[c][k])
    && (forall c, k :: 0 <= c < |ac| && 0 <= k < |ac'[c]| ==>
          (ac'[c][k] == a && x == Cached(c, k)) || (k < |ac[c]| && ac[c][k] == ac'[c][k] && ac'[c][k] != a))
  }

  // The slab p and its size class change so that the object i0 of p goes to another place and no other object does.
  ghost predicate Moving(w: World, w': World, p: Addr, i0: nat) {
    && p in w.slabs && p in w'.slabs && SlabOk(p, w.slabs[p]) && SlabOk(p, w'.slabs[p]) && i0 < Num(w.slabs[p].size)
    && var s, s' := w.slabs[p], w'.slabs[p];
    && var z, a := s.size, Obj(p, s.size, i0);
    && s'.size == z && w'.slabs == w.slabs[p := s'] && z in w.caches && z in w'.caches
    && w'.caches == w.caches[z := w'.caches[z]]
    && a in w.place && a in w'.place && w'.place == w.place[a := w'.place[a]]
    && AcOk(w.caches[z].ac) && AcOk(w'.caches[z].ac)
    && ObjOk(w', p, i0) && IndexMoves(s, s', i0, w'.place[a])
    && StackMoves(w.caches[z].ac, w'.caches[z].ac, a, w'.place[a])
    && ListOk(w', z, w'.caches[z].partial) && ListOk(w', z, w'.caches[z].free)
  }

  lemma MoveSizes(w: World, w': World, p: Addr, i0: nat)
    requires Slabs(w) && Moving(w, w', p, i0)
    ensures Slabs(w') && w'.slabs.Keys == w.slabs.Keys && w'.caches.Keys == w.caches.Keys
    ensures forall q :: q in w.slabs ==> q in w'.slabs && w'.slabs[q].size == w.slabs[q].size
    ensures forall q :: q in w.slabs && q != p ==> w'.slabs[q] == w.slabs[q]
  {
    hide ObjOk, ListOk, Num, Obj;
  }

  lemma MoveObject(w: World, w': World, p: Addr, i0: nat, q: Addr, i: nat)
    requires Slabs(w) && Slabs(w') && Moving(w, w', p, i0) && q in w.slabs && q in w'.slabs && i < Num(w.slabs[q].size)
    requires ObjOk(w, q, i)
    ensures ObjOk(w', q, i)
  {
    ObjSame(w, p, i0, q, i);
    hide Slabs, ListOk, Num, Obj, SlabOk;
  }

  lemma MoveFree(w: World, w': World, p: Addr, i0: nat, q: Addr, j: nat)
    requires Slabs(w) && Slabs(w') && Frees(w) && Moving(w, w', p, i0) && q in w'.slabs
    requires w'.slabs[q].active <= j < |w'.slabs[q].freelist| && q in w.slabs
    ensures FreeOk(w', q, j)
  {
    hide ListOk, Num, Obj;
    if q == p && w'.slabs[p].freelist[j] == i0 && w'.place[Obj(p, w.slabs[p].size, i0)] == Free(j) {
    } else {
      assert FreeOk(w, q, j);
      ObjSame(w, p, i0, q, w.slabs[q].freelist[j]);
    }
  }

  lemma MoveLists(w: World, w': World, p: Addr, i0: nat)
    requires Slabs(w) && Lists(w) && Moving(w, w', p, i0)
    ensures Lists(w')
  {
    hide Num, Obj, SlabOk, ObjOk, Slabs, CacheOk, IndexMoves, StackMoves;
    MoveSizes(w, w', p, i0);
    forall z | z in w'.caches ensures CacheOk(w', z) {
      assert z in w.caches.Keys;
      MoveCache(w, w', p, i0, z);
    }
  }

  lemma MoveCache(w: World, w': World, p: Addr, i0: nat, z: nat)
    requires Moving(w, w', p, i0) && z in w.caches && z in w'.caches && CacheOk(w, z)
    requires forall q :: q in w.slabs ==> q in w'.slabs && w'.slabs[q].size == w.slabs[q].size
    requires forall q :: q in w.slabs && q != p ==> w'.slabs[q] == w.slabs[q]
    ensures CacheOk(w', z)
  {
    hide Num, Obj, SlabOk, ObjOk, AcOk, IndexMoves, StackMoves;
  }

  lemma AcBoth(w: World, w': World, z: nat)
    requires Lists(w) && Lists(w') && z in w.caches && z in w'.caches
    ensures |w.caches[z].ac| == CPU_NUM && |w'.caches[z].ac| == CPU_NUM
  {
    assert CacheOk(w, z) && CacheOk(w', z);
  }

  lemma MoveStack(w: World, w': World, p: Addr, i0: nat, z: nat, c: nat, k: nat)
    requires Slabs(w) && Lists(w) && Lists(w') && Stacks(w) && Moving(w, w', p, i0) && z in w'.caches && c < CPU_NUM
    requires k < |w'.caches[z].ac[c]|
    ensures CachedOk(w', z, c, k)
  {
    hide ListOk, Num, Obj, Slabs, ObjOk, IndexMoves, AcOk;
    MoveSizes(w, w', p, i0);
    var a0 := Obj(p, w.slabs[p].size, i0);
    PageOf(p, w.slabs[p].size, i0);
    assert z in w.caches.Keys;
    AcBoth(w, w', z);
    var a := w'.caches[z].ac[c][k];
    if z != w.slabs[p].size || a != a0 {
      assert z in w.caches.Keys;
      assert CachedOk(w, z, c, k);
      StillObj(w, w', z, a);
      assert IsObj(w, z, a);
      assert a != a0;
    }
  }

  lemma MovePlaces(w: World, w': World, p: Addr, i0: nat)
    requires Slabs(w) && Places(w) && Moving(w, w', p, i0)
    ensures Places(w')
  {
    MoveSizes(w, w', p, i0);
    hide Slabs, ListOk, Num, Obj, ObjOk, SlabOk;
    forall a | a in w'.place ensures Page(a) in w'.slabs && IsObj(w', w'.slabs[Page(a)].size, a) {
      assert a in w.place;
      StillObj(w, w', w.slabs[Page(a)].size, a);
    }
  }

  // The invariant survives the move of one object.
  lemma MoveInv(w: World, w': World, p: Addr, i0: nat)
    requires Inv(w) && Moving(w, w', p, i0)
    ensures Inv(w')
  {
    hide Lists, Stacks, Places, Moving, Num, Obj, SlabOk, Slabs, Objects, Frees;
    MoveSizes(w, w', p, i0);
    MoveLists(w, w', p, i0);
    MovePlaces(w, w', p, i0);
    MoveObjects(w, w', p, i0);
    MoveFrees(w, w', p, i0);
    MoveStacks(w, w', p, i0);
  }

  lemma MoveObjects(w: World, w': World, p: Addr, i0: nat)
    requires Slabs(w) && Slabs(w') && Objects(w) && Moving(w, w', p, i0) && w'.slabs.Keys == w.slabs.Keys
    requires forall q :: q in w.slabs ==> q in w'.slabs && w'.slabs[q].size == w.slabs[q].size
    ensures Objects(w')
  {
    hide Moving, Num, Obj, ObjOk;
    forall q, i | q in w'.slabs && 0 <= i < Num(w'.slabs[q].size) ensures ObjOk(w', q, i) {
      assert q in w.slabs.Keys;
      MoveObject(w, w', p, i0, q, i);
    }
  }

  lemma MoveFrees(w: World, w': World, p: Addr, i0: nat)
    requires Slabs(w) && Slabs(w') && Frees(w) && Moving(w, w', p, i0) && w'.slabs.Keys == w.slabs.Keys
    ensures Frees(w')
  {
    hide Moving, Num, Obj, FreeOk, SlabOk;
    forall q, j | q in w'.slabs && w'.slabs[q].active <= j < |w'.slabs[q].freelist| ensures FreeOk(w', q, j) {
      assert q in w.slabs.Keys;
      MoveFree(w, w', p, i0, q, j);
    }
  }

  lemma MoveStacks(w: World, w': World, p: Addr, i0: nat)
    requires Slabs(w) && Lists(w) && Lists(w') && Stacks(w) && Moving(w, w', p, i0)
    ensures Stacks(w')
  {
    hide Moving, Num, Obj, CachedOk, SlabOk, Slabs, ListOk;
    forall z, c, k | z in w'.caches && 0 <= c < CPU_NUM && 0 <= k < |w'.caches[z].ac[c]| ensures CachedOk(w', z, c, k) {
      MoveStack(w, w', p, i0, z, c, k);
    }
  }

  // ---- the moves ----

  lemma SameIndex(s: SlabNode, i0: nat, x: Place)
    requires forall j :: s.active <= j < |s.freelist| ==> s.freelist[j] != i0
    ensures IndexMoves(s, s, i0, x)
  {
  }

  lemma TakeIndex(s: SlabNode)
    requires s.active < |s.freelist|
    requires forall j :: s.active < j < |s.freelist| ==> s.freelist[j] != s.freelist[s.active]
    ensures IndexMoves(s, s.(active := s.active + 1), s.freelist[s.active], Live)
  {
  }

  lemma FlushIndex(s: SlabNode, i0: nat)
    requires 0 < s.active <= |s.freelist| && forall j :: s.active <= j < |s.freelist| ==> s.freelist[j] != i0
    ensures IndexMoves(s, s.(active := s.active - 1, freelist := s.freelist[s.active - 1 := i0]), i0,
                       Free(s.active - 1))
  {
  }

  lemma SameStack(ac: seq<seq<Addr>>, a: Addr, x: Place)
    requires forall c, k :: 0 <= c < |ac| && 0 <= k < |ac[c]| ==> ac[c][k] != a
    ensures StackMoves(ac, ac, a, x)
  {
  }

  lemma PopStack(ac: seq<seq<Addr>>, cpu: nat, x: Place)
    requires cpu < |ac| && ac[cpu] != []
    requires var a := ac[cpu][|ac[cpu]| - 1]; forall c, k :: 0 <= c < |ac| && 0 <= k < |ac[c]| && ac[c][k] == a ==>
               c == cpu && k == |ac[cpu]| - 1
    ensures StackMoves(ac, ac[cpu := ac[cpu][..|ac[cpu]| - 1]], ac[cpu][|ac[cpu]| - 1], x)
  {
  }

  lemma PushStack(ac: seq<seq<Addr>>, cpu: nat, a: Addr)
    requires cpu < |ac| && forall c, k :: 0 <= c < |ac| && 0 <= k < |ac[c]| ==> ac[c][k] != a
    ensures StackMoves(ac, ac[cpu := ac[cpu] + [a]], a, Cached(cpu, |ac[cpu]|))
  {
  }

  // The slab p gives out its next free object; the size class gets the lists of c.
  function Taken(w: World, p: Addr, c: Cache): World
    requires p in w.slabs && SlabOk(p, w.slabs[p]) && w.slabs[p].active < Num(w.slabs[p].size)
  {
    var s := w.slabs[p];
    World(w.slabs[p := s.(active := s.active + 1)], w.caches[s.size := c],
          w.place[Obj(p, s.size, s.freelist[s.active]) := Live])
  }

  lemma TakeMoves(w: World, p: Addr, c: Cache)
    requires Inv(w) && Ready(w, p)
    requires c.ac == w.caches[w.slabs[p].size].ac
    requires ListOk(Taken(w, p, c), w.slabs[p].size, c.partial) && ListOk(Taken(w, p, c), w.slabs[p].size, c.free)
    ensures var s := w.slabs[p];
            s.freelist[s.active] < Num(s.size)
            && Moving(w, Taken(w, p, c), p, s.freelist[s.active])
    ensures var s := w.slabs[p]; var a := Obj(p, s.size, s.freelist[s.active]); a in w.place && w.place[a].Free?
  {
    hide Inv, Num, Obj, ListOk;
    var s, z := w.slabs[p], w.slabs[p].size;
    OnlyFree(w, p, s.active);
    var i0 := s.freelist[s.active];
    Whereabouts(w, p, i0);
    TakeIndex(s);
    SameStack(w.caches[z].ac, Obj(p, z, i0), Live);
    hide IndexMoves, StackMoves;
  }

  // The top of a CPU's stack goes to a client.
  function Popped(w: World, z: nat, cpu: nat): World
    requires z in w.caches && cpu < |w.caches[z].ac| && w.caches[z].ac[cpu] != []
  {
    var c := w.caches[z];
    var q := c.ac[cpu];
    w.(caches := w.caches[z := c.(ac := c.ac[cpu := q[..|q| - 1]])], place := w.place[q[|q| - 1] := Live])
  }

  // The object at the top of a stack, and its slab.
  lemma TopObject(w: World, z: nat, cpu: nat) returns (i: nat)
    requires Inv(w) && z in w.caches && cpu < CPU_NUM && w.caches[z].ac[cpu] != []
    ensures var q := w.caches[z].ac[cpu]; var a := q[|q| - 1];
            && Page(a) in w.slabs && SlabOk(Page(a), w.slabs[Page(a)]) && w.slabs[Page(a)].size == z && i < Num(z)
            && a == Obj(Page(a), z, i)
            && a in w.place && w.place[a] == Cached(cpu, |q| - 1)
  {
    var q := w.caches[z].ac[cpu];
    var a := q[|q| - 1];
    assert CachedOk(w, z, cpu, |q| - 1);
    hide Objects, Frees, Lists, Stacks, Places, Num, Obj;
    i :| 0 <= i < Num(z) && a == Obj(Page(a), z, i);
  }

  // An object is on the stacks only where its place says.
  lemma OnlyThere(w: World, z: nat, a: Addr, c: nat, k: nat)
    requires Inv(w) && z in w.caches && c < CPU_NUM && k < |w.caches[z].ac[c]| && w.caches[z].ac[c][k] == a
    ensures a in w.place && w.place[a] == Cached(c, k)
  {
    assert CachedOk(w, z, c, k);
    hide Slabs, Objects, Frees, Lists, Stacks, Places, IsObj;
  }

  // An object is in the index array only where its place says.
  lemma OnlyFree(w: World, p: Addr, j: nat)
    requires Inv(w) && p in w.slabs && w.slabs[p].active <= j < |w.slabs[p].freelist|
    ensures SlabOk(p, w.slabs[p]) && FreeOk(w, p, j)
  {
    hide Objects, Lists, Stacks, Places, Num, Obj;
  }

  // What the invariant says about a slab, its size class and one of its objects.
  lemma Whereabouts(w: World, p: Addr, i: nat)
    requires Inv(w) && p in w.slabs && SizeOk(w.slabs[p].size) && i < Num(w.slabs[p].size)
    ensures var s := w.slabs[p]; var a := Obj(p, s.size, i);
            && SlabOk(p, s) && s.size in w.caches && AcOk(w.caches[s.size].ac) && a in w.place
            && (forall c, k :: 0 <= c < CPU_NUM && 0 <= k < |w.caches[s.size].ac[c]| ==>
                  w.caches[s.size].ac[c][k] == a ==> w.place[a] == Cached(c, k))
            && (forall j :: s.active <= j < |s.freelist| && s.freelist[j] == i ==> w.place[a] == Free(j))
            && ListOk(w, s.size, w.caches[s.size].partial) && ListOk(w, s.size, w.caches[s.size].free)
  {
    var s := w.slabs[p];
    var a := Obj(p, s.size, i);
    assert ObjOk(w, p, i);
    forall c, k | 0 <= c < CPU_NUM && 0 <= k < |w.caches[s.size].ac[c]| && w.caches[s.size].ac[c][k] == a
      ensures w.place[a] == Cached(c, k)
    {
      OnlyThere(w, s.size, a, c, k);
    }
    forall j | s.active <= j < |s.freelist| && s.freelist[j] == i ensures w.place[a] == Free(j) {
      OnlyFree(w, p, j);
    }
    hide Objects, Frees, Stacks, Places, Num, Obj, ListOk;
  }

  lemma AcLengths(ac: seq<seq<Addr>>)
    requires AcOk(ac)
    ensures |ac| == CPU_NUM
  {
  }

  lemma PopAc(ac: seq<seq<Addr>>, cpu: nat)
    requires AcOk(ac) && cpu < |ac| && ac[cpu] != []
    ensures AcOk(ac[cpu := ac[cpu][..|ac[cpu]| - 1]])
  {
  }

  lemma PopMoves(w: World, z: nat, cpu: nat, i: nat)
    requires Inv(w) && z in w.caches && cpu < |w.caches[z].ac| && w.caches[z].ac[cpu] != [] && SizeOk(z)
    requires var q := w.caches[z].ac[cpu]; var a := q[|q| - 1];
             && Page(a) in w.slabs && w.slabs[Page(a)].size == z && i < Num(z) && a == Obj(Page(a), z, i)
             && a in w.place && w.place[a] == Cached(cpu, |q| - 1)
    ensures var q := w.caches[z].ac[cpu]; Moving(w, Popped(w, z, cpu), Page(q[|q| - 1]), i)
  {
    hide Inv, Num, Obj, ListOk, IndexMoves, StackMoves, AcOk, SlabOk;
    var q := w.caches[z].ac[cpu];
    var p := Page(q[|q| - 1]);
    Whereabouts(w, p, i);
    AcLengths(w.caches[z].ac);
    PopStack(w.caches[z].ac, cpu, Live);
    SameIndex(w.slabs[p], i, Live);
    PopAc(w.caches[z].ac, cpu);
    assert w.slabs == w.slabs[p := w.slabs[p]];
    SameLists(w, Popped(w, z, cpu), z);
  }

  lemma SameLists(w: World, w': World, z: nat)
    requires z in w.caches && w'.slabs == w.slabs && ListOk(w, z, w.caches[z].partial) && ListOk(w, z, w.caches[z].free)
    ensures ListOk(w', z, w.caches[z].partial) && ListOk(w', z, w.caches[z].free)
  {
    hide Num;
  }

  // A client's object goes to the top of a CPU's stack.
  function Pushed(w: World, z: nat, cpu: nat, a: Addr): World
    requires z in w.caches && cpu < |w.caches[z].ac|
  {
    var c := w.caches[z];
    w.(caches := w.caches[z := c.(ac := c.ac[cpu := c.ac[cpu] + [a]])], place := w.place[a := Cached(cpu, |c.ac[cpu]|)])
  }

  lemma PushMoves(w: World, p: Addr, i: nat, cpu: nat)
    requires Inv(w) && p in w.slabs && SizeOk(w.slabs[p].size) && i < Num(w.slabs[p].size) && cpu < CPU_NUM
    requires w.slabs[p].size in w.caches
    requires var a := Obj(p, w.slabs[p].size, i); a in w.place && w.place[a] == Live
    requires cpu < |w.caches[w.slabs[p].size].ac| ==> |w.caches[w.slabs[p].size].ac[cpu]| < AC_LIMIT
    ensures cpu < |w.caches[w.slabs[p].size].ac|
    ensures Moving(w, Pushed(w, w.slabs[p].size, cpu, Obj(p, w.slabs[p].size, i)), p, i)
  {
    Whereabouts(w, p, i);
    hide Inv, Num, Obj, ListOk;
    var z, a := w.slabs[p].size, Obj(p, w.slabs[p].size, i);
    PushStack(w.caches[z].ac, cpu, a);
    SameIndex(w.slabs[p], i, Cached(cpu, |w.caches[z].ac[cpu]|));
    hide IndexMoves, StackMoves;
    assert w.slabs == w.slabs[p := w.slabs[p]];
    SameLists(w, Pushed(w, z, cpu, a), z);
  }

  // A slab with an object that is not free has given out at least that one.
  lemma GivenOut(w: World, p: Addr, i: nat)
    requires Inv(w) && p in w.slabs && SizeOk(w.slabs[p].size) && i < Num(w.slabs[p].size)
    requires var a := Obj(p, w.slabs[p].size, i); a in w.place && !w.place[a].Free?
    ensures w.slabs[p].active > 0
  {
    var s := w.slabs[p];
    Whereabouts(w, p, i);
    if s.active == 0 {
      forall j | 0 <= j < |s.freelist| ensures FreeOk(w, p, j) {
        OnlyFree(w, p, j);
      }
      hide Inv, ListOk;
      IndicesDiffer(w, p);
      AllTaken(s.freelist, i);
      assert false;
    }
  }

  lemma IndicesDiffer(w: World, p: Addr)
    requires p in w.slabs && SlabOk(p, w.slabs[p]) && forall j :: 0 <= j < |w.slabs[p].freelist| ==> FreeOk(w, p, j)
    ensures var q := w.slabs[p].freelist;
            (forall j, k :: 0 <= j < k < |q| ==> q[j] != q[k])
            && forall j :: 0 <= j < |q| ==> q[j] < |q|
  {
    var q := w.slabs[p].freelist;
    forall j, k | 0 <= j < k < |q| ensures q[j] != q[k] {
      assert FreeOk(w, p, j) && FreeOk(w, p, k);
    }
    forall j | 0 <= j < |q| ensures q[j] < |q| {
      assert FreeOk(w, p, j);
    }
  }

  // The object i of the slab p is at the top of a CPU's stack, and the slab has given it out.
  ghost predicate OnTop(w: World, p: Addr, i: nat, cpu: nat) {
    && p in w.slabs && SlabOk(p, w.slabs[p]) && w.slabs[p].active > 0 && i < Num(w.slabs[p].size)
    && w.slabs[p].size in w.caches
    && var ac := w.caches[w.slabs[p].size].ac;
    cpu < |ac| && ac[cpu] != [] && ac[cpu][|ac[cpu]| - 1] == Obj(p, w.slabs[p].size, i)
  }

  // The top of the stack goes back to its slab; the size class becomes c.
  function Flushed(w: World, p: Addr, i: nat, c: Cache): World
    requires p in w.slabs && SlabOk(p, w.slabs[p]) && w.slabs[p].active > 0
  {
    var s := w.slabs[p];
    World(w.slabs[p := s.(active := s.active - 1, freelist := s.freelist[s.active - 1 := i])],
          w.caches[s.size := c], w.place[Obj(p, s.size, i) := Free(s.active - 1)])
  }

  // The size class after that.
  function AfterFlush(c: Cache, p: Addr, cpu: nat, active: nat, num: nat): Cache
    requires cpu < |c.ac| && c.ac[cpu] != []
  {
    Returned(c.(ac := c.ac[cpu := c.ac[cpu][..|c.ac[cpu]| - 1]]), p, active, num)
  }

  lemma FlushedStack(c: Cache, p: Addr, cpu: nat, active: nat, num: nat)
    requires cpu < |c.ac| && c.ac[cpu] != []
    ensures AfterFlush(c, p, cpu, active, num).ac == c.ac[cpu := c.ac[cpu][..|c.ac[cpu]| - 1]]
  {
  }

  lemma FlushObj(w: World, p: Addr, i: nat, c: Cache)
    requires p in w.slabs && SlabOk(p, w.slabs[p]) && w.slabs[p].active > 0 && i < Num(w.slabs[p].size)
    ensures var w' := Flushed(w, p, i, c); p in w'.slabs && SlabOk(p, w'.slabs[p]) && ObjOk(w', p, i)
  {
    hide Num, Obj;
  }

  lemma FlushMoves(w: World, p: Addr, i: nat, cpu: nat, c: Cache)
    requires Inv(w) && OnTop(w, p, i, cpu)
    requires var ac := w.caches[w.slabs[p].size].ac; c.ac == ac[cpu := ac[cpu][..|ac[cpu]| - 1]]
    requires ListOk(Flushed(w, p, i, c), w.slabs[p].size, c.partial)
    requires ListOk(Flushed(w, p, i, c), w.slabs[p].size, c.free)
    ensures Moving(w, Flushed(w, p, i, c), p, i)
  {
    hide Inv, Num, Obj, ListOk, IndexMoves, StackMoves, AcOk, ObjOk;
    var s := w.slabs[p];
    Whereabouts(w, p, i);
    AcLengths(w.caches[s.size].ac);
    FlushObj(w, p, i, c);
    PopStack(w.caches[s.size].ac, cpu, Free(s.active - 1));
    FlushIndex(s, i);
    PopAc(w.caches[s.size].ac, cpu);
  }

  // ---- what the invariant means ----

  ghost predicate InIndex(s: SlabNode, i: nat) { exists j :: s.active <= j < |s.freelist| && s.freelist[j] == i }

  ghost predicate OnStack(ac: seq<seq<Addr>>,
                          a: Addr) { exists c, k :: 0 <= c < |ac| && 0 <= k < |ac[c]| && ac[c][k] == a }

  // The indices of a slab split exactly into free ones, cached ones and live ones.
  lemma ExactlyOne(w: World, p: Addr, i: nat)
    requires Inv(w) && p in w.slabs && SizeOk(w.slabs[p].size) && i < Num(w.slabs[p].size)
    ensures var s := w.slabs[p]; var a := Obj(p, s.size, i);
            && s.size in w.caches && a in w.place
            && (InIndex(s, i) <==> w.place[a].Free?) && (OnStack(w.caches[s.size].ac, a) <==> w.place[a].Cached?)
  {
    Whereabouts(w, p, i);
    assert ObjOk(w, p, i);
    hide Inv, Num, Obj, ListOk;
  }

  // Two objects do not overlap, whoever has them.
  lemma LiveSafe(w: World, a: Addr, b: Addr)
    requires Inv(w) && a in w.place && b in w.place && a != b
    ensures Page(a) in w.slabs && Page(b) in w.slabs
    ensures var m, n := w.slabs[Page(a)].size, w.slabs[Page(b)].size; a + m <= b || b + n <= a
  {
    assert IsObj(w, w.slabs[Page(a)].size, a) && IsObj(w, w.slabs[Page(b)].size, b);
    var p, q := Page(a), Page(b);
    var m, n := w.slabs[p].size, w.slabs[q].size;
    assert SlabOk(p, w.slabs[p]) && SlabOk(q, w.slabs[q]);
    hide Inv, Num;
    var i :| 0 <= i < Num(m) && a == Obj(p, m, i);
    var j :| 0 <= j < Num(n) && b == Obj(q, n, j);
    hide Obj;
    Disjoint(p, m, i, q, n, j);
  }

  // ---- a new slab ----

  ghost function Objs(p: Addr, size: nat): set<Addr>
    requires SizeOk(size)
  {
    set i | 0 <= i < Num(size) :: Obj(p, size, i)
  }

  // The page p becomes a slab of the given size, all of whose objects are free; the size class becomes c.
  ghost function Added(w: World, p: Addr, size: nat, c: Cache): World
    requires SizeOk(size)
  {
    World(w.slabs[p := SlabNode(size, 0, seq(Num(size), i => i))], w.caches[size := c],
          map a | a in w.place.Keys + Objs(p, size) :: if a in Objs(p, size)
              then Free(if Index(p, size, a) >= 0 then Index(p, size, a) else 0) else w.place[a])
  }

  ghost predicate Adding(w: World, p: Addr, size: nat, c: Cache) {
    && SizeOk(size) && p % PAGE_SIZE == 0 && p !in w.slabs && AcOk(c.ac)
    && (if size in w.caches then c.ac == w.caches[size].ac else c.ac == [[], [], [], []])
    && ListOk(Added(w, p, size, c), size, c.partial) && ListOk(Added(w, p, size, c), size, c.free)
  }

  lemma AddPlace(w: World, p: Addr, size: nat, c: Cache, a: Addr)
    requires Slabs(w) && Places(w) && Adding(w, p, size, c) && a in w.place
    ensures a !in Objs(p, size) && a in Added(w, p, size, c).place && Added(w, p, size, c).place[a] == w.place[a]
  {
    if a in Objs(p, size) {
      var i :| 0 <= i < Num(size) && a == Obj(p, size, i);
      PageOf(p, size, i);
      assert false;
    }
  }

  lemma AddNew(w: World, p: Addr, size: nat, c: Cache, i: nat)
    requires Adding(w, p, size, c) && i < Num(size)
    ensures Obj(p, size, i) in Added(w, p, size, c).place && Added(w, p, size, c).place[Obj(p, size, i)] == Free(i)
  {
    IndexOf(p, size, i);
    assert Obj(p, size, i) in Objs(p, size);
  }

  lemma AddSlabs(w: World, p: Addr, size: nat, c: Cache)
    requires Slabs(w) && Lists(w) && Adding(w, p, size, c)
    ensures Slabs(Added(w, p, size, c)) && Lists(Added(w, p, size, c))
  {
    hide Num, Obj, Index, Objs, CacheOk;
    var w' := Added(w, p, size, c);
    assert Slabs(w') by { hide Lists; }
    hide Slabs;
    forall z | z in w'.caches ensures CacheOk(w', z) {
      AddCache(w, p, size, c, z);
    }
  }

  lemma AddCache(w: World, p: Addr, size: nat, c: Cache, z: nat)
    requires Adding(w, p, size, c) && z in Added(w, p, size, c).caches && (z in w.caches ==> CacheOk(w, z))
    ensures CacheOk(Added(w, p, size, c), z)
  {
    hide Num, Obj, Index, Objs;
  }

  lemma AddObject(w: World, p: Addr, size: nat, c: Cache, q: Addr, i: nat)
    requires Slabs(w) && Objects(w) && Lists(w) && Places(w) && Adding(w, p, size, c) && Slabs(Added(w, p, size, c))
    requires q in Added(w, p, size, c).slabs && i < Num(Added(w, p, size, c).slabs[q].size)
    ensures ObjOk(Added(w, p, size, c), q, i)
  {
    if q == p {
      AddNew(w, p, size, c, i);
      hide Added, Adding;
      AddedSlab(w, p, size, c);
    } else {
      assert ObjOk(w, q, i);
      AddPlace(w, p, size, c, Obj(q, w.slabs[q].size, i));
      hide Num, Obj, Index, Objs, ListOk, Places, Objects;
    }
  }

  lemma AddedSlab(w: World, p: Addr, size: nat, c: Cache)
    requires SizeOk(size)
    ensures p in Added(w, p, size, c).slabs
    ensures Added(w, p, size, c).slabs[p] == SlabNode(size, 0, seq(Num(size), i => i))
  {
    hide Num, Obj, Index, Objs;
  }

  lemma AddFree(w: World, p: Addr, size: nat, c: Cache, q: Addr, j: nat)
    requires Slabs(w) && Frees(w) && Places(w) && Adding(w, p, size, c) && Slabs(Added(w, p, size, c))
    requires q in Added(w, p, size, c).slabs
    requires Added(w, p, size, c).slabs[q].active <= j < |Added(w, p, size, c).slabs[q].freelist|
    ensures FreeOk(Added(w, p, size, c), q, j)
  {
    if q == p {
      AddedSlab(w, p, size, c);
      AddNew(w, p, size, c, j);
      hide Added, Adding;
    } else {
      assert FreeOk(w, q, j);
      AddPlace(w, p, size, c, Obj(q, w.slabs[q].size, w.slabs[q].freelist[j]));
      hide Num, Obj, Index, Objs, ListOk, Places, Frees;
    }
  }

  lemma AddStack(w: World, p: Addr, size: nat, c: Cache, z: nat, cpu: nat, k: nat)
    requires Slabs(w) && Lists(w) && Stacks(w) && Places(w) && Adding(w, p, size, c) && Lists(Added(w, p, size, c))
    requires z in Added(w, p, size, c).caches && cpu < CPU_NUM && k < |Added(w, p, size, c).caches[z].ac[cpu]|
    ensures CachedOk(Added(w, p, size, c), z, cpu, k)
  {
    hide Num, Obj, Index, Objs, ListOk;
    assert z in w.caches;
    assert CachedOk(w, z, cpu, k);
    var a := w.caches[z].ac[cpu][k];
    AddPlace(w, p, size, c, a);
    StillObj(w, Added(w, p, size, c), z, a);
  }

  lemma AddPlaces(w: World, p: Addr, size: nat, c: Cache)
    requires Slabs(w) && Places(w) && Adding(w, p, size, c)
    ensures Places(Added(w, p, size, c))
  {
    var w' := Added(w, p, size, c);
    forall a | a in w'.place ensures Page(a) in w'.slabs && IsObj(w', w'.slabs[Page(a)].size, a) {
      if a in Objs(p, size) {
        var i :| 0 <= i < Num(size) && a == Obj(p, size, i);
        PageOf(p, size, i);
        hide Num, Obj, Page, Index;
      } else {
        hide Num, Obj, Index, Objs, ListOk;
        assert a in w.place;
        StillObj(w, w', w.slabs[Page(a)].size, a);
      }
    }
  }

  lemma AddInv(w: World, p: Addr, size: nat, c: Cache)
    requires Inv(w) && Adding(w, p, size, c)
    ensures Inv(Added(w, p, size, c))
  {
    var w' := Added(w, p, size, c);
    hide Num, Obj, Added, Adding, ListOk;
    AddSlabs(w, p, size, c);
    AddPlaces(w, p, size, c);
    assert Objects(w') by {
      hide Places, Stacks, Frees, Lists, ObjOk;
      forall q, i | q in w'.slabs && 0 <= i < Num(w'.slabs[q].size) ensures ObjOk(w', q, i) {
        AddObject(w, p, size, c, q, i);
      }
    }
    assert Frees(w') by {
      hide Places, Stacks, Objects, Lists, FreeOk;
      forall q, j | q in w'.slabs && w'.slabs[q].active <= j < |w'.slabs[q].freelist| ensures FreeOk(w', q, j) {
        AddFree(w, p, size, c, q, j);
      }
    }
    assert Stacks(w') by {
      hide Places, Frees, Objects, Slabs, CachedOk;
      forall z, cpu, k | z in w'.caches && 0 <= cpu < CPU_NUM && 0 <= k < |w'.caches[z].ac[cpu]|
        ensures CachedOk(w', z, cpu, k)
      {
        AddStack(w, p, size, c, z, cpu, k);
      }
    }
  }

  // ---- the lists of slabs ----

  // _detach_from_list, from whichever list holds p.
  function Drop(q: seq<Addr>, p: Addr): (r: seq<Addr>)
    ensures forall x :: x in r <==> x in q && x != p
  {
    if q == [] then [] else if q[0] == p then Drop(q[1..], p) else [q[0]] + Drop(q[1..], p)
  }

  function Detached(c: Cache, p: Addr): Cache { Cache(c.ac, Drop(c.partial, p), Drop(c.full, p), Drop(c.free, p)) }

  // After an object of p was given out: a slab with none left goes to the full list.
  function Sorted(c: Cache, p: Addr, full: bool): Cache {
    if full then Detached(c, p).(full := Drop(c.full, p) + [p]) else c
  }

  // Taking from the free list: the slab leaves it at any rate.
  function Promoted(c: Cache, p: Addr, full: bool): Cache {
    var d := Detached(c, p);
    if full then d.(full := d.full + [p]) else d.(partial := d.partial + [p])
  }

  // After an object came back: the slab has just one free object, or is all free, or else is in no list.
  function Returned(c: Cache, p: Addr, active: nat, num: nat): Cache {
    var d := Detached(c, p);
    if active + 1 == num then d.(partial := [p] + d.partial) else if active == 0 then d.(free := [p] + d.free) else d
  }

  // Lists that hold p only while it has an object left.
  lemma ListAfter(w: World, w': World, z: nat, q: seq<Addr>, q': seq<Addr>, p: Addr)
    requires ListOk(w, z, q) && p in w'.slabs && w'.slabs == w.slabs[p := w'.slabs[p]] && w'.slabs[p].size == z
    requires SizeOk(z)
    requires forall x :: x in q' ==> x in q || x == p
    requires p in q' ==> w'.slabs[p].active < Num(z)
    ensures ListOk(w', z, q')
  {
    hide Num;
  }

  // The client that asks has the object, and everyone else what they had.
  ghost predicate LiveAfter(w: World, w': World, a: Addr) {
    && a in w'.place && w'.place[a] == Live && (a in w.place ==> w.place[a] != Live)
    && forall x :: x != a ==> (x in w'.place && w'.place[x] == Live <==> x in w.place && w.place[x] == Live)
  }

  ghost predicate DeadAfter(w: World, w': World, a: Addr) {
    && a in w'.place && w'.place[a] != Live
    && forall x :: x != a ==> (x in w'.place && w'.place[x] == Live <==> x in w.place && w.place[x] == Live)
  }

  /** The allocator. */
  class Allocator {
    var slabs: map<Addr, SlabNode>
    var caches: map<nat, Cache>
    ghost var place: map<Addr, Place>

    ghost function W(): World
      reads this
    {
      World(slabs, caches, place)
    }

    constructor ()
      ensures Inv(W()) && slabs == map[] && caches == map[] && place == map[]
    {
      slabs, caches, place := map[], map[], map[];
    }

    // alloc_obj on a slab that has an object left, and the change of lists that follows.
    method AllocObj(p: Addr, promote: bool) returns (a: Addr)
      requires Inv(W()) && Ready(W(), p)
      modifies this
      ensures Inv(W()) && LiveAfter(old(W()), W(), a) && IsObj(W(), old(slabs)[p].size, a)
      ensures Page(a) == p && a in old(place) && old(place)[a] == Free(old(slabs)[p].active)
      ensures slabs == old(slabs)[p := old(slabs)[p].(active := old(slabs)[p].active + 1)]
      ensures ListsTaken(old(W()), W(), p, promote)
    {
      hide Inv, IsObj, LiveAfter, Num, Obj, AfterTake, ListsTaken, Page;
      AllocDone(W(), p, promote);
      NextFree(W(), p);
      AllocTaken(W(), p, promote);
      var s := slabs[p];
      a := Obj(p, s.size, s.freelist[s.active]);
      slabs := slabs[p := s.(active := s.active + 1)];
      caches := caches[s.size := AfterTake(caches[s.size], p, promote, s.active + 1 >= Num(s.size))];
      place := place[a := Live];
    }

    // A fresh page becomes a slab in the partial list: init_slab_node, and init_cache_node for a new size class.
    method NewSlab(p: Addr, size: nat)
      requires Inv(W()) && SizeOk(size) && p % PAGE_SIZE == 0 && p !in slabs
      modifies this
      ensures Inv(W()) && Ready(W(), p) && slabs[p].size == size && SameLive(old(W()), W())
    {
      var c := if size in caches then caches[size].(partial := [p] + caches[size].partial)
          else Cache([[], [], [], []], [p], [], []);
      SlabDone(W(), p, size, c);
      hide Inv, Num, SameLive, Ready;
      slabs := slabs[p := SlabNode(size, 0, seq(Num(size), i => i))];
      caches := caches[size := c];
      place := Added(old(W()), p, size, c).place;
    }

    // kalloc on the CPU cpu; page is the one that kalloc_page would hand out, 0 if there is none. False for the
    // store through that NULL: there is no page, and no object of the size in reach.
    method Kalloc(size: nat, cpu: nat, page: Addr) returns (ok: bool, a: Addr)
      requires Inv(W()) && 0 < size < 2048 && cpu < CPU_NUM && page % PAGE_SIZE == 0 && (page != 0 ==> page !in slabs)
      modifies this
      ensures ok <==> page != 0 || exists a :: InReach(old(W()), size, cpu, a)
      ensures Inv(W()) && if ok then LiveAfter(old(W()), W(), a) && IsObj(W(), size, a) else W() == old(W())
      ensures (exists b :: InReach(old(W()), size, cpu, b)) ==>
                InReach(old(W()), size, cpu, a) && slabs.Keys == old(slabs).Keys
      ensures size in old(caches) && cpu < |old(caches)[size].ac| && old(caches)[size].ac[cpu] != [] ==>
                a == old(caches)[size].ac[cpu][|old(caches)[size].ac[cpu]| - 1]
      ensures ok && (forall b :: !InReach(old(W()), size, cpu, b)) ==> Page(a) == page
    {
      hide Inv, Num, IsObj, SlabOk, LiveAfter, InReach, ListsTaken;
      ghost var w := W();
      Reach(w, size, cpu);
      ok, a := true, 0;
      if size !in caches {
        if page == 0 {
          return false, 0;
        }
        NewSlab(page, size);
        ghost var w1 := W();
        a := AllocObj(page, false);
        LiveThen(w, w1, W(), a);
        return;
      }
      ClassKnown(w, size);
      if caches[size].ac[cpu] != [] {
        a := Pop(size, cpu);
        return;
      }
      if caches[size].partial != [] {
        ListReady(w, size, caches[size].partial);
        a := AllocObj(caches[size].partial[0], false);
        FreeReach(w, size, cpu, a);
        return;
      }
      if caches[size].free != [] {
        ListReady(w, size, caches[size].free);
        a := AllocObj(caches[size].free[0], true);
        FreeReach(w, size, cpu, a);
        return;
      }
      if page == 0 {
        return false, 0;
      }
      NewSlab(page, size);
      ghost var w1 := W();
      a := AllocObj(page, false);
      LiveThen(w, w1, W(), a);
    }

    // kalloc from the stack of the CPU.
    method Pop(size: nat, cpu: nat) returns (a: Addr)
      requires Inv(W()) && size in caches && cpu < CPU_NUM && cpu < |caches[size].ac| && caches[size].ac[cpu] != []
      requires SizeOk(size)
      modifies this
      ensures Inv(W()) && LiveAfter(old(W()), W(), a) && IsObj(W(), size, a)
      ensures a == old(caches)[size].ac[cpu][|old(caches)[size].ac[cpu]| - 1] && InReach(old(W()), size, cpu, a)
      ensures slabs == old(slabs)
    {
      hide Inv, Num, IsObj, LiveAfter, InReach;
      TopReach(W(), size, cpu);
      PopDone(W(), size, cpu);
      var q := caches[size].ac[cpu];
      a := q[|q| - 1];
      caches := caches[size := caches[size].(ac := caches[size].ac[cpu := q[..|q| - 1]])];
      place := place[a := Live];
    }

    // cache_flusharray: the object at the top of the CPU's stack goes back to its slab.
    method FlushArray(size: nat, cpu: nat)
      requires Inv(W()) && size in caches && cpu < CPU_NUM && cpu < |caches[size].ac| && caches[size].ac[cpu] != []
      requires SizeOk(size)
      modifies this
      ensures Inv(W()) && SameLive(old(W()), W()) && SameClasses(old(W()), W())
      ensures size in caches && cpu < |caches[size].ac| && |caches[size].ac[cpu]| == |old(caches)[size].ac[cpu]| - 1
      ensures Drained(old(W()), W(), size, cpu)
    {
      hide Inv, Num, Index, SameLive, OnTop, AfterFlush, Obj, SameClasses, Drained;
      ghost var i := TopOfStack(W(), size, cpu);
      var q := caches[size].ac[cpu];
      var p := Page(q[|q| - 1]);
      var index := Index(p, size, q[|q| - 1]);
      FlushInv(W(), p, i, cpu);
      FlushSame(W(), p, i, cpu);
      FlushDrains(W(), p, i, cpu);
      FlushedStack(caches[size], p, cpu, slabs[p].active - 1, Num(size));
      hide SlabOk;
      var s := slabs[p];
      slabs := slabs[p := s.(active := s.active - 1, freelist := s.freelist[s.active - 1 := index])];
      caches := caches[size := AfterFlush(caches[size], p, cpu, s.active - 1, Num(size))];
      place := place[q[|q| - 1] := Free(s.active - 1)];
    }

    // kfree of an object that a client has: it goes to the stack of the CPU; no page is ever given back.
    method Kfree(a: Addr, cpu: nat)
      requires Inv(W()) && a in place && place[a] == Live && cpu < CPU_NUM
      modifies this
      ensures Inv(W()) && DeadAfter(old(W()), W(), a)
      ensures Page(a) in slabs && slabs[Page(a)].size in caches && slabs[Page(a)].size == old(slabs)[Page(a)].size
      ensures var ac := caches[slabs[Page(a)].size].ac; cpu < |ac| && ac[cpu] != [] && ac[cpu][|ac[cpu]| - 1] == a
    {
      hide Inv, Num, Obj, SlabOk, SizeOk, SameLive;
      ghost var w := W();
      var p := Page(a);
      ghost var i := LiveObject(w, a);
      var z := slabs[p].size;
      if |caches[z].ac[cpu]| == AC_LIMIT {
        FlushArray(z, cpu);
      } else {
        SameSelf(w);
      }
      ghost var w1 := W();
      StillLive(w, w1, a);
      assert |caches[z].ac[cpu]| < AC_LIMIT;
      PushDone(w1, p, i, cpu);
      caches := caches[z := caches[z].(ac := caches[z].ac[cpu := caches[z].ac[cpu] + [a]])];
      place := place[a := Cached(cpu, |caches[z].ac[cpu]| - 1)];
      DeadThen(w, w1, W(), a);
      if |caches[z].ac[cpu]| == 0 {
        // Here kfree would give the page back if no slab of the class were in use; the stack is never empty.
        assert false;
      }
    }
  }

  // An object that a client gives back is the next one of its size on that CPU, even without a page.
  method FreeThenTake(m: Allocator, a: Addr, cpu: nat) returns (b: Addr)
    requires Inv(m.W()) && a in m.place && m.place[a] == Live && cpu < CPU_NUM
    modifies m
    ensures b == a && Inv(m.W()) && SameLive(old(m.W()), m.W())
  {
    hide Inv, Num, Obj, InReach;
    ghost var _ := LiveObject(m.W(), a);
    var z := m.slabs[Page(a)].size;
    m.Kfree(a, cpu);
    Reach(m.W(), z, cpu);
    var ok;
    ok, b := m.Kalloc(z, cpu, 0);
  }

  // Clients have what they had.
  ghost predicate SameLive(w: World, w': World) {
    forall x :: (x in w'.place && w'.place[x] == Live) <==> (x in w.place && w.place[x] == Live)
  }

  lemma SameSelf(w: World)
    ensures SameLive(w, w)
  {
  }

  lemma LiveThen(w: World, w1: World, w2: World, a: Addr)
    requires SameLive(w, w1) && LiveAfter(w1, w2, a)
    ensures LiveAfter(w, w2, a)
  {
  }

  lemma DeadThen(w: World, w1: World, w2: World, a: Addr)
    requires SameLive(w, w1) && DeadAfter(w1, w2, a)
    ensures DeadAfter(w, w2, a)
  {
  }

  lemma StillLive(w: World, w1: World, a: Addr)
    requires SameLive(w, w1) && a in w.place && w.place[a] == Live
    ensures a in w1.place && w1.place[a] == Live
  {
  }

  lemma SlabDone(w: World, p: Addr, size: nat, c: Cache)
    requires Inv(w) && SizeOk(size) && p % PAGE_SIZE == 0 && p !in w.slabs
    requires c == if size in w.caches then w.caches[size].(partial := [p] + w.caches[size].partial)
               else Cache([[], [], [], []], [p], [], [])
    ensures Inv(Added(w, p, size, c)) && Ready(Added(w, p, size, c), p) && Added(w, p, size, c).slabs[p].size == size
    ensures SameLive(w, Added(w, p, size, c))
  {
    var w' := Added(w, p, size, c);
    NumBounds(size);
    AddedSlab(w, p, size, c);
    SlabLists(w, p, size, c);
    hide Num, Obj, Index, ListOk, Objs;
    AddInv(w, p, size, c);
    forall x | x in w.place ensures x !in Objs(p, size) {
      AddPlace(w, p, size, c, x);
    }
  }

  lemma SlabLists(w: World, p: Addr, size: nat, c: Cache)
    requires Lists(w) && SizeOk(size) && p !in w.slabs && Num(size) >= 1
    requires c == if size in w.caches then w.caches[size].(partial := [p] + w.caches[size].partial)
               else Cache([[], [], [], []], [p], [], [])
    ensures ListOk(Added(w, p, size, c), size, c.partial) && ListOk(Added(w, p, size, c), size, c.free) && AcOk(c.ac)
  {
    hide Num, Obj, Index, Objs;
  }

  // An object of the size that this CPU can have without a new page: it is in the CPU's own stack, or it is free and
  // its slab is in one of the lists for allocation.
  ghost predicate InReach(w: World, size: nat, cpu: nat, a: Addr) {
    && a in w.place && IsObj(w, size, a)
    && match w.place[a]
       case Free(_) => size in w.caches && (Page(a) in w.caches[size].partial || Page(a) in w.caches[size].free)
       case Cached(c, _) => c == cpu
       case Live => false
  }

  lemma ReachBack(w: World, size: nat, cpu: nat, a: Addr)
    requires Inv(w) && cpu < CPU_NUM && InReach(w, size, cpu, a)
    ensures size in w.caches && AcOk(w.caches[size].ac)
    ensures var c := w.caches[size]; c.ac[cpu] != [] || c.partial != [] || c.free != []
  {
    var p := Page(a);
    var i :| 0 <= i < Num(size) && a == Obj(p, size, i);
    assert size in w.caches && ObjOk(w, p, i) by { hide Frees, Lists, Stacks, Places, Num, Obj; }
    ClassKnown(w, size);
    hide Inv, Num, Obj, ListOk;
  }

  lemma ReachList(w: World, z: nat, cpu: nat, q: seq<Addr>)
    requires Inv(w) && z in w.caches && q != [] && (q == w.caches[z].partial || q == w.caches[z].free)
    ensures exists a :: InReach(w, z, cpu, a)
  {
    ClassKnown(w, z);
    var p := q[0];
    assert p in q;
    var s := w.slabs[p];
    assert FreeOk(w, p, s.active) && SlabOk(p, s) by { hide Objects, Lists, Stacks, Places, Num, Obj; }
    var a := Obj(p, z, s.freelist[s.active]);
    PageOf(p, z, s.freelist[s.active]);
    hide Inv, Num, Obj, ListOk;
    assert IsObj(w, z, a);
    assert InReach(w, z, cpu, a);
  }

  lemma Reach(w: World, size: nat, cpu: nat)
    requires Inv(w) && cpu < CPU_NUM
    ensures size in w.caches ==> AcOk(w.caches[size].ac)
    ensures (exists a :: InReach(w, size, cpu, a)) <==>
              size in w.caches
              && var c := w.caches[size]; c.ac[cpu] != [] || c.partial != [] || c.free != []
  {
    hide Inv, InReach, Num, Obj, SlabOk;
    forall a | InReach(w, size, cpu, a)
      ensures size in w.caches && AcOk(w.caches[size].ac)
              && var c := w.caches[size]; c.ac[cpu] != [] || c.partial != [] || c.free != []
    {
      ReachBack(w, size, cpu, a);
    }
    if size in w.caches {
      ClassKnown(w, size);
      var c := w.caches[size];
      if c.ac[cpu] != [] {
        TopReach(w, size, cpu);
      } else if c.partial != [] {
        ReachList(w, size, cpu, c.partial);
      } else if c.free != [] {
        ReachList(w, size, cpu, c.free);
      }
    }
  }

  lemma TopReach(w: World, z: nat, cpu: nat)
    requires Inv(w) && z in w.caches && cpu < CPU_NUM && cpu < |w.caches[z].ac| && w.caches[z].ac[cpu] != []
    requires SizeOk(z)
    ensures InReach(w, z, cpu, w.caches[z].ac[cpu][|w.caches[z].ac[cpu]| - 1])
  {
    var i := TopObject(w, z, cpu);
    hide Inv, Num, Obj;
  }

  lemma FreeReach(w: World, z: nat, cpu: nat, a: Addr)
    requires Inv(w) && z in w.caches && a in w.place && w.place[a].Free? && Page(a) in w.slabs
    requires w.slabs[Page(a)].size == z
    requires Page(a) in w.caches[z].partial || Page(a) in w.caches[z].free
    ensures InReach(w, z, cpu, a)
  {
    hide Slabs, Objects, Frees, Lists, Stacks, IsObj;
  }

  lemma ClassKnown(w: World, z: nat)
    requires Inv(w) && z in w.caches
    ensures AcOk(w.caches[z].ac) && SizeOk(z) && ListOk(w, z, w.caches[z].partial) && ListOk(w, z, w.caches[z].free)
  {
    hide Slabs, Objects, Frees, Stacks, Places, ListOk;
  }

  lemma ListReady(w: World, z: nat, q: seq<Addr>)
    requires Inv(w) && z in w.caches && q != [] && ListOk(w, z, q)
    ensures Ready(w, q[0]) && w.slabs[q[0]].size == z
  {
    assert q[0] in q;
    hide Objects, Frees, Stacks, Places, Num;
  }

  lemma PopDone(w: World, z: nat, cpu: nat)
    requires Inv(w) && z in w.caches && cpu < CPU_NUM && cpu < |w.caches[z].ac| && w.caches[z].ac[cpu] != []
    requires SizeOk(z)
    ensures var q := w.caches[z].ac[cpu];
            Inv(Popped(w, z, cpu)) && LiveAfter(w, Popped(w, z, cpu), q[|q| - 1])
            && IsObj(Popped(w, z, cpu), z, q[|q| - 1])
  {
    hide Inv, Num, Obj, Moving;
    var i := TopObject(w, z, cpu);
    PopMoves(w, z, cpu, i);
    var q := w.caches[z].ac[cpu];
    MoveInv(w, Popped(w, z, cpu), Page(q[|q| - 1]), i);
    hide SlabOk;
  }

  // Slabs and size classes are the same ones, with room for the stacks of all CPUs.
  ghost predicate SameClasses(w: World, w': World) {
    && w'.slabs.Keys == w.slabs.Keys
    && (forall p :: p in w.slabs ==> p in w'.slabs && w'.slabs[p].size == w.slabs[p].size)
    && w'.caches.Keys == w.caches.Keys
    && (forall z :: z in w.caches ==> z in w'.caches && |w'.caches[z].ac| == |w.caches[z].ac|)
  }

  lemma TopOfStack(w: World, z: nat, cpu: nat) returns (i: nat)
    requires Inv(w) && z in w.caches && cpu < CPU_NUM && cpu < |w.caches[z].ac| && w.caches[z].ac[cpu] != []
    requires SizeOk(z)
    ensures var q := w.caches[z].ac[cpu]; var p := Page(q[|q| - 1]);
            && p in w.slabs && w.slabs[p].size == z && SlabOk(p, w.slabs[p]) && w.slabs[p].active > 0
            && OnTop(w, p, i, cpu)
            && Index(p, z, q[|q| - 1]) == i && q[|q| - 1] == Obj(p, z, i)
  {
    i := TopObject(w, z, cpu);
    var q := w.caches[z].ac[cpu];
    var p := Page(q[|q| - 1]);
    hide Inv, Num, Obj, Index;
    GivenOut(w, p, i);
    IndexOf(p, z, i);
  }

  // The state after the flush of the object i of p.
  ghost function FlushState(w: World, p: Addr, i: nat, cpu: nat): World
    requires OnTop(w, p, i, cpu)
  {
    Flushed(w, p, i, AfterFlush(w.caches[w.slabs[p].size], p, cpu, w.slabs[p].active - 1, Num(w.slabs[p].size)))
  }

  lemma FlushInv(w: World, p: Addr, i: nat, cpu: nat)
    requires Inv(w) && OnTop(w, p, i, cpu)
    ensures Inv(FlushState(w, p, i, cpu))
  {
    hide Inv, Num, Obj, Moving, ListOk, AfterFlush;
    var s := w.slabs[p];
    var c := AfterFlush(w.caches[s.size], p, cpu, s.active - 1, Num(s.size));
    FlushLists(w, p, i, cpu, c);
    FlushMoves(w, p, i, cpu, c);
    MoveInv(w, FlushState(w, p, i, cpu), p, i);
  }

  lemma FlushSame(w: World, p: Addr, i: nat, cpu: nat)
    requires Inv(w) && OnTop(w, p, i, cpu)
    ensures SameLive(w, FlushState(w, p, i, cpu)) && SameClasses(w, FlushState(w, p, i, cpu))
  {
    hide Inv, Num, Obj;
    TopNotLive(w, p, i, cpu);
  }

  // The top of the CPU's stack is back in its slab, as the next object that the slab gives out. The slab is in the
  // partial list if that is its only free object, else in the free list if they all are free, else in no list.
  ghost predicate Drained(w: World, w': World, size: nat, cpu: nat)
    requires SizeOk(size)
  {
    && size in w.caches && size in w'.caches && cpu < |w.caches[size].ac| && w.caches[size].ac[cpu] != []
    && var c, c' := w.caches[size], w'.caches[size];
    && var top := c.ac[cpu][|c.ac[cpu]| - 1];
    && var p := Page(top);
    && c'.ac == c.ac[cpu := c.ac[cpu][..|c.ac[cpu]| - 1]] && w'.caches == w.caches[size := c']
    && p in w.slabs && p in w'.slabs && w'.slabs == w.slabs[p := w'.slabs[p]]
    && var k := w'.slabs[p].active;
    && k + 1 == w.slabs[p].active && w'.place == w.place[top := Free(k)]
    && k < |w'.slabs[p].freelist| && Obj(p, size, w'.slabs[p].freelist[k]) == top
    && (forall x :: x != p ==>
          && (x in c'.partial <==> x in c.partial) && (x in c'.full <==> x in c.full)
             && (x in c'.free <==> x in c.free))
    && p !in c'.full && (p in c'.partial <==> k + 1 == Num(size)) && (p in c'.free <==> k == 0 && Num(size) != 1)
  }

  lemma FlushDrains(w: World, p: Addr, i: nat, cpu: nat)
    requires OnTop(w, p, i, cpu)
    ensures Drained(w, FlushState(w, p, i, cpu), w.slabs[p].size, cpu)
  {
    PageOf(p, w.slabs[p].size, i);
    hide Num, Obj, Page;
  }

  lemma TopNotLive(w: World, p: Addr, i: nat, cpu: nat)
    requires Inv(w) && OnTop(w, p, i, cpu)
    ensures var a := Obj(p, w.slabs[p].size, i); a in w.place && w.place[a] != Live
  {
    Whereabouts(w, p, i);
    hide Inv, Num, Obj, ListOk;
  }

  lemma FlushLists(w: World, p: Addr, i: nat, cpu: nat, c: Cache)
    requires Inv(w) && OnTop(w, p, i, cpu)
    requires var s := w.slabs[p]; c == AfterFlush(w.caches[s.size], p, cpu, s.active - 1, Num(s.size))
    ensures var ac := w.caches[w.slabs[p].size].ac; c.ac == ac[cpu := ac[cpu][..|ac[cpu]| - 1]]
    ensures ListOk(Flushed(w, p, i, c), w.slabs[p].size, c.partial)
    ensures ListOk(Flushed(w, p, i, c), w.slabs[p].size, c.free)
  {
    var z, w' := w.slabs[p].size, Flushed(w, p, i, c);
    ClassKnown(w, z);
    hide Inv, Num, Obj, ListOk;
    ListAfter(w, w', z, w.caches[z].partial, c.partial, p);
    ListAfter(w, w', z, w.caches[z].free, c.free, p);
  }

  lemma LiveObject(w: World, a: Addr) returns (i: nat)
    requires Inv(w) && a in w.place
    ensures var p := Page(a);
            p in w.slabs && SizeOk(w.slabs[p].size) && w.slabs[p].size in w.caches
            && i < Num(w.slabs[p].size) && a == Obj(p, w.slabs[p].size, i)
    ensures AcOk(w.caches[w.slabs[Page(a)].size].ac)
  {
    var p := Page(a);
    assert IsObj(w, w.slabs[p].size, a);
    i :| 0 <= i < Num(w.slabs[p].size) && a == Obj(p, w.slabs[p].size, i);
    hide Objects, Frees, Stacks, Places, Num, Obj;
    ClassKnown(w, w.slabs[p].size);
  }

  lemma PushDone(w: World, p: Addr, i: nat, cpu: nat)
    requires Inv(w) && p in w.slabs && SizeOk(w.slabs[p].size) && i < Num(w.slabs[p].size) && cpu < CPU_NUM
    requires w.slabs[p].size in w.caches
    requires var a := Obj(p, w.slabs[p].size, i); a in w.place && w.place[a] == Live
    requires cpu < |w.caches[w.slabs[p].size].ac| ==> |w.caches[w.slabs[p].size].ac[cpu]| < AC_LIMIT
    ensures var z, a := w.slabs[p].size, Obj(p, w.slabs[p].size, i);
            cpu < |w.caches[z].ac| && Inv(Pushed(w, z, cpu, a)) && DeadAfter(w, Pushed(w, z, cpu, a), a)
  {
    hide Inv, Num, Obj, Moving;
    PushMoves(w, p, i, cpu);
    MoveInv(w, Pushed(w, w.slabs[p].size, cpu, Obj(p, w.slabs[p].size, i)), p, i);
  }

  // The slab has an object left.
  predicate Ready(w: World, p: Addr) {
    p in w.slabs && SlabOk(p, w.slabs[p]) && w.slabs[p].size in w.caches && w.slabs[p].active < Num(w.slabs[p].size)
  }

  function AfterTake(c: Cache, p: Addr, promote: bool, full: bool): Cache {
    if promote then Promoted(c, p, full) else Sorted(c, p, full)
  }

  // The state after the slab p gave out an object.
  function Given(w: World, p: Addr, promote: bool): World
    requires Ready(w, p)
  {
    Taken(w, p, AfterTake(w.caches[w.slabs[p].size], p, promote, w.slabs[p].active + 1 >= Num(w.slabs[p].size)))
  }

  lemma AllocLists(w: World, p: Addr, promote: bool)
    requires Inv(w) && Ready(w, p)
    ensures var z, w' := w.slabs[p].size, Given(w, p, promote);
            z in w'.caches && w'.caches[z].ac == w.caches[z].ac && ListOk(w', z, w'.caches[z].partial)
              && ListOk(w', z, w'.caches[z].free)
  {
    hide Inv, ListOk, Obj, FreeOk, IsObj, Num;
    var z, w' := w.slabs[p].size, Given(w, p, promote);
    NextObject(w, p);
    ListAfter(w, w', z, w.caches[z].partial, w'.caches[z].partial, p);
    ListAfter(w, w', z, w.caches[z].free, w'.caches[z].free, p);
  }

  // The lists after the slab p gave out an object: a slab with none left is in the full list only; one taken from the
  // free list, with some left, is in the partial list. No other slab goes anywhere.
  ghost predicate ListsTaken(w: World, w': World, p: Addr, promote: bool)
    requires p in w.slabs && SizeOk(w.slabs[p].size)
  {
    var z := w.slabs[p].size;
    && z in w.caches && z in w'.caches && w'.caches == w.caches[z := w'.caches[z]]
    && var c, c' := w.caches[z], w'.caches[z];
    && c'.ac == c.ac
    && (forall x :: x != p ==>
          && (x in c'.partial <==> x in c.partial) && (x in c'.full <==> x in c.full)
             && (x in c'.free <==> x in c.free))
    && if w.slabs[p].active + 1 == Num(z) then
         p in c'.full && p !in c'.partial && p !in c'.free
       else if promote then
         p in c'.partial && p !in c'.full && p !in c'.free
       else
         c' == c
  }

  lemma AllocTaken(w: World, p: Addr, promote: bool)
    requires Ready(w, p)
    ensures ListsTaken(w, Given(w, p, promote), p, promote)
  {
    hide Num, Obj;
  }

  lemma NextFree(w: World, p: Addr)
    requires Inv(w) && Ready(w, p)
    ensures var s := w.slabs[p]; var a := Obj(p, s.size, s.freelist[s.active]);
            Page(a) == p && a in w.place && w.place[a] == Free(s.active)
  {
    hide Inv, Num, Obj, ListOk, Page;
    var s := w.slabs[p];
    NextObject(w, p);
    PageOf(p, s.size, s.freelist[s.active]);
  }

  lemma AllocDone(w: World, p: Addr, promote: bool)
    requires Inv(w) && Ready(w, p)
    ensures Inv(Given(w, p, promote))
    ensures var s := w.slabs[p]; var a := Obj(p, s.size, s.freelist[s.active]);
            LiveAfter(w, Given(w, p, promote), a)
            && IsObj(Given(w, p, promote), s.size, a)
  {
    hide Inv, ListOk, Obj, FreeOk, IsObj, Num, Moving, AfterTake;
    var s := w.slabs[p];
    var c := AfterTake(w.caches[s.size], p, promote, s.active + 1 >= Num(s.size));
    AllocLists(w, p, promote);
    TakeMoves(w, p, c);
    MoveInv(w, Given(w, p, promote), p, s.freelist[s.active]);
    NextObject(w, p);
    TakenObj(w, p, c);
  }

  // What the next object needs.
  lemma NextObject(w: World, p: Addr)
    requires Inv(w) && p in w.slabs && SizeOk(w.slabs[p].size) && w.slabs[p].active < Num(w.slabs[p].size)
    ensures SlabOk(p, w.slabs[p]) && FreeOk(w, p, w.slabs[p].active)
    ensures ListOk(w, w.slabs[p].size, w.caches[w.slabs[p].size].partial)
    ensures ListOk(w, w.slabs[p].size, w.caches[w.slabs[p].size].free)
  {
    Whereabouts(w, p, 0);
    OnlyFree(w, p, w.slabs[p].active);
  }

  lemma TakenObj(w: World, p: Addr, c: Cache)
    requires p in w.slabs && SlabOk(p, w.slabs[p]) && w.slabs[p].active < Num(w.slabs[p].size)
    requires FreeOk(w, p, w.slabs[p].active)
    ensures var s := w.slabs[p]; IsObj(Taken(w, p, c), s.size, Obj(p, s.size, s.freelist[s.active]))
  {
    var s := w.slabs[p];
    PageOf(p, s.size, s.freelist[s.active]);
    hide Num, Obj;
  }
}
