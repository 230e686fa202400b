/** Four-level page tables (src/kernel/pt.c, src/aarch64/mmu.h): tables of 512 entries that stand for a map
    from page numbers to entries. */
module PageTable {
  import opened Basics
  import opened Bits

  const PAGE_SIZE: nat := 4096
  const N: nat := 512
  const KSPACE_MASK: nat := 0xffff_0000_0000_0000
  const SPAN: nat := 0x1_0000_0000_0000

  type Table = s: seq<U64> | |s| == N witness seq(N, _ => 0)
  type Memory = map<nat, Table>
  type Path = seq<nat>

  // ---- addresses and entries ----

  // The kernel address of a page.
  predicate IsPage(t: nat) { KSPACE_MASK < t < KSPACE_MASK + SPAN && t % PAGE_SIZE == 0 }

  // K2P(t) | PTE_TABLE; the two low bits of the address of a page are clear.
  function TableEntry(t: nat): U64
    requires IsPage(t)
  {
    t - KSPACE_MASK + 3
  }

  // P2K(PTE_ADDRESS(e)): bits 12 to 47 of the entry.
  function Target(e: U64): nat {
    KSPACE_MASK + e % SPAN / PAGE_SIZE * PAGE_SIZE
  }

  predicate ValidBit(e: U64) { e % 2 == 1 }

  lemma EntryTarget(t: nat)
    requires IsPage(t)
    ensures Target(TableEntry(t)) == t && ValidBit(TableEntry(t)) && TableEntry(t) != 0
  {
    var k := t / PAGE_SIZE - 0xf_fff0_0000_0000;
    assert t - KSPACE_MASK == PAGE_SIZE * k;
    InPage(k);
    SmallMod(PAGE_SIZE * k + 3, SPAN);
    OddEntry(2048 * k + 1);
  }

  lemma InPage(k: nat)
    ensures (PAGE_SIZE * k + 3) / PAGE_SIZE == k
  {
  }

  lemma OddEntry(k: nat)
    ensures (2 * k + 1) % 2 == 1
  {
  }

  lemma SmallMod(x: nat, m: nat)
    requires x < m
    ensures x % m == x
  {
  }

  // VA_PART0 to VA_PART3.
  function Parts(va: U64): (q: Path)
    ensures |q| == 4 && forall k :: 0 <= k < 4 ==> q[k] < N
  {
    [va / 0x80_0000_0000 % N, va / 0x4000_0000 % N, va / 0x20_0000 % N, va / 0x1000 % N]
  }

  // The 36-bit page number.
  function PageNumber(va: U64): nat { va / PAGE_SIZE % 0x10_0000_0000 }

  lemma SplitPage(va: U64)
    ensures var q := Parts(va); PageNumber(va) == ((q[0] * N + q[1]) * N + q[2]) * N + q[3]
  {
    var n := va / 0x1000;
    assert va / 0x20_0000 == n / 512;
    assert va / 0x4000_0000 == n / 512 / 512;
    assert va / 0x80_0000_0000 == n / 512 / 512 / 512;
    Digit(n);
    Digit(n / 512);
    Digit(n / 512 / 512);
    var a := n / 512 / 512 / 512;
    assert a == a / 512 * 512 + a % 512;
  }

  lemma Digit(n: nat)
    ensures n == n / 512 * 512 + n % 512
  {
  }

  // Two addresses have the same parts exactly if they lie in the same page.
  lemma SameParts(a: U64, b: U64)
    ensures Parts(a) == Parts(b) <==> PageNumber(a) == PageNumber(b)
  {
    SplitPage(a);
    SplitPage(b);
    var p, q := Parts(a), Parts(b);
    if PageNumber(a) == PageNumber(b) {
      Unsplit(p[0] * N + p[1], p[2], p[3], q[0] * N + q[1], q[2], q[3]);
      OneDigit(p[0], p[1], q[0], q[1]);
      assert forall k :: 0 <= k < 4 ==> p[k] == q[k];
    }
  }

  lemma OneDigit(x: nat, a: nat, y: nat, b: nat)
    requires a < N && b < N && x * N + a == y * N + b
    ensures x == y && a == b
  {
  }

  lemma Unsplit(x: nat, a: nat, c: nat, y: nat, b: nat, d: nat)
    requires a < N && b < N && c < N && d < N && (x * N + a) * N + c == (y * N + b) * N + d
    ensures x == y && a == b && c == d
  {
    OneDigit(x * N + a, c, y * N + b, d);
    OneDigit(x, a, y, b);
  }

  // ---- the tree of tables ----

  // The tables, each with the indices that lead to it, which are the root's none.
  datatype Dir = Dir(mem: Memory, root: nat, path: map<nat, Path>)

  // What the slot i of the table t may hold: nothing, or the entry of the table one index further.
  ghost predicate SlotOk(d: Dir, t: nat, i: nat)
    requires t in d.mem && t in d.path && i < N
  {
    var e := d.mem[t][i];
    e == 0 || (ValidBit(e) && Target(e) in d.path && IsPage(Target(e)) && e == TableEntry(Target(e))
               && d.path[Target(e)] == d.path[t] + [i])
  }

  // The table that t hangs in.
  ghost predicate HangsIn(d: Dir, t: nat, u: nat)
    requires t in d.path && d.path[t] != [] && IsPage(t)
  {
    var p := d.path[t];
    u in d.path && u in d.mem && d.path[u] == p[..|p| - 1] && p[|p| - 1] < N && d.mem[u][p[|p| - 1]] == TableEntry(t)
  }

  // The table t is reached from another by its last index.
  ghost predicate Hung(d: Dir, t: nat)
    requires t in d.path && d.path[t] != [] && IsPage(t)
  {
    exists u :: HangsIn(d, t, u)
  }

  ghost predicate DirOk(d: Dir) {
    && (forall t :: t in d.path ==> IsPage(t) && t in d.mem && |d.path[t]| <= 3)
    && (d.root == NULL ==> d.path == map[])
    && (d.root != NULL ==> d.root in d.path && d.path[d.root] == [])
    && (forall t, i :: t in d.path && |d.path[t]| < 3 && 0 <= i < N ==> SlotOk(d, t, i))
    && (forall t :: t in d.path && d.path[t] == [] ==> t == d.root)
    && (forall t :: t in d.path && d.path[t] != [] ==> Hung(d, t))
  }

  // One table has given indices.
  lemma {:induction false} OneTable(d: Dir, t: nat, u: nat)
    requires DirOk(d) && t in d.path && u in d.path && d.path[t] == d.path[u]
    ensures t == u
    decreases |d.path[t]|
  {
    var p := d.path[t];
    if p != [] {
      assert Hung(d, t) && Hung(d, u);
      var a :| HangsIn(d, t, a);
      var b :| HangsIn(d, u, b);
      OneTable(d, a, b);
      EntryTarget(t);
      EntryTarget(u);
    }
  }

  // What a page maps to; 0 if no table leads to it.
  ghost function EntryOf(d: Dir, q: Path): U64
    requires |q| == 4 && forall k :: 0 <= k < 4 ==> q[k] < N
  {
    if exists t :: t in d.path && t in d.mem && d.path[t] == q[..3] then
      var t :| t in d.path && t in d.mem && d.path[t] == q[..3];
      d.mem[t][q[3]]
    else
      0
  }

  lemma EntryAt(d: Dir, q: Path, t: nat)
    requires DirOk(d) && |q| == 4 && (forall k :: 0 <= k < 4 ==> q[k] < N) && t in d.path && t in d.mem
    requires d.path[t] == q[..3]
    ensures EntryOf(d, q) == d.mem[t][q[3]]
  {
    forall u | u in d.path && u in d.mem && d.path[u] == q[..3] ensures u == t {
      OneTable(d, u, t);
    }
  }

  // The walk of the hardware comes to the entry: bits 39 to 47, 30 to 38 and 21 to 29 of the address find the entries
  // of the tables on the way, each the address of the next table with the two low bits set, and bits 12 to 20 find the
  // entry of the page.
  lemma HardwareWalk(d: Dir, va: U64, t: nat) returns (a: nat, b: nat)
    requires DirOk(d) && t in d.path && d.path[t] == Parts(va)[..3]
    ensures d.root in d.mem && a in d.mem && b in d.mem && t in d.mem
    ensures d.mem[d.root][va / 0x80_0000_0000 % 512] == a - KSPACE_MASK + 3
    ensures d.mem[a][va / 0x4000_0000 % 512] == b - KSPACE_MASK + 3
    ensures d.mem[b][va / 0x20_0000 % 512] == t - KSPACE_MASK + 3
    ensures EntryOf(d, Parts(va)) == d.mem[t][va / 0x1000 % 512]
  {
    hide SlotOk, EntryOf;
    var q := Parts(va);
    EntryAt(d, q, t);
    assert q[..3][..2] == q[..2] && q[..2][..1] == q[..1] && q[..1][..0] == [];
    assert Hung(d, t);
    b :| HangsIn(d, t, b);
    assert Hung(d, b);
    a :| HangsIn(d, b, a);
    assert Hung(d, a);
    var r :| HangsIn(d, a, r);
  }

  // ---- adding a table ----

  function Zeros(): Table { seq(N, _ => 0) }

  // A fresh page n hung into the slot i of t.
  function Grown(d: Dir, t: nat, i: nat, n: nat): Dir
    requires t in d.mem && i < N && IsPage(n) && t in d.path
  {
    Dir(d.mem[n := Zeros()][t := d.mem[t][i := TableEntry(n)]], d.root, d.path[n := d.path[t] + [i]])
  }

  ghost predicate Growing(d: Dir, t: nat, i: nat, n: nat) {
    t in d.path && t in d.mem && |d.path[t]| < 3 && i < N && IsPage(n) && n !in d.path && n !in d.mem
      && d.mem[t][i] == 0
  }

  lemma GrownSlots(d: Dir, t: nat, i: nat, n: nat)
    requires DirOk(d) && Growing(d, t, i, n)
    ensures forall u, j :: u in Grown(d, t, i, n).path && |Grown(d, t, i, n).path[u]| < 3 && 0 <= j < N ==>
              u in Grown(d, t, i, n).mem && SlotOk(Grown(d, t, i, n), u, j)
  {
    var d' := Grown(d, t, i, n);
    EntryTarget(n);
    forall u, j | u in d'.path && |d'.path[u]| < 3 && 0 <= j < N ensures u in d'.mem && SlotOk(d', u, j) {
      if u != n {
        assert SlotOk(d, u, j);
      }
    }
  }

  lemma GrownHangs(d: Dir, t: nat, i: nat, n: nat, u: nat)
    requires Growing(d, t, i, n) && u in d.path && d.path[u] != [] && IsPage(u) && Hung(d, u)
    ensures Hung(Grown(d, t, i, n), u)
  {
    var a :| HangsIn(d, u, a);
    EntryTarget(u);
    assert HangsIn(Grown(d, t, i, n), u, a);
  }

  lemma GrownHung(d: Dir, t: nat, i: nat, n: nat)
    requires DirOk(d) && Growing(d, t, i, n)
    ensures forall u :: u in Grown(d, t, i, n).path && Grown(d, t, i, n).path[u] != [] ==>
              IsPage(u) && Hung(Grown(d, t, i, n), u)
  {
    hide SlotOk, Hung;
    var d' := Grown(d, t, i, n);
    forall u | u in d'.path && d'.path[u] != [] ensures IsPage(u) && Hung(d', u) {
      if u == n {
        NewHangs(d, t, i, n);
      } else {
        GrownHangs(d, t, i, n, u);
      }
    }
  }

  lemma NewHangs(d: Dir, t: nat, i: nat, n: nat)
    requires Growing(d, t, i, n)
    ensures Hung(Grown(d, t, i, n), n)
  {
    assert HangsIn(Grown(d, t, i, n), n, t);
  }

  // A new table keeps the tree, and changes the entry of no page.
  lemma GrownOk(d: Dir, t: nat, i: nat, n: nat)
    requires DirOk(d) && Growing(d, t, i, n)
    ensures DirOk(Grown(d, t, i, n))
  {
    GrownSlots(d, t, i, n);
    GrownHung(d, t, i, n);
    hide SlotOk, Hung;
  }

  lemma GrownSame(d: Dir, t: nat, i: nat, n: nat, q: Path)
    requires DirOk(d) && Growing(d, t, i, n) && |q| == 4 && forall k :: 0 <= k < 4 ==> q[k] < N
    ensures EntryOf(Grown(d, t, i, n), q) == EntryOf(d, q)
  {
    var d' := Grown(d, t, i, n);
    GrownOk(d, t, i, n);
    if u :| u in d.path && u in d.mem && d.path[u] == q[..3] {
      EntryAt(d, q, u);
      EntryAt(d', q, u);
    } else if u :| u in d'.path && u in d'.mem && d'.path[u] == q[..3] {
      assert u == n;
      EntryAt(d', q, u);
    }
  }

  // ---- changing an entry ----

  // The entry of a page set, in the table t that its first three indices lead to.
  function Mapped(d: Dir, t: nat, i: nat, e: U64): Dir
    requires t in d.mem && i < N
  {
    d.(mem := d.mem[t := d.mem[t][i := e]])
  }

  lemma MappedOk(d: Dir, t: nat, i: nat, e: U64)
    requires DirOk(d) && t in d.path && |d.path[t]| == 3 && i < N
    ensures DirOk(Mapped(d, t, i, e))
  {
    var d' := Mapped(d, t, i, e);
    forall u, j | u in d'.path && |d'.path[u]| < 3 && 0 <= j < N ensures SlotOk(d', u, j) {
      assert SlotOk(d, u, j);
    }
    forall u | u in d'.path && d'.path[u] != [] ensures Hung(d', u) {
      assert Hung(d, u);
      var p := d.path[u];
      var a :| HangsIn(d, u, a);
      assert HangsIn(d', u, a);
    }
  }

  lemma MappedEntry(d: Dir, t: nat, q: Path, e: U64, r: Path)
    requires DirOk(d) && t in d.path && |q| == 4 && |r| == 4 && d.path[t] == q[..3]
    requires (forall k :: 0 <= k < 4 ==> q[k] < N) && (forall k :: 0 <= k < 4 ==> r[k] < N)
    ensures EntryOf(Mapped(d, t, q[3], e), r) == if r == q then e else EntryOf(d, r)
  {
    hide DirOk, SlotOk, Hung;
    if t !in d.mem {
      NotATable(d, t);
    }
    var d' := Mapped(d, t, q[3], e);
    MappedOk(d, t, q[3], e);
    assert q == q[..3] + [q[3]] && r == r[..3] + [r[3]];
    if u :| u in d.path && u in d.mem && d.path[u] == r[..3] {
      EntryAt(d, r, u);
      EntryAt(d', r, u);
      if u == t {
        assert r[..3] == q[..3];
      } else if r[..3] == q[..3] {
        OneTable(d, u, t);
      }
    }
  }

  // No page maps to anything else than before.
  ghost predicate SameEntries(d: Dir, d': Dir) {
    forall q: Path :: |q| == 4 && (forall k :: 0 <= k < 4 ==> q[k] < N) ==> EntryOf(d', q) == EntryOf(d, q)
  }

  // Only the entry of the page of va is another one.
  lemma MappedPages(d0: Dir, d: Dir, t: nat, va: U64, e: U64)
    requires DirOk(d) && SameEntries(d0, d) && t in d.path && t in d.mem && d.path[t] == Parts(va)[..3]
    ensures forall w: U64 :: EntryOf(Mapped(d, t, Parts(va)[3], e), Parts(w))
                             == if PageNumber(w) == PageNumber(va) then e else EntryOf(d0, Parts(w))
  {
    hide DirOk, Mapped, EntryOf, PageNumber;
    forall w: U64
      ensures EntryOf(Mapped(d, t, Parts(va)[3], e), Parts(w))
              == if PageNumber(w) == PageNumber(va) then e else EntryOf(d0, Parts(w))
    {
      MappedEntry(d, t, Parts(va), e, Parts(w));
      SameParts(w, va);
      assert EntryOf(d, Parts(w)) == EntryOf(d0, Parts(w));
    }
  }

  // The pages that can be allocated: no page twice, and none in use.
  ghost predicate SupplyOk(supply: seq<nat>, mem: Memory) {
    && (forall i :: 0 <= i < |supply| ==> IsPage(supply[i]) && supply[i] !in mem)
    && Distinct(supply)
  }

  lemma GrownAll(d: Dir, t: nat, i: nat, n: nat)
    requires DirOk(d) && Growing(d, t, i, n)
    ensures DirOk(Grown(d, t, i, n)) && SameEntries(d, Grown(d, t, i, n))
  {
    GrownOk(d, t, i, n);
    forall q: Path | |q| == 4 && (forall k :: 0 <= k < 4 ==> q[k] < N)
      ensures EntryOf(Grown(d, t, i, n), q) == EntryOf(d, q)
    {
      GrownSame(d, t, i, n, q);
    }
  }

  lemma SupplyTake(supply: seq<nat>, mem: Memory, mem': Memory)
    requires SupplyOk(supply, mem) && supply != [] && mem'.Keys == mem.Keys + {supply[0]}
    ensures SupplyOk(supply[1..], mem')
  {
    forall i | 0 <= i < |supply[1..]| ensures IsPage(supply[1..][i]) && supply[1..][i] !in mem' {
      assert supply[1..][i] == supply[i + 1] && supply[1..][i] !in mem'.Keys;
    }
  }

  // A root, all of whose slots are empty.
  lemma RootOk(mem: Memory, n: nat)
    requires IsPage(n)
    ensures DirOk(Dir(mem[n := Zeros()], n, map[n := []]))
    ensures SameEntries(Dir(mem, NULL, map[]), Dir(mem[n := Zeros()], n, map[n := []]))
  {
    var d := Dir(mem[n := Zeros()], n, map[n := []]);
    forall q: Path | |q| == 4 && (forall k :: 0 <= k < 4 ==> q[k] < N) ensures EntryOf(d, q) == 0 {
      assert d.path[n] != q[..3];
    }
  }

  // Where the slot i of t leads.
  lemma SlotLeads(d: Dir, t: nat, i: nat)
    requires DirOk(d) && t in d.path && t in d.mem && |d.path[t]| < 3 && i < N && d.mem[t][i] != 0
    ensures var u := Target(d.mem[t][i]);
            ValidBit(d.mem[t][i]) && u in d.path && u in d.mem && u != NULL
            && d.path[u] == d.path[t] + [i]
  {
    assert SlotOk(d, t, i);
  }

  // A table below an empty slot does not exist.
  lemma {:induction false} NoTable(d: Dir, t: nat, i: nat, u: nat)
    requires DirOk(d) && t in d.path && t in d.mem && |d.path[t]| < 3 && i < N && d.mem[t][i] == 0 && u in d.path
    ensures var p, q := d.path[t], d.path[u]; !(|p| < |q| && q[..|p|] == p && q[|p|] == i)
    decreases |d.path[u]|
  {
    hide SlotOk;
    var p, q := d.path[t], d.path[u];
    if |p| < |q| && q[..|p|] == p && q[|p|] == i {
      assert Hung(d, u);
      var a :| HangsIn(d, u, a);
      if |q| == |p| + 1 {
        OneTable(d, a, t);
        EntryTarget(u);
      } else {
        assert d.path[a][..|p|] == p;
        NoTable(d, t, i, a);
      }
    }
  }

  lemma NoTableNoEntry(d: Dir, q: Path)
    requires |q| == 4 && (forall k :: 0 <= k < 4 ==> q[k] < N)
    ensures !HasTable(d.path, q[..3]) ==> EntryOf(d, q) == 0
  {
  }

  lemma SameSelf(d: Dir)
    ensures SameEntries(d, d)
  {
  }

  lemma SameTrans(a: Dir, b: Dir, c: Dir)
    requires SameEntries(a, b) && SameEntries(b, c)
    ensures SameEntries(a, c)
  {
    forall q: Path | |q| == 4 && (forall k :: 0 <= k < 4 ==> q[k] < N) ensures EntryOf(c, q) == EntryOf(a, q) {
      assert EntryOf(b, q) == EntryOf(a, q);
    }
  }

  function K2P(ka: nat): U64
    requires KSPACE_MASK <= ka < KSPACE_MASK + SPAN
  {
    ka - KSPACE_MASK
  }

  // K2P(ka) | flags | PTE_VALID.
  function Leaf(ka: nat, flags: U64): U64
    requires KSPACE_MASK <= ka < KSPACE_MASK + SPAN
  {
    LeafBound(ka, flags);
    Or(Or(K2P(ka), flags), 1)
  }

  lemma LeafBound(ka: nat, flags: U64)
    requires KSPACE_MASK <= ka < KSPACE_MASK + SPAN
    ensures Or(Or(ka - KSPACE_MASK, flags), 1) < WORD
  {
    hide Or;
    WordPow();
    OrBound(ka - KSPACE_MASK, flags, 64);
    OrBound(Or(ka - KSPACE_MASK, flags), 1, 64);
  }

  // The entry of a page: valid, with the bits of the address and of the flags; for a page and flags that leave the
  // bits of an address alone the address is the page's, and the rest is flags.
  lemma LeafIs(ka: nat, flags: U64, i: nat)
    requires KSPACE_MASK <= ka < KSPACE_MASK + SPAN
    ensures ValidBit(Leaf(ka, flags))
    ensures Bit(Leaf(ka, flags), i) <==> i == 0 || Bit(ka - KSPACE_MASK, i) || Bit(flags, i)
    ensures ka % PAGE_SIZE == 0 && flags % SPAN < PAGE_SIZE ==>
              Target(Leaf(ka, flags)) == ka && Leaf(ka, flags) == ka - KSPACE_MASK + flags + (1 - flags % 2)
  {
    hide Or;
    var a := ka - KSPACE_MASK;
    OrBit(Or(a, flags), 1, i);
    OrBit(Or(a, flags), 1, 0);
    OrBit(a, flags, i);
    assert Bit(1, i) <==> i == 0 by {
      if i > 0 {
        NoBit(i - 1);
      }
    }
    if ka % PAGE_SIZE == 0 && flags % SPAN < PAGE_SIZE {
      LeafSum(ka, flags);
    }
  }

  lemma LeafSum(ka: nat, flags: U64)
    requires KSPACE_MASK <= ka < KSPACE_MASK + SPAN && ka % PAGE_SIZE == 0 && flags % SPAN < PAGE_SIZE
    ensures Target(Leaf(ka, flags)) == ka && Leaf(ka, flags) == ka - KSPACE_MASK + flags + (1 - flags % 2)
  {
    hide Or, Pow2, Target;
    var n, h, l := (ka - KSPACE_MASK) / PAGE_SIZE, flags / SPAN, flags % SPAN;
    PageParts(ka, flags);
    OrWords(h, n, l);
    OrLow(h * 0x10_0000_0000 + n, l);
    EntryPage(h, n, l + (1 - l % 2));
  }

  // A page number above the low twelve bits, and flags on both sides of it.
  lemma OrWords(h: nat, n: nat, l: nat)
    requires n < 0x10_0000_0000 && l < 0x1000
    ensures Or(n * 0x1000, h * 0x10_0000_0000 * 0x1000 + l) == (h * 0x10_0000_0000 + n) * 0x1000 + l
  {
    hide Or, Pow2;
    WordPow();
    var m := h * 0x10_0000_0000;
    OrSplit(n, m, 0, l, 12);
    OrSplit(0, h, n, 0, 36);
    OrNone(h);
    OrNone(n);
    OrNone(l);
  }

  lemma OrLow(m: nat, l: nat)
    requires l < 0x1000
    ensures Or(m * 0x1000 + l, 1) == m * 0x1000 + l + (1 - l % 2)
  {
    hide Or, Pow2;
    WordPow();
    OrSplit(m, 0, l, 1, 12);
    OrNone(m);
    OrLowest(l);
  }

  lemma OrNone(a: nat)
    ensures Or(a, 0) == a && Or(0, a) == a
  {
  }

  lemma OrLowest(l: nat)
    ensures Or(l, 1) == l + (1 - l % 2)
  {
    if l > 0 {
      OrNone(l / 2);
    }
  }

  lemma PageParts(ka: nat, flags: U64)
    requires KSPACE_MASK <= ka < KSPACE_MASK + SPAN && ka % PAGE_SIZE == 0
    ensures ka - KSPACE_MASK == (ka - KSPACE_MASK) / PAGE_SIZE * 0x1000
    ensures (ka - KSPACE_MASK) / PAGE_SIZE < 0x10_0000_0000
    ensures flags == flags / SPAN * 0x10_0000_0000 * 0x1000 + flags % SPAN && flags % SPAN % 2 == flags % 2
  {
    var k := ka / PAGE_SIZE - 0xf_fff0_0000_0000;
    assert ka - KSPACE_MASK == PAGE_SIZE * k;
  }

  lemma EntryPage(h: nat, n: nat, l: nat)
    requires n < 0x10_0000_0000 && l < PAGE_SIZE && (h * 0x10_0000_0000 + n) * 0x1000 + l < WORD
    ensures Target((h * 0x10_0000_0000 + n) * 0x1000 + l) == KSPACE_MASK + n * PAGE_SIZE
  {
    var e := (h * 0x10_0000_0000 + n) * 0x1000 + l;
    assert e == h * SPAN + (n * PAGE_SIZE + l);
    assert e % SPAN == n * PAGE_SIZE + l;
    assert (n * PAGE_SIZE + l) / PAGE_SIZE == n;
  }

  // What a step of get_pte comes to: a table, none without alloc, or a crash for want of a page.
  datatype Step = Table(t: nat) | Missing | Crash

  ghost predicate HasTable(path: map<nat, Path>, p: Path) {
    exists t :: t in path && path[t] == p
  }

  ghost function Lack(path: map<nat, Path>, p: Path): nat { if HasTable(path, p) then 0 else 1 }

  // How many of the four tables on the way are missing.
  ghost function Lacking(path: map<nat, Path>, q: Path): nat
    requires |q| == 4
  {
    Lack(path, []) + Lack(path, q[..1]) + Lack(path, q[..2]) + Lack(path, q[..3])
  }

  // A new table at the first k indices, which was missing.
  lemma LackStep(path: map<nat, Path>, path': map<nat, Path>, u: nat, q: Path, k: nat)
    requires |q| == 4 && k <= 3 && u !in path && path' == path[u := q[..k]] && !HasTable(path, q[..k])
    ensures Lacking(path', q) == Lacking(path, q) - 1
  {
    forall j | 0 <= j <= 3 ensures Lack(path', q[..j]) == if j == k then 0 else Lack(path, q[..j]) {
      LackAdded(path, u, q[..k], q[..j]);
      assert |q[..j]| == j && |q[..k]| == k;
    }
    hide Lack;
    assert q[..0] == [];
  }

  lemma LackAdded(path: map<nat, Path>, u: nat, p: Path, r: Path)
    requires u !in path
    ensures Lack(path[u := p], r) == if r == p then 0 else Lack(path, r)
  {
    var path' := path[u := p];
    if HasTable(path, r) {
      var t :| t in path && path[t] == r;
      assert t in path' && path'[t] == r;
    }
    assert u in path' && path'[u] == p;
  }

  // The slot is empty, so that the table behind it, and those further on, are missing.
  lemma LackSlot(d: Dir, t: nat, i: nat, p: Path)
    requires DirOk(d) && t in d.path && t in d.mem && |d.path[t]| < 3 && i < N && d.mem[t][i] == 0
    requires |d.path[t]| < |p| <= 3 && p[..|d.path[t]|] == d.path[t] && p[|d.path[t]|] == i
    ensures !HasTable(d.path, p) && Lack(d.path, p) == 1
  {
    hide DirOk;
    forall u | u in d.path ensures d.path[u] != p {
      NoTable(d, t, i, u);
    }
  }

  // The slot is empty: a step into it is missing, or crashes for want of a page.
  lemma LackHere(d: Dir, t: nat, q: Path, k: nat)
    requires DirOk(d) && t in d.path && t in d.mem && |q| == 4 && k < 3 && d.path[t] == q[..k] && q[k] < N
    requires d.mem[t][q[k]] == 0
    ensures !HasTable(d.path, q[..k + 1]) && !HasTable(d.path, q[..3]) && Lacking(d.path, q) > 0
  {
    LackSlot(d, t, q[k], q[..k + 1]);
    assert q[..3][..k] == q[..k];
    LackSlot(d, t, q[k], q[..3]);
  }

  lemma FirstPage(supply: seq<nat>, mem: Memory)
    requires SupplyOk(supply, mem) && supply != []
    ensures IsPage(supply[0]) && supply[0] !in mem
  {
  }

  // With the last table all the others on the way are there.
  lemma AllPresent(d: Dir, q: Path, t: nat)
    requires DirOk(d) && |q| == 4 && t in d.path && d.path[t] == q[..3]
    ensures HasTable(d.path, q[..3]) && Lacking(d.path, q) == 0
  {
    hide SlotOk, Hung;
    var b := Above(d, t);
    var a := Above(d, b);
    var r := Above(d, a);
    assert q[..3][..2] == q[..2] && q[..2][..1] == q[..1] && q[..1][..0] == [];
  }

  lemma Above(d: Dir, t: nat) returns (u: nat)
    requires DirOk(d) && t in d.path && d.path[t] != []
    ensures u in d.path && d.path[u] == d.path[t][..|d.path[t]| - 1]
  {
    hide SlotOk;
    assert Hung(d, t);
    var p := d.path[t];
    u :| HangsIn(d, t, u);
  }

  lemma NotATable(d: Dir, u: nat)
    requires DirOk(d) && u !in d.mem
    ensures u !in d.path
  {
    hide SlotOk, Hung;
  }

  lemma EmptyOrValid(d: Dir, t: nat, i: nat)
    requires DirOk(d) && t in d.path && t in d.mem && |d.path[t]| < 3 && i < N && !ValidBit(d.mem[t][i])
    ensures d.mem[t][i] == 0
  {
    hide Hung;
    assert SlotOk(d, t, i);
  }

  lemma NothingThere(path: map<nat, Path>, q: Path)
    requires path == map[] && |q| == 4
    ensures (forall p :: !HasTable(path, p)) && Lacking(path, q) == 4
  {
  }

  lemma SupplySame(supply: seq<nat>, mem: Memory, mem': Memory)
    requires SupplyOk(supply, mem) && mem'.Keys == mem.Keys
    ensures SupplyOk(supply, mem')
  {
    forall i | 0 <= i < |supply| ensures supply[i] !in mem' {
      assert supply[i] !in mem'.Keys;
    }
  }

  /** A page directory, and the pages that the allocator can hand out, the next one first. */
  class PageDir {
    var mem: Memory
    var pt: nat
    var supply: seq<nat>
    ghost var path: map<nat, Path>

    ghost function D(): Dir
      reads this
    {
      Dir(mem, pt, path)
    }

    ghost predicate Valid()
      reads this
    {
      DirOk(D()) && SupplyOk(supply, mem)
    }

    constructor (supply: seq<nat>)
      requires SupplyOk(supply, map[])
      ensures Valid() && this.supply == supply && pt == NULL && mem == map[] && path == map[]
    {
      mem, pt, this.supply, path := map[], NULL, supply, map[];
    }

    // A new table, all zero, in the empty slot i of t.
    method Create(t: nat, i: nat) returns (u: nat)
      requires Valid() && t in path && t in mem && |path[t]| < 3 && i < N && mem[t][i] == 0 && supply != []
      modifies this
      ensures Valid() && pt == old(pt) && SameEntries(old(D()), D()) && |supply| == |old(supply)| - 1
      ensures u in mem && u !in old(path) && path == old(path)[u := old(path)[t] + [i]]
    {
      hide SameEntries, Hung, SlotOk, SupplyOk, DirOk;
      u := supply[0];
      FirstPage(supply, mem);
      NotATable(D(), u);
      GrownAll(D(), t, i, u);
      SupplyTake(supply, mem, mem[u := Zeros()]);
      SupplySame(supply[1..], mem[u := Zeros()], Grown(D(), t, i, u).mem);
      supply := supply[1..];
      mem := mem[u := Zeros()];
      mem := mem[t := mem[t][i := TableEntry(u)]];
      path := path[u := path[t] + [i]];
    }

    // One level of get_pte, from the table t at the first k indices of q: the next table, created if alloc says so.
    // Without a page left the new table would be at NULL, and clearing it crashes.
    method Descend(t: nat, q: Path, k: nat, alloc: bool) returns (r: Step)
      requires Valid() && |q| == 4 && k < 3 && q[k] < N && t in path && t in mem && path[t] == q[..k]
      modifies this
      ensures Valid() && pt == old(pt) && SameEntries(old(D()), D())
      ensures r == Missing ==> !alloc && !HasTable(old(path), q[..3])
      ensures r == Crash ==> alloc && |supply| < Lacking(old(path), q)
      ensures r.Table? ==> r.t in mem && r.t in path && path[r.t] == q[..k + 1]
      ensures r.Table? ==> |supply| - Lacking(path, q) == |old(supply)| - Lacking(old(path), q)
      ensures !r.Table? || !alloc ==> D() == old(D()) && supply == old(supply)
    {
      hide SameEntries, Hung, SlotOk, SupplyOk, DirOk, HasTable, Lacking, Lack;
      SameSelf(D());
      var e := mem[t][q[k]];
      if e == 0 || !ValidBit(e) {
        if e != 0 {
          EmptyOrValid(D(), t, q[k]);
        }
        LackHere(D(), t, q, k);
        if !alloc {
          return Missing;
        }
        if supply == [] {
          return Crash;
        }
        var u := Create(t, q[k]);
        assert q[..k] + [q[k]] == q[..k + 1];
        LackStep(old(path), path, u, q, k + 1);
        return Table(u);
      } else {
        SlotLeads(D(), t, q[k]);
        assert q[..k] + [q[k]] == q[..k + 1];
        return Table(Target(e));
      }
    }

    // The first step of get_pte: the root table.
    method Root(q: Path, alloc: bool) returns (r: Step)
      requires Valid() && |q| == 4
      modifies this
      ensures Valid() && SameEntries(old(D()), D())
      ensures r == Missing ==> !alloc && !HasTable(old(path), q[..3])
      ensures r == Crash ==> alloc && |supply| < Lacking(old(path), q)
      ensures r.Table? ==> r.t in path && r.t in mem && path[r.t] == []
      ensures r.Table? ==> |supply| - Lacking(path, q) == |old(supply)| - Lacking(old(path), q)
      ensures !r.Table? || !alloc ==> D() == old(D()) && supply == old(supply)
    {
      hide SameEntries, Hung, SlotOk, SupplyOk, HasTable, Lacking, Lack;
      SameSelf(D());
      if pt == NULL {
        NothingThere(path, q);
        if !alloc {
          return Missing;
        }
        if supply == [] {
          return Crash;
        }
        var n := supply[0];
        FirstPage(supply, mem);
        RootOk(mem, n);
        SupplyTake(supply, mem, mem[n := Zeros()]);
        assert path == map[];
        hide DirOk;
        supply := supply[1..];
        mem := mem[n := Zeros()];
        pt := n;
        path := path[n := []];
        LackStep(old(path), path, n, q, 0);
      }
      return Table(pt);
    }

    // get_pte: the slot for va. Without alloc it is missing exactly if no table leads there, and then the page maps
    // to nothing. With alloc it crashes exactly if there are fewer pages than tables to be created.
    method GetPte(va: U64, alloc: bool) returns (r: Step, i: nat)
      requires Valid()
      modifies this
      ensures Valid() && SameEntries(old(D()), D()) && i == Parts(va)[3]
      ensures !alloc ==> D() == old(D()) && supply == old(supply)
      ensures r.Table? ==> r.t in path && r.t in mem && path[r.t] == Parts(va)[..3]
      ensures r.Table? ==> EntryOf(D(), Parts(va)) == mem[r.t][i]
      ensures r == Missing <==> !alloc && !HasTable(old(path), Parts(va)[..3])
      ensures r == Missing ==> EntryOf(D(), Parts(va)) == 0
      ensures r == Crash <==> alloc && |old(supply)| < Lacking(old(path), Parts(va))
    {
      hide SameEntries, SupplyOk, EntryOf, DirOk, HasTable, Lacking;
      var q := Parts(va);
      i := q[3];
      ghost var d0 := D();
      NoTableNoEntry(d0, q);
      r := Root(q, alloc);
      var k := 0;
      while r.Table? && k < 3
        invariant 0 <= k <= 3 && Valid() && SameEntries(d0, D()) && (!alloc ==> D() == d0 && supply == old(supply))
        invariant r == Missing ==> !alloc && !HasTable(d0.path, q[..3])
        invariant r == Crash ==> alloc && |old(supply)| < Lacking(d0.path, q)
        invariant r.Table? ==> r.t in path && r.t in mem && path[r.t] == q[..k]
        invariant r.Table? ==> |supply| - Lacking(path, q) == |old(supply)| - Lacking(d0.path, q)
        decreases if r.Table? then 3 - k else 0
      {
        ghost var d := D();
        r := Descend(r.t, q, k, alloc);
        SameTrans(d0, d, D());
        k := k + 1;
      }
      if r.Table? {
        EntryAt(D(), q, r.t);
        AllPresent(D(), q, r.t);
      }
    }

    // vmmap: the page of va maps to ka, and every other page to what it did; false for a crash.
    method Vmmap(va: U64, ka: nat, flags: U64) returns (ok: bool)
      requires Valid() && KSPACE_MASK <= ka < KSPACE_MASK + SPAN
      modifies this
      ensures Valid() && (ok <==> Lacking(old(path), Parts(va)) <= |old(supply)|)
      ensures ok ==> forall w: U64 :: PageNumber(w) != PageNumber(va) ==>
                       EntryOf(D(), Parts(w)) == EntryOf(old(D()), Parts(w))
      ensures ok ==> forall w: U64 :: PageNumber(w) == PageNumber(va) ==>
                       EntryOf(D(), Parts(w)) == EntryOf(D(), Parts(va))
      ensures ok ==> ValidBit(EntryOf(D(), Parts(va)))
      ensures ok ==> forall i: nat :: Bit(EntryOf(D(), Parts(va)), i) <==>
                                        i == 0 || Bit(ka - KSPACE_MASK, i) || Bit(flags, i)
      ensures ok && ka % PAGE_SIZE == 0 && flags % SPAN < PAGE_SIZE ==>
                Target(EntryOf(D(), Parts(va))) == ka
                && EntryOf(D(), Parts(va)) == ka - KSPACE_MASK + flags + (1 - flags % 2)
    {
      hide Lacking, HasTable, SupplyOk, Leaf, Bit, Target, ValidBit;
      var r, i := GetPte(va, true);
      if !r.Table? {
        return false;
      }
      ghost var d := D();
      MappedOk(d, r.t, i, Leaf(ka, flags));
      MappedPages(old(D()), d, r.t, va, Leaf(ka, flags));
      forall i: nat ensures Bit(Leaf(ka, flags), i) <==> i == 0 || Bit(ka - KSPACE_MASK, i) || Bit(flags, i) {
        LeafIs(ka, flags, i);
      }
      LeafIs(ka, flags, 0);
      SupplySame(supply, mem, mem[r.t := mem[r.t][i := Leaf(ka, flags)]]);
      hide DirOk, EntryOf, SameEntries, Leaf;
      mem := mem[r.t := mem[r.t][i := Leaf(ka, flags)]];
      return true;
    }

    // free_pt_r: pt is the root itself, or the entry of a table; fs are the pages that are freed, the last one first.
    method FreePtR(pt: nat, num: nat, ghost d: Dir, ghost t: nat) returns (ghost fs: seq<nat>)
      requires num <= 3 && DirOk(d)
      requires pt != 0 ==> t in d.path && |d.path[t]| == num && pt == if num == 0 then t else TableEntry(t)
      requires pt != 0 ==> Held(d, mem, Tables(d.path, d.path[t]))
      modifies this
      ensures this.pt == old(this.pt) && path == old(path) && supply == fs + old(supply) && Distinct(fs)
      ensures if pt == 0 then fs == [] && mem == old(mem)
              else Elements(fs) == Tables(d.path, d.path[t]) && mem == old(mem) - Tables(d.path, d.path[t])
      decreases 3 - num
    {
      hide DirOk, Hung, SlotOk, Held, Tables, Part, Target;
      fs := [];
      if pt == 0 {
        return;
      }
      PageBack(d, t, pt, num);
      if num == 3 {
        LastLevel(d, t);
        KfreePage(Target(pt));
        fs := [t];
        return;
      }
      fs := FreeBelow(pt, num, d, t);
      TablesSplit(d, t, mem, old(mem), fs);
      KfreePage(Target(pt));
      fs := [t] + fs;
    }

    // free_pgdir, after the sections: every table is freed once, and nothing else.
    method FreePgdir() returns (ghost fs: seq<nat>)
      requires DirOk(D())
      modifies this
      ensures supply == fs + old(supply) && Distinct(fs) && Elements(fs) == old(path).Keys
      ensures mem == old(mem) - old(path).Keys
    {
      fs := [];
      AllTables(path);
      if pt == NULL {
        assert mem == mem - {};
        return;
      }
      assert Held(D(), mem, Tables(path, path[pt]));
      fs := FreePtR(pt, 0, D(), pt);
    }

    // kfree_page.
    method KfreePage(p: nat)
      modifies this
      ensures mem == old(mem) - {p} && supply == [p] + old(supply) && pt == old(pt) && path == old(path)
    {
      mem := mem - {p};
      supply := [p] + supply;
    }

    // The loop of free_pt_r.
    method FreeBelow(pt: nat, num: nat, ghost d: Dir, ghost t: nat) returns (ghost fs: seq<nat>)
      requires num < 3 && DirOk(d) && t in d.path && |d.path[t]| == num && pt == (if num == 0 then t else TableEntry(t))
      requires Held(d, mem, Tables(d.path, d.path[t])) && (num == 0 || Target(pt) == t)
      modifies this
      ensures this.pt == old(this.pt) && path == old(path) && supply == fs + old(supply) && Distinct(fs)
      ensures Elements(fs) == Part(d.path, d.path[t], N) && mem == old(mem) - Part(d.path, d.path[t], N)
      decreases 3 - num, 0
    {
      hide DirOk, Hung, SlotOk, Held, Tables, Part, Target;
      ghost var mem0, p := mem, d.path[t];
      fs := [];
      PartNone(d.path, p);
      assert mem == mem0 - {};
      var i := 0;
      while i < N
        invariant 0 <= i <= N && this.pt == old(this.pt) && path == old(path) && supply == fs + old(supply)
        invariant Distinct(fs)
        invariant Elements(fs) == Part(d.path, p, i) && mem == mem0 - Part(d.path, p, i)
      {
        PartStep(d, t, mem0, i);
        var ptin := if num == 0 then pt else Target(pt);
        ghost var gs;
        ghost var mem1 := mem;
        gs := FreePtR(mem[ptin][i], num + 1, d, Target(mem[ptin][i]));
        Joined(gs, fs);
        assert mem == mem0 - Part(d.path, p, i + 1);
        fs := gs + fs;
        i := i + 1;
      }
    }
  }

  ghost function Elements(s: seq<nat>): set<nat> { set x | x in s }

  lemma Joined(a: seq<nat>, b: seq<nat>)
    ensures Elements(a + b) == Elements(a) + Elements(b)
    ensures Distinct(a) && Distinct(b) && Elements(a) !! Elements(b) ==> Distinct(a + b)
  {
    if Distinct(a) && Distinct(b) && Elements(a) !! Elements(b) {
      forall i, j | 0 <= i < j < |a + b| ensures (a + b)[i] != (a + b)[j] {
        if i < |a| <= j {
          assert a[i] in Elements(a) && b[j - |a|] in Elements(b);
        }
      }
    }
  }

  // The tables whose indices begin with p.
  ghost function Tables(path: map<nat, Path>, p: Path): set<nat> {
    set t | t in path && |p| <= |path[t]| && path[t][..|p|] == p
  }

  // Those below p with a next index less than i.
  ghost function Part(path: map<nat, Path>, p: Path, i: nat): set<nat> {
    set t | t in path && |p| < |path[t]| && path[t][..|p|] == p && path[t][|p|] < i
  }

  // The memory still has the tables ts as they were.
  ghost predicate Held(d: Dir, mem: Memory, ts: set<nat>) {
    forall t :: t in ts ==> t in mem && t in d.mem && mem[t] == d.mem[t]
  }

  lemma AllTables(path: map<nat, Path>)
    ensures Tables(path, []) == path.Keys
  {
  }

  lemma PartNone(path: map<nat, Path>, p: Path)
    ensures Part(path, p, 0) == {}
  {
  }

  lemma PartGrows(path: map<nat, Path>, p: Path, i: nat)
    ensures Part(path, p, i + 1) == Part(path, p, i) + Tables(path, p + [i])
    ensures Part(path, p, i) !! Tables(path, p + [i])
  {
    forall t | t in path
      ensures t in Tables(path, p + [i]) <==> |p| < |path[t]| && path[t][..|p|] == p && path[t][|p|] == i
    {
      if |p| < |path[t]| {
        assert path[t][..|p| + 1] == path[t][..|p|] + [path[t][|p|]];
      }
    }
  }

  lemma EmptySlot(d: Dir, t: nat, i: nat, u: nat)
    requires DirOk(d) && t in d.path && t in d.mem && |d.path[t]| < 3 && i < N && d.mem[t][i] == 0 && u in d.path
    ensures u !in Tables(d.path, d.path[t] + [i])
  {
    var p, q := d.path[t], d.path[u];
    if |p| < |q| {
      assert q[..|p| + 1] == q[..|p|] + [q[|p|]];
      NoTable(d, t, i, u);
    }
  }

  // The slot i, with what hangs below it still in place, and nothing if it is empty.
  lemma PartStep(d: Dir, t: nat, mem0: Memory, i: nat)
    requires DirOk(d) && t in d.path && |d.path[t]| < 3 && i < N && Held(d, mem0, Tables(d.path, d.path[t]))
    ensures var p := d.path[t]; var mem := mem0 - Part(d.path, p, i);
            && t in mem && t in d.mem && mem[t] == d.mem[t] && IsPage(t)
            && Part(d.path, p, i + 1) == Part(d.path, p, i) + Tables(d.path, p + [i])
            && Part(d.path, p, i) !! Tables(d.path, p + [i])
            && (mem[t][i] == 0 ==> Tables(d.path, p + [i]) == {})
            && (mem[t][i] != 0 ==>
                  var u := Target(mem[t][i]);
                  u in d.path && IsPage(u) && d.path[u] == p + [i] && mem[t][i] == TableEntry(u)
                    && Held(d, mem, Tables(d.path, p + [i])))
  {
    var p := d.path[t];
    PartGrows(d.path, p, i);
    assert t in Tables(d.path, p) && t !in Part(d.path, p, i);
    if d.mem[t][i] == 0 {
      forall u | u in d.path ensures u !in Tables(d.path, p + [i]) {
        EmptySlot(d, t, i, u);
      }
    } else {
      assert SlotOk(d, t, i);
      forall u | u in Tables(d.path, p + [i]) ensures u in Tables(d.path, p) && u !in Part(d.path, p, i) {
        assert d.path[u][..|p|] == d.path[u][..|p| + 1][..|p|];
      }
    }
  }

  // Where the page of a root, or of an entry, is.
  lemma PageBack(d: Dir, t: nat, pt: nat, num: nat)
    requires DirOk(d) && t in d.path && pt == if num == 0 then t else TableEntry(t)
    ensures pt < WORD && Target(pt) == t
  {
    EntryTarget(t);
    assert t % SPAN == t - KSPACE_MASK;
  }

  // A table of the last level has none below it.
  lemma LastLevel(d: Dir, t: nat)
    requires DirOk(d) && t in d.path && |d.path[t]| == 3
    ensures Tables(d.path, d.path[t]) == {t} && Elements([t]) == {t}
  {
    forall u | u in Tables(d.path, d.path[t]) ensures u == t {
      assert d.path[u][..3] == d.path[u];
      OneTable(d, u, t);
    }
    assert d.path[t][..3] == d.path[t];
  }

  // A table and what is below its slots are all tables with its indices.
  lemma TablesSplit(d: Dir, t: nat, mem: Memory, mem0: Memory, fs: seq<nat>)
    requires DirOk(d) && t in d.path && Distinct(fs) && Elements(fs) == Part(d.path, d.path[t], N)
    requires mem == mem0 - Part(d.path, d.path[t], N)
    ensures Tables(d.path, d.path[t]) == {t} + Part(d.path, d.path[t], N)
    ensures Distinct([t] + fs) && Elements([t] + fs) == Tables(d.path, d.path[t])
    ensures mem - {t} == mem0 - Tables(d.path, d.path[t])
  {
    hide SlotOk, Hung;
    var p := d.path[t];
    forall u | u in d.path ensures u in Tables(d.path, p) <==> u == t || u in Part(d.path, p, N) {
      var q := d.path[u];
      if |q| == |p| && q[..|p|] == p {
        assert q[..|p|] == q;
        OneTable(d, u, t);
      }
      if |q| > |p| {
        IndexSmall(d, u, |p|);
      }
      if u == t {
        assert q[..|p|] == p;
      }
    }
    Joined([t], fs);
  }

  lemma {:induction false} IndexSmall(d: Dir, u: nat, k: nat)
    requires DirOk(d) && u in d.path && k < |d.path[u]|
    ensures d.path[u][k] < N
    decreases |d.path[u]|
  {
    var p := d.path[u];
    assert Hung(d, u);
    var a :| HangsIn(d, u, a);
    if k < |p| - 1 {
      IndexSmall(d, a, k);
    }
  }
}
