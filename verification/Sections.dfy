/** The end of an address space (src/kernel/paging.c, src/kernel/pt.c): the pages and swap extents of its sections are
    given back, and then its tables. */
module Sections {
  import opened Basics
  import opened PageTable

  // struct section: the addresses from begin up to end.
  datatype Section = Section(begin: U64, end: U64)

  // No section reaches the last page of the 64-bit range, so that the addresses do not wrap.
  predicate SectionOk(s: Section) { s.end <= WORD - PAGE_SIZE }

  predicate SectionsOk(ss: seq<Section>) { forall i :: 0 <= i < |ss| ==> SectionOk(ss[i]) }

  // What free_sections does for the page of an address: a slot that holds a swap address gives back the extent, any
  // other slot a page; without a table there is no slot.
  datatype Fate = Skip | Page(p: nat) | Extent(bno: U32)

  ghost function FateOf(d: Dir, va: U64): Fate {
    var e := EntryOf(d, Parts(va));
    if !HasTable(d.path, Parts(va)[..3]) then Skip else if !ValidBit(e) && e != 0 then Extent(e / PAGE_SIZE % U32_MAX)
    else Page(Target(e))
  }

  // The pages from a on, up to end.
  ghost function Addresses(a: nat, end: U64): seq<U64>
    decreases if a < end then end - a else 0
  {
    if a < end then [a] + Addresses(a + PAGE_SIZE, end) else []
  }

  ghost function AllAddresses(ss: seq<Section>): seq<U64> {
    if ss == [] then [] else Addresses(ss[0].begin, ss[0].end) + AllAddresses(ss[1..])
  }

  ghost function Pages(d: Dir, va: seq<U64>): seq<nat> {
    if va == [] then [] else (if FateOf(d, va[0]).Page? then [FateOf(d, va[0]).p] else []) + Pages(d, va[1..])
  }

  ghost function Extents(d: Dir, va: seq<U64>): seq<U32> {
    if va == [] then [] else (if FateOf(d, va[0]).Extent? then [FateOf(d, va[0]).bno] else []) + Extents(d, va[1..])
  }

  lemma {:induction false} Concat(d: Dir, a: seq<U64>, b: seq<U64>)
    ensures Pages(d, a + b) == Pages(d, a) + Pages(d, b) && Extents(d, a + b) == Extents(d, a) + Extents(d, b)
  {
    hide FateOf;
    if a == [] {
      assert a + b == b;
    } else {
      assert (a + b)[1..] == a[1..] + b;
      Concat(d, a[1..], b);
    }
  }

  // free_sections, for one section.
  method FreeSection(pd: PageDir, s: Section) returns (pages: seq<nat>, extents: seq<U32>)
    requires pd.Valid() && SectionOk(s)
    modifies pd
    ensures pd.Valid() && pd.D() == old(pd.D()) && pd.supply == old(pd.supply)
    ensures pages == Pages(pd.D(), Addresses(s.begin, s.end)) && extents == Extents(pd.D(), Addresses(s.begin, s.end))
  {
    hide FateOf, EntryOf, HasTable, Lacking, DirOk, SupplyOk, SameEntries, Target, Pages, Extents, Addresses;
    ghost var d := pd.D();
    pages, extents := [], [];
    var a: nat := s.begin;
    while a < s.end
      invariant pd.Valid() && pd.D() == d && pd.supply == old(pd.supply)
      invariant pages + Pages(d, Addresses(a, s.end)) == Pages(d, Addresses(s.begin, s.end))
      invariant extents + Extents(d, Addresses(a, s.end)) == Extents(d, Addresses(s.begin, s.end))
      decreases if a < s.end then s.end - a else 0
    {
      Front(d, a, s.end);
      var r, i := pd.GetPte(a, false);
      Decide(d, a, r, i);
      if r.Table? {
        var e := pd.mem[r.t][i];
        if !ValidBit(e) && e != 0 {
          extents := extents + [e / PAGE_SIZE % U32_MAX];
        } else {
          pages := pages + [Target(e)];
        }
      }
      a := a + PAGE_SIZE;
    }
    assert Addresses(a, s.end) == [] by { NoAddress(a, s.end); }
    Nothing(d);
  }

  lemma NoAddress(a: nat, end: U64)
    requires a >= end
    ensures Addresses(a, end) == []
  {
  }

  lemma Front(d: Dir, a: U64, end: U64)
    requires a < end
    ensures var rest := Addresses(a + PAGE_SIZE, end); var f := FateOf(d, a);
            && Pages(d, Addresses(a, end)) == (if f.Page? then [f.p] else []) + Pages(d, rest)
            && Extents(d, Addresses(a, end)) == (if f.Extent? then [f.bno] else []) + Extents(d, rest)
  {
    hide FateOf;
    var rest := Addresses(a, end);
    assert rest[0] == a && rest[1..] == Addresses(a + PAGE_SIZE, end);
  }

  lemma Decide(d: Dir, va: U64, r: Step, i: nat)
    requires i == Parts(va)[3] && r != Crash && (r == Missing <==> !HasTable(d.path, Parts(va)[..3]))
    requires r.Table? ==> r.t in d.mem && EntryOf(d, Parts(va)) == d.mem[r.t][i]
    ensures r == Missing ==> FateOf(d, va) == Skip
    ensures r.Table? ==>
              var e := d.mem[r.t][i];
              FateOf(d, va) == if !ValidBit(e) && e != 0 then Extent(e / PAGE_SIZE % U32_MAX) else Page(Target(e))
  {
  }

  // free_sections.
  method FreeSections(pd: PageDir, ss: seq<Section>) returns (pages: seq<nat>, extents: seq<U32>)
    requires pd.Valid() && SectionsOk(ss)
    modifies pd
    ensures pd.Valid() && pd.D() == old(pd.D()) && pd.supply == old(pd.supply)
    ensures pages == Pages(pd.D(), AllAddresses(ss)) && extents == Extents(pd.D(), AllAddresses(ss))
  {
    hide FateOf, DirOk, SupplyOk, Pages, Extents, Addresses;
    ghost var d := pd.D();
    pages, extents := [], [];
    var k := 0;
    while k < |ss|
      invariant 0 <= k <= |ss| && pd.Valid() && pd.D() == d && pd.supply == old(pd.supply)
      invariant pages + Pages(d, AllAddresses(ss[k..])) == Pages(d, AllAddresses(ss))
      invariant extents + Extents(d, AllAddresses(ss[k..])) == Extents(d, AllAddresses(ss))
    {
      assert ss[k..][0] == ss[k] && ss[k..][1..] == ss[k + 1..];
      Concat(d, Addresses(ss[k].begin, ss[k].end), AllAddresses(ss[k + 1..]));
      var ps, es := FreeSection(pd, ss[k]);
      pages, extents := pages + ps, extents + es;
      k := k + 1;
    }
    Nothing(d);
  }

  lemma Nothing(d: Dir)
    ensures Pages(d, []) == [] && Extents(d, []) == []
  {
  }

  // ---- free_pgdir ----

  ghost function Reversed(q: seq<nat>): seq<nat> { if q == [] then [] else Reversed(q[1..]) + [q[0]] }

  // The pages of the sections went to the free pages, and then every table, each once.
  ghost predicate SpaceFreed(d: Dir, supply: seq<nat>, ss: seq<Section>, mem': Memory, supply': seq<nat>) {
    exists fs :: Distinct(fs) && Elements(fs) == d.path.Keys && mem' == d.mem - d.path.Keys
                 && supply' == fs + (Reversed(Pages(d, AllAddresses(ss))) + supply)
  }

  // free_pgdir. The pages that are mapped hold no tables.
  method FreeSpace(pd: PageDir, ss: seq<Section>) returns (extents: seq<U32>)
    requires pd.Valid() && SectionsOk(ss) && forall p :: p in Pages(pd.D(), AllAddresses(ss)) ==> p !in pd.mem
    modifies pd
    ensures extents == Extents(old(pd.D()), AllAddresses(ss))
    ensures SpaceFreed(old(pd.D()), old(pd.supply), ss, pd.mem, pd.supply)
  {
    hide DirOk, SupplyOk, Pages, Extents, AllAddresses;
    ghost var d := pd.D();
    var pages;
    pages, extents := FreeSections(pd, ss);
    var k := 0;
    assert pages[..0] == [];
    while k < |pages|
      invariant 0 <= k <= |pages| && pd.D() == d && pd.supply == Reversed(pages[..k]) + old(pd.supply)
      invariant forall p :: p in pages ==> p !in d.mem
    {
      ReversedNext(pages, k);
      assert pages[k] in pages;
      assert d.mem - {pages[k]} == d.mem;
      pd.KfreePage(pages[k]);
      assert [pages[k]] + (Reversed(pages[..k]) + old(pd.supply)) == [pages[k]] + Reversed(pages[..k]) + old(pd.supply);
      k := k + 1;
    }
    assert pages[..k] == pages;
    ghost var fs := pd.FreePgdir();
  }

  lemma {:induction false} ReversedNext(q: seq<nat>, k: nat)
    requires k < |q|
    ensures Reversed(q[..k + 1]) == [q[k]] + Reversed(q[..k])
  {
    if k == 0 {
      assert q[..1] == [q[0]] && q[..0] == [] && [q[0]][1..] == [];
    } else {
      var t := q[1..];
      ReversedNext(t, k - 1);
      assert q[..k + 1][1..] == t[..k] && q[..k][1..] == t[..k - 1] && t[k - 1] == q[k];
    }
  }

  // ---- which pages are given back ----

  // The number of addresses that lead to the page p.
  ghost function Hits(d: Dir, va: seq<U64>, p: nat): nat {
    if va == [] then 0 else (if FateOf(d, va[0]) == Page(p) then 1 else 0) + Hits(d, va[1..], p)
  }

  // A page is given back as often as addresses lead to it.
  lemma {:induction false} PagesOften(d: Dir, va: seq<U64>, p: nat)
    ensures multiset(Pages(d, va))[p] == Hits(d, va, p)
  {
    hide FateOf;
    if va != [] {
      PagesOften(d, va[1..], p);
      var first := if FateOf(d, va[0]).Page? then [FateOf(d, va[0]).p] else [];
      assert multiset(first + Pages(d, va[1..])) == multiset(first) + multiset(Pages(d, va[1..]));
    }
  }

  // The page at physical address 0, which was never handed out, is given back exactly for an address that has a
  // table but no entry, or whose entry leads there.
  lemma PageZero(d: Dir, va: U64)
    ensures FateOf(d, va) == Page(KSPACE_MASK)
            <==> HasTable(d.path, Parts(va)[..3])
                 && var e := EntryOf(d, Parts(va)); e == 0 || (ValidBit(e) && e % SPAN < PAGE_SIZE)
  {
    hide EntryOf, HasTable, Parts;
    var e := EntryOf(d, Parts(va));
    ZeroTarget(e);
    hide Target;
  }

  lemma ZeroTarget(e: U64)
    ensures Target(e) == KSPACE_MASK <==> e % SPAN < PAGE_SIZE
  {
    var x := e % SPAN;
    assert x / PAGE_SIZE == 0 <==> x < PAGE_SIZE;
  }

  // The entry that swapping out leaves gives back the extent that was swapped to.
  lemma SwappedOut(d: Dir, va: U64, bno: U32)
    requires HasTable(d.path, Parts(va)[..3]) && EntryOf(d, Parts(va)) == bno * 0x1000 && 0 < bno < 0x10_0000
    ensures FateOf(d, va) == Extent(bno)
  {
    hide EntryOf, HasTable, Parts;
    assert bno * 0x1000 % 2 == 0;
    assert bno * 0x1000 / PAGE_SIZE == bno;
  }

  // An entry that is valid gives back its page.
  lemma ValidPage(d: Dir, va: U64)
    requires HasTable(d.path, Parts(va)[..3]) && EntryOf(d, Parts(va)) % 2 == 1
    ensures FateOf(d, va) == Page(KSPACE_MASK + EntryOf(d, Parts(va)) % SPAN / 0x1000 * 0x1000)
  {
    hide EntryOf, HasTable, Parts;
  }

  // A section of one page that was never touched, next to one that was: the page at address 0 is given back.
  method UntouchedPage(pd: PageDir) returns (pages: seq<nat>)
    requires pd.Valid() && pd.pt == NULL && |pd.supply| >= 4
    modifies pd
    ensures pages == [KSPACE_MASK]
  {
    hide DirOk, SupplyOk, EntryOf, Target;
    ghost var d := pd.D();
    NoTables(d);
    var r, i := pd.GetPte(PAGE_SIZE, true);
    Neighbours(d, pd.D(), r);
    ghost var d1 := pd.D();
    var extents;
    pages, extents := FreeSections(pd, [Section(0, PAGE_SIZE)]);
    OnePage(d1);
  }

  lemma NoTables(d: Dir)
    requires DirOk(d) && d.root == NULL
    ensures d.path == map[] && EntryOf(d, Parts(0)) == 0 && Lacking(d.path, Parts(PAGE_SIZE)) <= 4
  {
  }

  lemma Neighbours(d: Dir, d': Dir, r: Step)
    requires SameEntries(d, d') && EntryOf(d, Parts(0)) == 0 && r.Table? && r.t in d'.path
    requires d'.path[r.t] == Parts(PAGE_SIZE)[..3]
    ensures FateOf(d', 0) == Page(KSPACE_MASK)
  {
    assert Parts(PAGE_SIZE) == [0, 0, 0, 1] && Parts(0) == [0, 0, 0, 0];
    assert Parts(PAGE_SIZE)[..3] == Parts(0)[..3];
    assert EntryOf(d', Parts(0)) == 0;
    hide EntryOf;
    PageZero(d', 0);
  }

  lemma OnePage(d: Dir)
    requires FateOf(d, 0) == Page(KSPACE_MASK)
    ensures Pages(d, AllAddresses([Section(0, PAGE_SIZE)])) == [KSPACE_MASK]
  {
    hide FateOf;
    assert Addresses(PAGE_SIZE, PAGE_SIZE) == [];
    assert Addresses(0, PAGE_SIZE) == [0];
    assert [Section(0, PAGE_SIZE)][1..] == [];
    assert AllAddresses([Section(0, PAGE_SIZE)]) == [0];
    assert [0][1..] == [];
    assert Pages(d, [0]) == [KSPACE_MASK] + Pages(d, []);
  }
}
