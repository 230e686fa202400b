/** Directories (src/fs/inode.c): files of 16-byte entries that stand for a finite map from names to
    inode numbers. */
module Directory {
  import opened Basics
  import opened Bytes
  import opened LogSpec
  import opened BlockMap
  import opened Quota
  import opened FileQuota
  import opened Inode

  const NAME_LENGTH: nat := 14
  const ENTRY_SIZE: nat := 16
  const DIRECTORY: U16 := 1

  type Name = seq<Byte>

  // ---- strings (src/common/string.c) ----

  // The i-th character of a string, which ends in a zero.
  function At(s: seq<Byte>, i: nat): Byte { if i < |s| then s[i] else 0 }

  // The first n characters; from the end of the string on, zeros.
  function Norm(s: seq<Byte>, n: nat): (r: Name)
    ensures |r| == n
  {
    if n == 0 then [] else if At(s, 0) == 0 then seq(n, _ => 0) else [s[0]] + Norm(s[1..], n - 1)
  }

  // No zero among the first i characters.
  predicate Running(s: seq<Byte>, i: nat) { i <= |s| && forall j :: 0 <= j < i ==> s[j] != 0 }

  lemma {:induction false} NormAt(s: seq<Byte>, n: nat, k: nat)
    requires k < n
    ensures Norm(s, n)[k] == if Running(s, k) then At(s, k) else 0
  {
    if At(s, 0) != 0 && k > 0 {
      NormAt(s[1..], n - 1, k - 1);
      assert Running(s, k) <==> Running(s[1..], k - 1);
    }
  }

  // strncpy.
  method Strncpy(src: seq<Byte>, n: nat) returns (dest: seq<Byte>)
    ensures dest == Norm(src, n)
  {
    var i := 0;
    dest := [];
    while i < n && At(src, i) != 0
      invariant 0 <= i <= n && |dest| == i && Running(src, i) && forall j :: 0 <= j < i ==> dest[j] == src[j]
      decreases n - i
    {
      dest := dest + [src[i]];
      i := i + 1;
    }
    ghost var m := i;
    while i < n
      invariant m <= i <= n && |dest| == i && Running(src, m) && (i > m ==> At(src, m) == 0)
      invariant forall j :: 0 <= j < i ==> dest[j] == if j < m then src[j] else 0
    {
      dest := dest + [0];
      i := i + 1;
    }
    forall j | 0 <= j < n ensures dest[j] == Norm(src, n)[j] {
      NormAt(src, n, j);
    }
  }

  // strncmp: zero exactly for strings that are the same as names of n characters.
  method Strncmp(a: seq<Byte>, b: seq<Byte>, n: nat) returns (r: int)
    ensures r == 0 <==> Norm(a, n) == Norm(b, n)
  {
    var i := 0;
    while i < n
      invariant 0 <= i <= n && Running(a, i) && Running(b, i) && forall j :: 0 <= j < i ==> a[j] == b[j]
    {
      NormAt(a, n, i);
      NormAt(b, n, i);
      if At(a, i) != At(b, i) {
        return At(a, i) - At(b, i);
      }
      if At(a, i) == 0 || At(b, i) == 0 {
        break;
      }
      i := i + 1;
    }
    forall j | 0 <= j < n ensures Norm(a, n)[j] == Norm(b, n)[j] {
      NormAt(a, n, j);
      NormAt(b, n, j);
    }
    return 0;
  }

  // ---- entries ----

  function Slots(c: seq<Byte>): nat { |c| / ENTRY_SIZE }

  function Slot(c: seq<Byte>, i: nat): (r: seq<Byte>)
    requires i < Slots(c)
    ensures |r| == ENTRY_SIZE
  {
    c[i * ENTRY_SIZE..(i + 1) * ENTRY_SIZE]
  }

  // The inode number of an entry; 0 marks a free one.
  function Num(de: seq<Byte>): U16
    requires |de| == ENTRY_SIZE
  {
    WordWidth();
    ValueLittle(de[..2]);
    Value(de[..2])
  }

  function NameOf(de: seq<Byte>): Name
    requires |de| == ENTRY_SIZE
  {
    Norm(de[2..], NAME_LENGTH)
  }

  // The inode number is in the first two bytes, and the name, up to a zero or the end, in the fourteen after them.
  lemma EntryBytes(de: seq<Byte>)
    requires |de| == ENTRY_SIZE
    ensures Num(de) == Le16(de, 0)
    ensures forall i :: 0 <= i < NAME_LENGTH ==>
              NameOf(de)[i] == if forall j :: 2 <= j < 2 + i ==> de[j] != 0 then de[2 + i] else 0
  {
    ValueShort(de, 0);
    var s := de[2..];
    forall i | 0 <= i < NAME_LENGTH
      ensures NameOf(de)[i] == if forall j :: 2 <= j < 2 + i ==> de[j] != 0 then de[2 + i] else 0
    {
      NormAt(s, NAME_LENGTH, i);
      if Running(s, i) {
        forall j | 2 <= j < 2 + i ensures de[j] != 0 {
          assert s[j - 2] != 0;
        }
      }
    }
  }

  // An entry as insert writes it.
  function NewEntry(num: U16, name: Name): (r: seq<Byte>)
    requires |name| == NAME_LENGTH
    ensures |r| == ENTRY_SIZE
  {
    Little(num, 2) + name
  }

  lemma {:induction false} NormNorm(s: seq<Byte>, n: nat)
    ensures Norm(Norm(s, n), n) == Norm(s, n)
  {
    if n > 0 && At(s, 0) != 0 {
      NormNorm(s[1..], n - 1);
      assert Norm(s, n)[1..] == Norm(s[1..], n - 1);
    }
  }

  lemma NewEntryParts(num: U16, name: seq<Byte>)
    ensures var de := NewEntry(num, Norm(name, NAME_LENGTH)); Num(de) == num && NameOf(de) == Norm(name, NAME_LENGTH)
  {
    var de := NewEntry(num, Norm(name, NAME_LENGTH));
    WordWidth();
    LittleValue(num, 2);
    assert de[..2] == Little(num, 2) && de[2..] == Norm(name, NAME_LENGTH);
    NormNorm(name, NAME_LENGTH);
  }

  lemma FreeEntry()
    ensures Num(seq(ENTRY_SIZE, _ => 0)) == 0
  {
    ZeroValue(seq(ENTRY_SIZE, _ => 0)[..2]);
  }

  // ---- the map ----

  // Whole entries, and no name twice.
  ghost predicate DirOk(c: seq<Byte>) {
    && |c| % ENTRY_SIZE == 0
    && forall i, j :: 0 <= i < j < Slots(c) && Num(Slot(c, i)) != 0 && Num(Slot(c, j)) != 0 ==>
         NameOf(Slot(c, i)) != NameOf(Slot(c, j))
  }

  // The entry i is in use and has the name x.
  ghost predicate Holds(c: seq<Byte>, i: nat, x: Name) {
    i < Slots(c) && Num(Slot(c, i)) != 0 && NameOf(Slot(c, i)) == x
  }

  ghost function Names(c: seq<Byte>): set<Name> {
    set i: nat | i < Slots(c) && Num(Slot(c, i)) != 0 :: NameOf(Slot(c, i))
  }

  // What the directory means.
  ghost function DirMap(c: seq<Byte>): (m: map<Name, U16>) {
    map x | x in Names(c) :: NumOf(c, x)
  }

  ghost function NumOf(c: seq<Byte>, x: Name): U16
    requires x in Names(c)
  {
    var i: nat :| i < Slots(c) && Num(Slot(c, i)) != 0 && NameOf(Slot(c, i)) == x;
    Num(Slot(c, i))
  }

  // Writing one entry, possibly right after the last one.
  lemma SlotSplice(c: seq<Byte>, i: nat, de: seq<Byte>)
    requires |c| % ENTRY_SIZE == 0 && i <= Slots(c) && |de| == ENTRY_SIZE
    ensures i * ENTRY_SIZE <= |c|
    ensures var c' := Splice(c, i * ENTRY_SIZE, de);
            && |c'| % ENTRY_SIZE == 0 && Slots(c') == (if i == Slots(c) then i + 1 else Slots(c)) && Slot(c', i) == de
            && forall j :: 0 <= j < Slots(c) && j != i ==> Slot(c', j) == Slot(c, j)
  {
    var c' := Splice(c, i * ENTRY_SIZE, de);
    assert |c| == Slots(c) * ENTRY_SIZE;
    forall j | 0 <= j < Slots(c) && j != i ensures Slot(c', j) == Slot(c, j) {
      if j < i {
        assert (j + 1) * ENTRY_SIZE <= i * ENTRY_SIZE;
      } else {
        assert (i + 1) * ENTRY_SIZE <= j * ENTRY_SIZE;
      }
    }
  }

  lemma Bound(c: seq<Byte>, i: nat, x: Name)
    requires DirOk(c) && Holds(c, i, x)
    ensures x in DirMap(c) && DirMap(c)[x] == Num(Slot(c, i))
  {
    hide Num, Slot, NameOf, Slots;
    assert x in Names(c);
  }

  lemma Unbound(c: seq<Byte>, x: Name)
    requires forall i: nat :: !Holds(c, i, x)
    ensures x !in DirMap(c)
  {
    if x in Names(c) {
      var i: nat :| i < Slots(c) && Num(Slot(c, i)) != 0 && NameOf(Slot(c, i)) == x;
      assert Holds(c, i, x);
      assert false;
    }
  }

  // A map that agrees with every entry, and has no other names, is the one that the directory means.
  lemma MapIs(c: seq<Byte>, m: map<Name, U16>)
    requires DirOk(c)
    requires forall i: nat, x :: Holds(c, i, x) ==> x in m && m[x] == Num(Slot(c, i))
    requires forall x :: x in m ==> exists i: nat :: Holds(c, i, x)
    ensures DirMap(c) == m
  {
    hide Slot, Num, NameOf, Slots, DirOk;
    forall x | x in m ensures x in DirMap(c) && DirMap(c)[x] == m[x] {
      var i: nat :| Holds(c, i, x);
      Bound(c, i, x);
    }
    forall x | x in DirMap(c) ensures x in m {
      if forall i: nat :: !Holds(c, i, x) {
        Unbound(c, x);
        assert false;
      }
    }
  }

  lemma NameHeld(c: seq<Byte>, x: Name) returns (i: nat)
    requires DirOk(c) && x in DirMap(c)
    ensures Holds(c, i, x) && DirMap(c)[x] == Num(Slot(c, i))
  {
    i :| i < Slots(c) && Num(Slot(c, i)) != 0 && NameOf(Slot(c, i)) == x;
    Bound(c, i, x);
  }

  // What the entries of c and of c' hold, where c' has the entry de more, at i.
  lemma AddedHolds(c: seq<Byte>, c': seq<Byte>, i: nat, de: seq<Byte>)
    requires DirOk(c) && i <= Slots(c) && |de| == ENTRY_SIZE && NameOf(de) !in DirMap(c)
    requires i < Slots(c) ==> Num(Slot(c, i)) == 0
    requires |c'| % ENTRY_SIZE == 0 && Slots(c') == (if i == Slots(c) then i + 1 else Slots(c)) && Slot(c', i) == de
    requires forall j :: 0 <= j < Slots(c) && j != i ==> Slot(c', j) == Slot(c, j)
    ensures forall j: nat, x :: Holds(c', j, x) <==> Holds(c, j, x) || (j == i && Num(de) != 0 && x == NameOf(de))
    ensures DirOk(c')
  {
    hide Slot, Num, NameOf, Slots, DirMap;
    forall j: nat, x ensures Holds(c', j, x) <==> Holds(c, j, x) || (j == i && Num(de) != 0 && x == NameOf(de)) {
    }
    forall j: nat, x | Holds(c, j, x) ensures x != NameOf(de) {
      Bound(c, j, x);
    }
    forall j, k | 0 <= j < k < Slots(c') && Num(Slot(c', j)) != 0 && Num(Slot(c', k)) != 0
      ensures NameOf(Slot(c', j)) != NameOf(Slot(c', k))
    {
      assert Holds(c', j, NameOf(Slot(c', j))) && Holds(c', k, NameOf(Slot(c', k)));
    }
  }

  // An entry for a new name in a free place adds one binding; a number 0 adds none.
  lemma Added(c: seq<Byte>, i: nat, de: seq<Byte>)
    requires DirOk(c) && i <= Slots(c) && |de| == ENTRY_SIZE && NameOf(de) !in DirMap(c)
    requires i < Slots(c) ==> Num(Slot(c, i)) == 0
    ensures i * ENTRY_SIZE <= |c| && DirOk(Splice(c, i * ENTRY_SIZE, de))
    ensures DirMap(Splice(c, i * ENTRY_SIZE, de)) == if Num(de) == 0 then DirMap(c)
              else DirMap(c)[NameOf(de) := Num(de)]
    ensures Num(de) != 0 ==> Holds(Splice(c, i * ENTRY_SIZE, de), i, NameOf(de))
  {
    SlotSplice(c, i, de);
    var c' := Splice(c, i * ENTRY_SIZE, de);
    var m := if Num(de) == 0 then DirMap(c) else DirMap(c)[NameOf(de) := Num(de)];
    AddedHolds(c, c', i, de);
    hide Splice, Slot, Num, NameOf, Slots, DirMap, DirOk;
    forall j: nat, x | Holds(c', j, x) ensures x in m && m[x] == Num(Slot(c', j)) {
      if Holds(c, j, x) {
        Bound(c, j, x);
      }
    }
    hide Holds;
    forall x | x in m ensures exists j: nat :: Holds(c', j, x) {
      if x in DirMap(c) {
        var j := NameHeld(c, x);
        assert Holds(c', j, x);
      } else {
        assert Holds(c', i, x);
      }
    }
    MapIs(c', m);
  }

  // Clearing an entry removes its binding; one more free entry at the end adds none.
  lemma Cleared(c: seq<Byte>, i: nat, de: seq<Byte>)
    requires DirOk(c) && i <= Slots(c) && |de| == ENTRY_SIZE && Num(de) == 0
    ensures i * ENTRY_SIZE <= |c| && DirOk(Splice(c, i * ENTRY_SIZE, de))
    ensures DirMap(Splice(c, i * ENTRY_SIZE, de)) == Unnamed(c, i)
  {
    hide Splice, Slot, Num, NameOf, DirMap;
    SlotSplice(c, i, de);
    hide Slots;
    var c' := Splice(c, i * ENTRY_SIZE, de);
    var m := Unnamed(c, i);
    assert DirOk(c');
    forall j: nat, x | Holds(c', j, x) ensures x in m && m[x] == Num(Slot(c', j)) {
      Bound(c, j, x);
      assert j != i;
      if i < Slots(c) && Num(Slot(c, i)) != 0 {
        assert NameOf(Slot(c, i)) != x;
      }
    }
    hide DirOk;
    forall x | x in m ensures exists j: nat :: Holds(c', j, x) {
      var j := NameHeld(c, x);
      assert Holds(c', j, x);
    }
    MapIs(c', m);
  }

  lemma ClearedAt(c: seq<Byte>, index: nat, de: seq<Byte>)
    requires DirOk(c) && index % ENTRY_SIZE == 0 && index <= |c| && |de| == ENTRY_SIZE && Num(de) == 0
    ensures DirOk(Splice(c, index, de)) && DirMap(Splice(c, index, de)) == Unnamed(c, index / ENTRY_SIZE)
  {
    hide DirMap, Num, Slot, Splice;
    DirWhole(c);
    hide DirOk;
    assert index / ENTRY_SIZE * ENTRY_SIZE == index && index / ENTRY_SIZE <= Slots(c);
    Cleared(c, index / ENTRY_SIZE, de);
  }

  // The map without the binding of the entry i, if it has one.
  ghost function Unnamed(c: seq<Byte>, i: nat): map<Name, U16> {
    if i < Slots(c) && Num(Slot(c, i)) != 0 then DirMap(c) - {NameOf(Slot(c, i))} else DirMap(c)
  }

  // ---- the operations ----

  lemma SlotAt(c: seq<Byte>, k: nat, off: nat)
    requires |c| % ENTRY_SIZE == 0 && off == k * ENTRY_SIZE
    ensures off < |c| <==> k < Slots(c)
    ensures off < |c| ==> off + ENTRY_SIZE <= |c| && c[off..off + ENTRY_SIZE] == Slot(c, k)
    ensures k == Slots(c) ==> off == |c|
  {
  }

  // The entry at off, read through inode_read.
  method ReadEntry(fs: FileSystem, ino: nat, off: nat, ghost k: nat) returns (de: seq<Byte>)
    requires fs.Valid() && ino in fs.mem && off == k * ENTRY_SIZE && off < fs.mem[ino].entry.num_bytes
    requires |Content(fs.mem[ino].entry, fs.st.blocks)| % ENTRY_SIZE == 0
    modifies fs
    ensures fs.st == old(fs.st) && fs.disk == old(fs.disk) && fs.mem == old(fs.mem) && fs.ledger == old(fs.ledger)
    ensures k < Slots(Content(fs.mem[ino].entry, fs.st.blocks))
    ensures de == Slot(Content(fs.mem[ino].entry, fs.st.blocks), k)
  {
    hide Steady, Cached, Apart, Content;
    SlotAt(Content(fs.mem[ino].entry, fs.st.blocks), k, off);
    hide Slot, Slots;
    var r := fs.Read(ino, off, ENTRY_SIZE);
    assert r.Done?;
    de := r.value;
  }

  // inode_lookup.
  method Lookup(fs: FileSystem, ino: nat, name: seq<Byte>) returns (r: Outcome<U16>, index: nat)
    requires fs.Valid() && ino in fs.mem && DirOk(Content(fs.mem[ino].entry, fs.st.blocks))
    modifies fs
    ensures fs.st == old(fs.st) && fs.disk == old(fs.disk) && fs.mem == old(fs.mem) && fs.ledger == old(fs.ledger)
    ensures r.Panic? <==> fs.mem[ino].entry.kind != DIRECTORY
    ensures var c, x := Content(fs.mem[ino].entry, fs.st.blocks), Norm(name, NAME_LENGTH);
            && (r == Done(0) ==> x !in DirMap(c))
            && (r.Done? && r.value != 0 ==>
                x in DirMap(c) && DirMap(c)[x] == r.value && index % ENTRY_SIZE == 0 && Holds(c, index / ENTRY_SIZE, x))
  {
    hide Steady, Cached, Apart, Content, DirMap, Slot, Num, NameOf, Slots;
    index := 0;
    if fs.mem[ino].entry.kind != DIRECTORY {
      return Panic, index;
    }
    ghost var c, x := Content(fs.mem[ino].entry, fs.st.blocks), Norm(name, NAME_LENGTH);
    var off := 0;
    ghost var k := 0;
    while off < fs.mem[ino].entry.num_bytes
      invariant off == k * ENTRY_SIZE && k <= Slots(c) && fs.st == old(fs.st) && fs.disk == old(fs.disk)
      invariant fs.mem == old(fs.mem) && fs.ledger == old(fs.ledger)
      invariant forall i: nat :: i < k ==> !Holds(c, i, x)
      decreases Slots(c) - k
    {
      SlotAt(c, k, off);
      var de := ReadEntry(fs, ino, off, k);
      if Num(de) != 0 {
        var d := Strncmp(de[2..], name, NAME_LENGTH);
        NameIs(de);
        if d == 0 {
          Bound(c, k, x);
          assert off % ENTRY_SIZE == 0 && off / ENTRY_SIZE == k;
          return Done(Num(de)), off;
        }
      }
      off, k := off + ENTRY_SIZE, k + 1;
    }
    SlotAt(c, k, off);
    assert forall i: nat :: !Holds(c, i, x);
    Unbound(c, x);
    return Done(0), index;
  }

  lemma NameIs(de: seq<Byte>)
    requires |de| == ENTRY_SIZE
    ensures NameOf(de) == Norm(de[2..], NAME_LENGTH)
  {
  }

  // All entries before the k-th are in use, and it is free or the end.
  ghost predicate FirstPlace(c: seq<Byte>, k: nat) {
    k <= Slots(c) && (forall i :: 0 <= i < k ==> Num(Slot(c, i)) != 0) && (k < Slots(c) ==> Num(Slot(c, k)) == 0)
  }

  // There is only one such place.
  lemma OnePlace(c: seq<Byte>, k: nat, j: nat)
    requires FirstPlace(c, k) && FirstPlace(c, j)
    ensures j == k
  {
    hide Slots, Slot, Num;
    assert !(j < k) && !(k < j);
  }

  // The second loop of inode_insert: the first free entry, or the end.
  method FindFree(fs: FileSystem, ino: nat) returns (off: nat, ghost k: nat)
    requires fs.Valid() && ino in fs.mem && |Content(fs.mem[ino].entry, fs.st.blocks)| % ENTRY_SIZE == 0
    modifies fs
    ensures fs.st == old(fs.st) && fs.disk == old(fs.disk) && fs.mem == old(fs.mem) && fs.ledger == old(fs.ledger)
    ensures var c := Content(fs.mem[ino].entry, fs.st.blocks);
            && off == k * ENTRY_SIZE && k <= Slots(c) && (forall i :: 0 <= i < k ==> Num(Slot(c, i)) != 0)
            && (k < Slots(c) ==> Num(Slot(c, k)) == 0)
  {
    hide Steady, Cached, Apart, Content, Slot, Num, Slots;
    ghost var c := Content(fs.mem[ino].entry, fs.st.blocks);
    off, k := 0, 0;
    while off < fs.mem[ino].entry.num_bytes
      invariant off == k * ENTRY_SIZE && k <= Slots(c) && forall i :: 0 <= i < k ==> Num(Slot(c, i)) != 0
      invariant fs.st == old(fs.st) && fs.disk == old(fs.disk) && fs.mem == old(fs.mem) && fs.ledger == old(fs.ledger)
      decreases Slots(c) - k
    {
      SlotAt(c, k, off);
      var de := ReadEntry(fs, ino, off, k);
      if Num(de) == 0 {
        return;
      }
      off, k := off + ENTRY_SIZE, k + 1;
    }
    SlotAt(c, k, off);
  }

  // inode_insert: -1 for a name that is bound; PANIC exactly for a file that is no directory, or if the entry cannot
  // be written at the first free place.
  method Insert(fs: FileSystem, ctx: nat, ino: nat, name: seq<Byte>, inode_no: U64) returns (r: Outcome<int>)
    requires fs.Valid() && ino in fs.mem && DirOk(Content(fs.mem[ino].entry, fs.st.blocks)) && CtxOk(fs.ledger, ctx)
    modifies fs
    ensures Formed(old(fs.mem)[ino].entry, old(fs.st).blocks)
    ensures var e, c, x := old(fs.mem)[ino].entry, Content(old(fs.mem)[ino].entry, old(fs.st).blocks),
              Norm(name, NAME_LENGTH);
            && (r == Done(-1) <==> e.kind == DIRECTORY && x in DirMap(c))
            && (r.Panic? <==>
                  e.kind != DIRECTORY
                  || (x !in DirMap(c)
                      && exists k: nat :: FirstPlace(c, k)
                           && !CanWrite(fs.lay, old(fs.ledger), ctx, ino, e, old(fs.st), k * ENTRY_SIZE, ENTRY_SIZE)))
            && (r.Done? && r.value != -1 ==>
                  fs.Valid() && ino in fs.mem
                    && Inserted(c, Content(fs.mem[ino].entry, fs.st.blocks), x, inode_no % 0x1_0000, r.value)
                    && r.value / ENTRY_SIZE <= Slots(c)
                    && (forall i :: 0 <= i < r.value / ENTRY_SIZE ==> Num(Slot(c, i)) != 0)
                    && (r.value == |c| || Num(Slot(c, r.value / ENTRY_SIZE)) == 0))
    ensures r == Done(-1) ==>
              fs.st == old(fs.st) && fs.disk == old(fs.disk) && fs.mem == old(fs.mem) && fs.ledger == old(fs.ledger)
    ensures r.Done? ==> SameOthers(old(fs.disk), old(fs.st).blocks, fs.disk, fs.st.blocks, ino)
    ensures r.Done? ==> SameBlocks(fs.reserved, old(fs.st).blocks, fs.st.blocks)
  {
    hide Steady, Cached, Apart, Content, DirMap, Slot, Num, NameOf, Slots, Splice, SameOthers, DirOk, CanWrite,
         WrittenFor, FileOk, StoreOk, Sound, Recorded, Norm;
    ghost var d0, st0 := fs.disk, fs.st;
    ghost var c := Content(fs.mem[ino].entry, fs.st.blocks);
    DirWhole(c);
    CachedIs(fs.mem, d0, ino);
    ReadOk(d0, st0, ino);
    SoundFormed(d0[ino], st0);
    var found, _ := Lookup(fs, ino, name);
    if found.Panic? {
      return Panic;
    }
    if found.value != 0 {
      SameAll(d0, st0.blocks, ino);
      return Done(-1);
    }
    var off;
    ghost var k;
    off, k := FindFree(fs, ino);
    PlaceFits(fs, ctx, ino, d0[ino], st0, fs.ledger, c, k);
    PlaceEnd(c, k);
    var nm := Strncpy(name, NAME_LENGTH);
    var de := NewEntry(inode_no % 0x1_0000, nm);
    NewEntryParts(inode_no % 0x1_0000, name);
    Added(c, k, de);
    var w := fs.Write(ctx, ino, de, off);
    if w.Panic? {
      return Panic;
    }
    assert Inserted(c, Splice(c, off, de), Norm(name, NAME_LENGTH), inode_no % 0x1_0000, off);
    return Done(off);
  }

  // One binding more, for a name that was not bound; the entry is at off.
  ghost predicate Inserted(c: seq<Byte>, c': seq<Byte>, x: Name, num: U16, off: int) {
    && DirOk(c') && 0 <= off && off % ENTRY_SIZE == 0 && (num != 0 ==> Holds(c', off / ENTRY_SIZE, x))
    && DirMap(c') == if num == 0 then DirMap(c) else DirMap(c)[x := num]
  }

  // At the one place there is, the condition of the failure speaks of that place.
  lemma PlaceFits(fs: FileSystem, ctx: nat, ino: nat, e: Entry, st: Store, l: Ledger, c: seq<Byte>, k: nat)
    requires CtxOk(l, ctx) && Formed(e, st.blocks) && FirstPlace(c, k)
    ensures (exists j: nat :: FirstPlace(c, j) && !CanWrite(fs.lay, l, ctx, ino, e, st, j * ENTRY_SIZE, ENTRY_SIZE))
            <==> !CanWrite(fs.lay, l, ctx, ino, e, st, k * ENTRY_SIZE, ENTRY_SIZE)
  {
    hide FirstPlace, CanWrite;
    forall j: nat | FirstPlace(c, j) ensures j == k {
      OnePlace(c, k, j);
    }
  }

  lemma PlaceEnd(c: seq<Byte>, k: nat)
    requires |c| % ENTRY_SIZE == 0 && k <= Slots(c)
    ensures k < Slots(c) || k * ENTRY_SIZE == |c|
    ensures k * ENTRY_SIZE / ENTRY_SIZE == k
  {
  }

  lemma DirWhole(c: seq<Byte>)
    requires DirOk(c)
    ensures |c| % ENTRY_SIZE == 0
  {
  }

  lemma SameAll(d: Files, bs: seq<Block>, ino: nat)
    ensures SameOthers(d, bs, d, bs, ino)
  {
  }

  // inode_remove: zeros at the index. At an entry's index its binding goes, and no other; at the end a free entry
  // more; anywhere else the bytes are overwritten all the same.
  method Remove(fs: FileSystem, ctx: nat, ino: nat, index: U64) returns (r: Outcome<nat>)
    requires fs.Valid() && ino in fs.mem && DirOk(Content(fs.mem[ino].entry, fs.st.blocks)) && CtxOk(fs.ledger, ctx)
    modifies fs
    ensures Formed(old(fs.mem)[ino].entry, old(fs.st).blocks)
    ensures var e := old(fs.mem)[ino].entry;
            r.Panic? <==>
              e.kind != DIRECTORY || !CanWrite(fs.lay, old(fs.ledger), ctx, ino, e, old(fs.st), index, ENTRY_SIZE)
    ensures r.Done? ==> index <= old(fs.mem)[ino].entry.num_bytes && fs.Valid() && ino in fs.mem
    ensures var c := Content(old(fs.mem)[ino].entry, old(fs.st).blocks);
            r.Done? ==>
              var c' := Content(fs.mem[ino].entry, fs.st.blocks);
              && c' == Splice(c, index, seq(ENTRY_SIZE, _ => 0))
              && (index % ENTRY_SIZE == 0 ==> DirOk(c') && DirMap(c') == Unnamed(c, index / ENTRY_SIZE))
    ensures r.Done? ==> SameOthers(old(fs.disk), old(fs.st).blocks, fs.disk, fs.st.blocks, ino)
    ensures r.Done? ==> SameBlocks(fs.reserved, old(fs.st).blocks, fs.st.blocks)
  {
    hide Steady, Cached, Apart, Content, DirMap, Slot, Num, NameOf, Splice, SameOthers, WrittenFor, FileOk, StoreOk,
         Sound, Unnamed, DirOk, CanWrite, Recorded, SameBlocks;
    ghost var d0, st0, c := fs.disk, fs.st, Content(fs.mem[ino].entry, fs.st.blocks);
    CachedIs(fs.mem, d0, ino);
    ReadOk(d0, st0, ino);
    SoundFormed(d0[ino], st0);
    if fs.mem[ino].entry.kind != DIRECTORY {
      return Panic;
    }
    var de := seq(ENTRY_SIZE, _ => 0);
    RangeFits(fs.lay, fs.ledger, ctx, ino, d0[ino], st0, index, ENTRY_SIZE);
    var w := fs.Write(ctx, ino, de, index);
    if w.Panic? {
      return Panic;
    }
    if index % ENTRY_SIZE == 0 {
      FreeEntry();
      ClearedAt(c, index, de);
    }
    return Done(0);
  }
}
