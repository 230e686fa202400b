/** What a disk says about the files (src/fs/inode.c, src/fs/cache.c): the blocks of data, the bits of the bitmap blocks
    and the entries of the inode blocks. */
module FileImage {
  import opened Basics
  import opened Bytes
  import opened LogSpec
  import opened BlockMap
  import opened Counting
  import opened FreeBlocks
  import opened FileQuota
  import Bitmap
  import Inode
  import InodeDisk

  // ---- bits ----

  // The bit of the block b.
  ghost predicate BitAt(d: Disk, y: Layout, b: nat)
    requires BitBlock(y, b) < |d|
  {
    Bitmap.Test(d[BitBlock(y, b)][Bitmap.SlotOf(b)] as bv8, Bitmap.PosOf(b))
  }

  // The byte with the first n bits from base on.
  function Packed(used: set<nat>, base: nat, n: nat): bv8
    requires n <= 8
  {
    if n == 0 then 0
    else if base + n - 1 in used then Packed(used, base, n - 1) | Bitmap.Mask(n - 1)
    else Packed(used, base, n - 1)
  }

  lemma {:induction false} PackedTest(used: set<nat>, base: nat, n: nat, i: nat)
    requires n <= 8 && i < 8
    ensures Bitmap.Test(Packed(used, base, n), i) <==> i < n && base + i in used
  {
    if n > 0 {
      PackedTest(used, base, n - 1, i);
      hide Bitmap.Test, Bitmap.Mask;
      Bitmap.TestSet(Packed(used, base, n - 1), n - 1, i);
    }
  }

  // The k-th bitmap block.
  function BitsBlock(used: set<nat>, k: nat): Block {
    seq(BLOCK_SIZE, j requires 0 <= j < BLOCK_SIZE => Packed(used, k * BIT_PER_BLOCK + j * 8, 8) as int)
  }

  lemma BitsBlockAt(used: set<nat>, b: nat)
    ensures Bitmap.Test(BitsBlock(used, Bitmap.MapOf(b))[Bitmap.SlotOf(b)] as bv8, Bitmap.PosOf(b)) <==> b in used
  {
    hide Bitmap.Test, Packed;
    var base := Bitmap.MapOf(b) * BIT_PER_BLOCK + Bitmap.SlotOf(b) * 8;
    assert base + Bitmap.PosOf(b) == b;
    PackedTest(used, base, 8, Bitmap.PosOf(b));
  }

  // ---- the areas of the disk ----

  predicate IsBits(y: Layout, size: nat, b: nat) { y.bitmap_start <= b && (b - y.bitmap_start) * BIT_PER_BLOCK < size }

  predicate IsInodes(y: Layout, inodes: nat, b: nat) {
    y.inode_start <= b && (b - y.inode_start) * INODE_PER_BLOCK < inodes
  }

  // The log, the inode blocks and the bitmap blocks lie apart, on the disk, and in the reserved blocks.
  ghost predicate Planned(y: Layout, start: nat, size: nat, inodes: nat, reserved: set<nat>) {
    && (forall b: nat :: IsBits(y, size, b) ==>
        b < size && b in reserved && !InLog(start, b) && !IsInodes(y, inodes, b))
    && (forall b: nat :: IsInodes(y, inodes, b) ==> b < size && b in reserved && !InLog(start, b))
    && (forall b: nat :: InLog(start, b) ==> b in reserved)
  }

  lemma BitsThere(y: Layout, size: nat, b: nat)
    requires b < size
    ensures IsBits(y, size, BitBlock(y, b)) && BitBlock(y, b) - y.bitmap_start == Bitmap.MapOf(b)
  {
  }

  lemma InodesThere(y: Layout, inodes: nat, ino: nat)
    requires ino < inodes
    ensures IsInodes(y, inodes, InodeBlock(y, ino))
  {
  }

  // ---- the files of a disk ----

  // The entry of an inode.
  ghost function EntryAt(d: Disk, y: Layout, ino: nat): Entry
    requires InodeBlock(y, ino) < |d|
  {
    InodeDisk.Fetch(d[InodeBlock(y, ino)], ino % INODE_PER_BLOCK)
  }

  // The disk holds the marked blocks of the store, its marks, and the entries of the files.
  ghost predicate Rep(d: Disk, y: Layout, reserved: set<nat>, inodes: nat, st: Store, files: Files) {
    && |d| == |st.blocks|
    && (forall b :: b in st.used && b !in reserved && b < |d| ==> d[b] == st.blocks[b])
    && (forall b: nat :: b < |d| ==> BitBlock(y, b) < |d| && (BitAt(d, y, b) <==> b in st.used))
    && (forall i :: i in files ==> i < inodes && InodeBlock(y, i) < |d| && EntryAt(d, y, i) == files[i])
  }

  // It is a matter of the home blocks alone.
  lemma RepHome(d: Disk, d': Disk, start: nat, y: Layout, reserved: set<nat>, inodes: nat, st: Store, files: Files)
    requires Planned(y, start, |d|, inodes, reserved) && SameHome(d', d, start)
    requires Rep(d, y, reserved, inodes, st, files)
    ensures Rep(d', y, reserved, inodes, st, files)
  {
    hide Bitmap.Test, InodeDisk.Fetch, IsBits, IsInodes;
    forall b: nat | b < |d| ensures BitAt(d', y, b) <==> BitAt(d, y, b) {
      BitsThere(y, |d|, b);
    }
    forall i | i in files ensures EntryAt(d', y, i) == EntryAt(d, y, i) {
      InodesThere(y, inodes, i);
    }
  }

  // ---- the disk after a write ----

  // The block b, which holds x, with the new marks, the new entry, or the new data.
  function NewData(x: Block, y: Layout, ino: nat, e: Entry, st: Store, b: nat): Block
    requires b < |st.blocks| && |e.addrs| == NUM_DIRECT
  {
    if IsBits(y, |st.blocks|, b) then BitsBlock(st.used, b - y.bitmap_start)
    else if b == InodeBlock(y, ino) then InodeDisk.Put(x, ino % INODE_PER_BLOCK, e)
    else st.blocks[b]
  }

  ghost function NewBlock(d: Disk, y: Layout, ino: nat, e: Entry, st: Store, b: nat): Block
    requires b < |d| == |st.blocks| && |e.addrs| == NUM_DIRECT
  {
    NewData(d[b], y, ino, e, st, b)
  }

  // The blocks in t are new, the others as before.
  ghost predicate Updated(d: Disk, y: Layout, ino: nat, e: Entry, st: Store, t: set<nat>, d': Disk)
    requires |d| == |st.blocks| && |e.addrs| == NUM_DIRECT
  {
    |d'| == |d| && forall b: nat :: b < |d| ==> d'[b] == if b in t then NewBlock(d, y, ino, e, st, b) else d[b]
  }

  lemma UpdatedBits(d: Disk, y: Layout, ino: nat, e: Entry, st0: Store, st: Store, t: set<nat>, d': Disk, b: nat)
    requires |d| == |st.blocks| && |e.addrs| == NUM_DIRECT && Updated(d, y, ino, e, st, t, d') && b < |d|
    requires BitBlock(y, b) < |d| && (BitAt(d, y, b) <==> b in st0.used)
    requires BitBlock(y, b) !in t ==> (b in st.used <==> b in st0.used)
    ensures BitAt(d', y, b) <==> b in st.used
  {
    hide Bitmap.Test, BitsBlock, IsBits;
    BitsThere(y, |d|, b);
    BitsBlockAt(st.used, b);
  }

  lemma UpdatedEntry(d: Disk, y: Layout, inodes: nat, ino: nat, e: Entry, st: Store, t: set<nat>, d': Disk, i: nat)
    requires |d| == |st.blocks| && |e.addrs| == NUM_DIRECT && Updated(d, y, ino, e, st, t, d')
    requires InodeBlock(y, i) < |d| && !IsBits(y, |d|, InodeBlock(y, i))
    requires InodeBlock(y, i) in t ==> InodeBlock(y, i) == InodeBlock(y, ino)
    ensures EntryAt(d', y, i) == if i == ino && InodeBlock(y, ino) in t then e else EntryAt(d, y, i)
  {
    hide InodeDisk.Fetch, InodeDisk.Put, IsBits;
    if InodeBlock(y, i) in t {
      InodeDisk.PutFetch(d[InodeBlock(y, i)], ino % INODE_PER_BLOCK, e, i % INODE_PER_BLOCK);
    }
  }

  // A write syncs no reserved block but bitmap blocks and the file's inode block.
  lemma TouchApart(y: Layout, reserved: set<nat>, ino: nat, files: Files, st: Store, off: nat, n: nat)
    requires Steady(files, st) && Apart(reserved, files, st) && ino in files && Inode.Fitting(files[ino], st, off, n)
    ensures Formed(files[ino], st.blocks)
    ensures forall b :: b in WriteTouch(y, ino, files[ino], st, off, n) && b in reserved ==>
              IsBits(y, |st.blocks|, b) || b == InodeBlock(y, ino)
  {
    hide Growth, NewSet, IsBits, MapAt, BlocksFor, Steady, Apart, FileOk, Owns, OldData, StoreOk, Sound;
    var e, g := files[ino], Growth(files[ino].num_bytes, off + n);
    Inode.ReadOk(files, st, ino);
    Inode.SoundFormed(e, st);
    NewFree(st.used, g);
    NewBound(st.used, g);
    forall b | b in WriteTouch(y, ino, e, st, off, n) && b in reserved
      ensures IsBits(y, |st.blocks|, b) || b == InodeBlock(y, ino)
    {
      NotOwned(reserved, files, st, ino, b);
      if b in OldData(e, st.blocks, off, n) || (b == e.indirect && b != 0) {
        OwnedTouch(e, st, off, n, b);
      } else if c :| c in NewSet(st.used, g) && b == BitBlock(y, c) {
        BitsThere(y, |st.blocks|, c);
      }
    }
  }

  lemma NotOwned(reserved: set<nat>, files: Files, st: Store, ino: nat, b: nat)
    requires Apart(reserved, files, st) && ino in files && b in reserved
    ensures Formed(files[ino], st.blocks) && b in st.used && !Owns(files[ino], st.blocks, b)
  {
  }

  lemma OwnedTouch(e: Entry, st: Store, off: nat, n: nat, b: nat)
    requires FileOk(e, st, BlocksFor(e.num_bytes))
    requires b in OldData(e, st.blocks, off, n) || (b == e.indirect && b != 0)
    ensures Owns(e, st.blocks, b)
  {
    hide MapAt, BlocksFor, Indices;
  }

  // The disk with the synced blocks in place holds the files after the write.
  lemma WrittenRep(d: Disk, start: nat, y: Layout, reserved: set<nat>, inodes: nat, ino: nat, off: nat, n: nat,
                   files0: Files, st0: Store, files: Files, st: Store, d': Disk)
    requires Planned(y, start, |d|, inodes, reserved) && Rep(d, y, reserved, inodes, st0, files0)
    requires Steady(files0, st0) && Apart(reserved, files0, st0)
    requires Inode.Recorded(y, ino, files0, st0, off, n, files, st) && Inode.Fitting(files0[ino], st0, off, n)
    requires ino in files && |files[ino].addrs| == NUM_DIRECT
    requires Updated(d, y, ino, files[ino], st, WriteTouch(y, ino, files0[ino], st0, off, n), d')
    ensures Rep(d', y, reserved, inodes, st, files)
  {
    hide Steady, Apart, NewBlock, WriteTouch, IsBits, IsInodes, Growth, NewSet, BitAt, EntryAt;
    var t := WriteTouch(y, ino, files0[ino], st0, off, n);
    TouchApart(y, reserved, ino, files0, st0, off, n);
    WrittenData(d, start, y, reserved, inodes, ino, off, n, files0, st0, files, st, d');
    forall b: nat | b < |d| ensures BitAt(d', y, b) <==> b in st.used {
      TakenTouch(y, ino, files0[ino], st0, off, n, b);
      UpdatedBits(d, y, ino, files[ino], st0, st, t, d', b);
    }
    forall i | i in files ensures i < inodes && InodeBlock(y, i) < |d| && EntryAt(d', y, i) == files[i] {
      assert i in files0;
      InodesThere(y, inodes, i);
      UpdatedEntry(d, y, inodes, ino, files[ino], st, t, d', i);
      GrownTouch(y, ino, files0[ino], st0, off, n);
    }
  }

  lemma WrittenData(d: Disk, start: nat, y: Layout, reserved: set<nat>, inodes: nat, ino: nat, off: nat, n: nat,
                    files0: Files, st0: Store, files: Files, st: Store, d': Disk)
    requires Planned(y, start, |d|, inodes, reserved) && Rep(d, y, reserved, inodes, st0, files0)
    requires Inode.Recorded(y, ino, files0, st0, off, n, files, st)
    requires ino in files && |files[ino].addrs| == NUM_DIRECT
    requires Updated(d, y, ino, files[ino], st, WriteTouch(y, ino, files0[ino], st0, off, n), d')
    ensures forall b :: b in st.used && b !in reserved && b < |d| ==> d'[b] == st.blocks[b]
  {
    hide WriteTouch, IsBits, IsInodes, Growth, NewSet, BitAt, EntryAt;
    forall b | b in st.used && b !in reserved && b < |d| ensures d'[b] == st.blocks[b] {
      TakenTouch(y, ino, files0[ino], st0, off, n, b);
      assert ino in files0;
      InodesThere(y, inodes, ino);
    }
  }

  // What a write syncs is on the disk, and not in the log.
  lemma TouchThere(start: nat, y: Layout, reserved: set<nat>, inodes: nat, ino: nat, files: Files, st: Store, off: nat,
                   n: nat)
    requires Steady(files, st) && Apart(reserved, files, st) && ino in files && Inode.Fitting(files[ino], st, off, n)
    requires Planned(y, start, |st.blocks|, inodes, reserved) && ino < inodes
    ensures Formed(files[ino], st.blocks)
    ensures forall b :: b in WriteTouch(y, ino, files[ino], st, off, n) ==> b < |st.blocks| && !InLog(start, b)
  {
    hide Growth, NewSet, IsBits, IsInodes, MapAt, BlocksFor, Steady, Apart, FileOk, OldData, StoreOk, Sound;
    TouchApart(y, reserved, ino, files, st, off, n);
    InodesThere(y, inodes, ino);
    var e, g := files[ino], Growth(files[ino].num_bytes, off + n);
    Inode.ReadOk(files, st, ino);
    NewBound(st.used, g);
    forall b | b in WriteTouch(y, ino, e, st, off, n) ensures b < |st.blocks| {
      if b in OldData(e, st.blocks, off, n) || (b == e.indirect && b != 0) {
        OwnedTouch(e, st, off, n, b);
        OwnedThere(e, st, b);
      } else if c :| c in NewSet(st.used, g) && b == BitBlock(y, c) {
        BitsThere(y, |st.blocks|, c);
      }
    }
  }

  lemma OwnedThere(e: Entry, st: Store, b: nat)
    requires StoreOk(st) && Sound(e, st) && Owns(e, st.blocks, b)
    ensures b < |st.blocks|
  {
    hide MapAt;
  }

  // A file read from the disk itself.
  lemma FileOn(d: Disk, y: Layout, reserved: set<nat>, inodes: nat, st: Store, files: Files, ino: nat)
    requires Rep(d, y, reserved, inodes, st, files) && Steady(files, st) && Apart(reserved, files, st) && ino in files
    ensures InodeBlock(y, ino) < |d| && Content(EntryAt(d, y, ino), d) == Content(files[ino], st.blocks)
  {
    hide BitAt, ByteAt, Steady, Apart, Owns, EntryAt, StoreOk, Sound, FileOk;
    var e := files[ino];
    Inode.ReadOk(files, st, ino);
    Inode.SoundFormed(e, st);
    forall b | 0 <= b < |st.blocks| && Owns(e, st.blocks, b) ensures d[b] == st.blocks[b] {
      Inode.OwnedMarked(e, st, b);
      if b in reserved {
        NotOwned(reserved, files, st, ino, b);
      }
    }
    UntouchedFile(e, st, Store(d, st.used));
  }

  // A reader that knows nothing but the layout of the disk: the size in the inode's entry, the number of the block with
  // the k-th byte, which the entry or the indirect block has, and that byte.
  ghost function SizeOn(d: Disk, y: Layout, ino: nat): nat {
    if y.inode_start + ino / 8 < |d| then Le32(d[y.inode_start + ino / 8], 64 * (ino % 8) + 8) else 0
  }

  ghost function BlockOn(d: Disk, y: Layout, ino: nat, k: nat): nat {
    var i, o := y.inode_start + ino / 8, 64 * (ino % 8);
    if i >= |d| then 0
    else if k / 512 < 12 then Le32(d[i], o + 12 + 4 * (k / 512))
    else if k / 512 < 140 && Le32(d[i], o + 60) < |d| then Le32(d[Le32(d[i], o + 60)], 4 * (k / 512 - 12))
    else 0
  }

  ghost function ByteOn(d: Disk, y: Layout, ino: nat, k: nat): Byte {
    if BlockOn(d, y, ino, k) < |d| then d[BlockOn(d, y, ino, k)][k % 512] else 0
  }

  // It finds the file.
  lemma FileBytes(d: Disk, y: Layout, reserved: set<nat>, inodes: nat, st: Store, files: Files, ino: nat)
    requires Rep(d, y, reserved, inodes, st, files) && Steady(files, st) && Apart(reserved, files, st) && ino in files
    ensures SizeOn(d, y, ino) == |Content(files[ino], st.blocks)|
    ensures forall k :: 0 <= k < |Content(files[ino], st.blocks)| ==>
              ByteOn(d, y, ino, k) == Content(files[ino], st.blocks)[k]
  {
    hide BitAt, Steady, Apart, InodeDisk.Fetch, Le16, Le32, Addr;
    FileOn(d, y, reserved, inodes, st, files, ino);
    InodeDisk.EntryBytes(d[InodeBlock(y, ino)], ino % INODE_PER_BLOCK);
    var e := EntryAt(d, y, ino);
    forall k | 0 <= k < |Content(files[ino], st.blocks)|
      ensures ByteOn(d, y, ino, k) == Content(files[ino], st.blocks)[k]
    {
      HasByte(d, y, reserved, inodes, st, files, ino, k);
      hide Rep;
      assert Content(e, d)[k] == ByteAt(e, d, k);
      if k / 512 >= 12 {
        AddrBytes(d[e.indirect], k / 512 - 12);
      }
    }
  }

  // The marks: the bit of block b is in the bitmap block b / 4096, there in the byte b / 8 modulo 512, and there at
  // b modulo 8.
  lemma MarkBytes(d: Disk, y: Layout, reserved: set<nat>, inodes: nat, st: Store, files: Files, b: nat)
    requires Rep(d, y, reserved, inodes, st, files) && b < |d|
    ensures y.bitmap_start + b / 4096 < |d|
    ensures b in st.used <==> (d[y.bitmap_start + b / 4096][b / 8 % 512] as bv8 >> (b % 8)) & 1 == 1
  {
    hide Bitmap.Test, Bitmap.SlotOf, Bitmap.PosOf, EntryAt;
    assert BitAt(d, y, b) <==> b in st.used;
    Bitmap.PlaceOf(b);
    Bitmap.TestShift(d[y.bitmap_start + b / 4096][b / 8 % 512] as bv8, b % 8);
  }

  lemma HasByte(d: Disk, y: Layout, reserved: set<nat>, inodes: nat, st: Store, files: Files, ino: nat, k: nat)
    requires Rep(d, y, reserved, inodes, st, files) && Steady(files, st) && Apart(reserved, files, st) && ino in files
    requires k < files[ino].num_bytes
    ensures InodeBlock(y, ino) < |d| && var e := EntryAt(d, y, ino);
            && Formed(e, d) && k / 512 < MAX_BLOCKS && 0 < MapAt(e, d, k / 512) < |d|
            && (k / 512 >= 12 ==> e.indirect != 0)
  {
    hide BitAt, EntryAt, Steady, Apart, MapAt, Owns;
    var e := files[ino];
    Inode.ReadOk(files, st, ino);
    Inode.SoundFormed(e, st);
    assert MapAt(e, st.blocks, k / 512) != 0;
    forall b | 0 <= b < |st.blocks| && Owns(e, st.blocks, b) ensures d[b] == st.blocks[b] {
      Inode.OwnedMarked(e, st, b);
      if b in reserved {
        NotOwned(reserved, files, st, ino, b);
      }
    }
    UntouchedMap(e, st.blocks, d, k / 512);
  }

  // Blocks that are taken, and their bitmap blocks, are synced.
  lemma TakenTouch(y: Layout, ino: nat, e: Entry, st: Store, off: nat, n: nat, b: nat)
    requires Formed(e, st.blocks)
    ensures b in NewSet(st.used, Growth(e.num_bytes, off + n)) ==>
              b in WriteTouch(y, ino, e, st, off, n) && BitBlock(y, b) in WriteTouch(y, ino, e, st, off, n)
  {
    hide Growth, NewSet, OldData;
  }

  lemma GrownTouch(y: Layout, ino: nat, e: Entry, st: Store, off: nat, n: nat)
    requires Formed(e, st.blocks)
    ensures off + n > e.num_bytes ==> InodeBlock(y, ino) in WriteTouch(y, ino, e, st, off, n)
  {
    hide DataTouch;
  }
}
