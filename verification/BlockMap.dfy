/** The block map of a file (src/fs/inode.c): twelve direct block numbers and a block of 128 indirect ones,
    over a store of blocks. */
module BlockMap {
  import opened Basics
  import opened Bytes
  import opened LogSpec
  import opened Counting

  const NUM_DIRECT: nat := 12
  const NUM_INDIRECT: nat := 128
  const MAX_BLOCKS: nat := 140
  const MAX_BYTES: nat := 71680

  type U16 = x: int | 0 <= x < 0x1_0000

  // InodeEntry.
  datatype Entry = Entry(kind: U16, major: U16, minor: U16, num_links: U16, num_bytes: U32, addrs: seq<U32>,
                         indirect: U32)

  // The blocks of the device and the numbers of those that the bitmap marks.
  datatype Store = Store(blocks: seq<Block>, used: set<nat>)

  // Block 0 is marked, and the device has at most 2^32 blocks.
  ghost predicate StoreOk(st: Store) {
    |st.blocks| < U32_MAX && 0 in st.used && forall b :: b in st.used ==> b < |st.blocks|
  }

  // ---- words of the indirect block ----

  function Addr(b: Block, k: nat): U32
    requires k < NUM_INDIRECT
  {
    WordWidth();
    ValueLittle(b[k * 4..(k + 1) * 4]);
    Word(b, 4, k)
  }

  function SetAddr(b: Block, k: nat, w: U32): (r: Block)
    requires k < NUM_INDIRECT
  {
    b[..k * 4] + Little(w, 4) + b[(k + 1) * 4..]
  }

  lemma SetAddrSame(b: Block, k: nat, w: U32)
    requires k < NUM_INDIRECT
    ensures Addr(SetAddr(b, k, w), k) == w
  {
    WordWidth();
    LittleValue(w, 4);
    assert SetAddr(b, k, w)[k * 4..(k + 1) * 4] == Little(w, 4);
  }

  lemma SetAddrOther(b: Block, k: nat, w: U32, j: nat)
    requires k < NUM_INDIRECT && j < NUM_INDIRECT && j != k
    ensures Addr(SetAddr(b, k, w), j) == Addr(b, j)
  {
    var r := SetAddr(b, k, w);
    if j < k {
      assert (j + 1) * 4 <= k * 4;
      assert r[j * 4..(j + 1) * 4] == b[j * 4..(j + 1) * 4];
    } else {
      assert (k + 1) * 4 <= j * 4;
      assert r[j * 4..(j + 1) * 4] == b[j * 4..(j + 1) * 4];
    }
  }

  // The k-th number is at the byte 4k.
  lemma AddrBytes(b: Block, k: nat)
    requires k < NUM_INDIRECT
    ensures Addr(b, k) == Le32(b, 4 * k)
  {
    ValueLong(b, 4 * k);
  }

  function Zero(): Block { seq(BLOCK_SIZE, _ => 0) }

  lemma ZeroAddr(k: nat)
    requires k < NUM_INDIRECT
    ensures Addr(Zero(), k) == 0
  {
    ZeroValue(Zero()[k * 4..(k + 1) * 4]);
  }

  lemma {:induction false} ZeroValue(s: seq<Byte>)
    requires forall i :: 0 <= i < |s| ==> s[i] == 0
    ensures Value(s) == 0
  {
    if s != [] {
      ZeroValue(s[1..]);
    }
  }

  // ---- the map ----

  predicate Formed(e: Entry, bs: seq<Block>) {
    |e.addrs| == NUM_DIRECT && e.indirect < |bs|
  }

  // The i-th block of the file; 0 if there is none.
  function MapAt(e: Entry, bs: seq<Block>, i: nat): U32
    requires Formed(e, bs) && i < MAX_BLOCKS
  {
    if i < NUM_DIRECT then e.addrs[i] else if e.indirect == 0 then 0 else Addr(bs[e.indirect], i - NUM_DIRECT)
  }

  // The blocks of the file are marked, and each has one place.
  ghost predicate Sound(e: Entry, st: Store) {
    && Formed(e, st.blocks)
    && (e.indirect != 0 ==> e.indirect in st.used)
    && (forall i :: 0 <= i < MAX_BLOCKS && MapAt(e, st.blocks, i) != 0 ==>
        MapAt(e, st.blocks, i) in st.used && MapAt(e, st.blocks, i) != e.indirect)
    && (forall i, j :: 0 <= i < j < MAX_BLOCKS && MapAt(e, st.blocks, i) != 0 ==>
        MapAt(e, st.blocks, i) != MapAt(e, st.blocks, j))
  }

  // The block b belongs to the file.
  ghost predicate Owns(e: Entry, bs: seq<Block>, b: nat)
    requires Formed(e, bs)
  {
    b != 0 && (b == e.indirect || exists i :: 0 <= i < MAX_BLOCKS && MapAt(e, bs, i) == b)
  }

  // The file has exactly its first n blocks.
  ghost predicate Dense(e: Entry, bs: seq<Block>, n: nat) {
    && Formed(e, bs) && n <= MAX_BLOCKS
    && (forall i :: 0 <= i < MAX_BLOCKS ==> (MapAt(e, bs, i) != 0 <==> i < n))
    && (e.indirect != 0 <==> n > NUM_DIRECT)
  }

  // The k-th byte of the file; 0 where it has no block.
  function ByteAt(e: Entry, bs: seq<Block>, k: nat): Byte {
    if Formed(e, bs) && k < MAX_BYTES && 0 < MapAt(e, bs, k / BLOCK_SIZE) < |bs| then
      bs[MapAt(e, bs, k / BLOCK_SIZE)][k % BLOCK_SIZE]
    else
      0
  }

  // The bytes of the file.
  function Content(e: Entry, bs: seq<Block>): (r: seq<Byte>)
    ensures |r| == e.num_bytes
  {
    seq(e.num_bytes, k requires 0 <= k < e.num_bytes => ByteAt(e, bs, k))
  }

  // How many blocks n bytes take.
  function BlocksFor(n: nat): nat { (n + BLOCK_SIZE - 1) / BLOCK_SIZE }

  // ---- frames ----

  // Blocks that the file owns are as before.
  ghost predicate Untouched(e: Entry, bs: seq<Block>, bs': seq<Block>)
    requires Formed(e, bs)
  {
    |bs'| == |bs| && forall b :: 0 <= b < |bs| && Owns(e, bs, b) ==> bs'[b] == bs[b]
  }

  lemma UntouchedMap(e: Entry, bs: seq<Block>, bs': seq<Block>, i: nat)
    requires Formed(e, bs) && Untouched(e, bs, bs') && i < MAX_BLOCKS
    ensures Formed(e, bs') && MapAt(e, bs', i) == MapAt(e, bs, i)
  {
    if i >= NUM_DIRECT && e.indirect != 0 {
      assert Owns(e, bs, e.indirect);
    }
  }

  // A file whose blocks are untouched keeps its map and its bytes.
  lemma UntouchedFile(e: Entry, st: Store, st': Store)
    requires StoreOk(st) && Sound(e, st) && Untouched(e, st.blocks, st'.blocks) && st.used <= st'.used
    ensures Sound(e, st') && (forall n :: Dense(e, st.blocks, n) ==> Dense(e, st'.blocks, n))
    ensures forall b :: Owns(e, st'.blocks, b) <==> Owns(e, st.blocks, b)
    ensures forall k :: ByteAt(e, st'.blocks, k) == ByteAt(e, st.blocks, k)
  {
    forall i | 0 <= i < MAX_BLOCKS
      ensures MapAt(e, st'.blocks, i) == MapAt(e, st.blocks, i)
      ensures MapAt(e, st.blocks, i) != 0 ==> Owns(e, st.blocks, MapAt(e, st.blocks, i))
    {
      UntouchedMap(e, st.blocks, st'.blocks, i);
    }
    if e.indirect != 0 {
      assert Owns(e, st.blocks, e.indirect);
    }
    forall k: nat ensures ByteAt(e, st'.blocks, k) == ByteAt(e, st.blocks, k) {
      if k < MAX_BYTES {
        var b := MapAt(e, st.blocks, k / BLOCK_SIZE);
      }
    }
  }

  // ---- growing the map ----

  // The store after the free block b was taken and cleared.
  function Taken(st: Store, b: nat): (r: Store)
    requires b < |st.blocks|
  {
    Store(st.blocks[b := Zero()], st.used + {b})
  }

  // Everything inode_map may change when it returns the i-th block of the file: the map at i, the fields of the
  // entry that hold it, the indirect block, and blocks that were free.
  ghost predicate Mapped(e: Entry, st: Store, e': Entry, st': Store, i: nat) {
    && i < MAX_BLOCKS && Formed(e, st.blocks) && StoreOk(st') && Sound(e', st')
    && e' == e.(addrs := e'.addrs, indirect := e'.indirect)
    && (forall j :: 0 <= j < MAX_BLOCKS && j != i ==> MapAt(e', st'.blocks, j) == MapAt(e, st.blocks, j))
    && MapAt(e', st'.blocks, i) != 0
    && (MapAt(e, st.blocks, i) != 0 ==> e' == e && st' == st)
    && (MapAt(e, st.blocks, i) == 0 ==>
        MapAt(e', st'.blocks, i) !in st.used && st'.blocks[MapAt(e', st'.blocks, i)] == Zero())
    && (e.indirect != 0 ==> e'.indirect == e.indirect)
    && (e.indirect == 0 ==> (if i < NUM_DIRECT then e'.indirect == 0 else e'.indirect != 0 && e'.indirect !in st.used))
    && |st'.blocks| == |st.blocks| && st'.used == st.used + {MapAt(e', st'.blocks, i)} + {e'.indirect}
    && (forall b :: b in st.used && (b != e.indirect || b == 0 || i < NUM_DIRECT) && b < |st.blocks| ==>
          st'.blocks[b] == st.blocks[b])
  }

  // A direct block.
  lemma DirectStep(e: Entry, st: Store, i: nat, b: U32)
    requires StoreOk(st) && Sound(e, st) && i < NUM_DIRECT && e.addrs[i] == 0 && b < |st.blocks| && b !in st.used
    ensures Mapped(e, st, e.(addrs := e.addrs[i := b]), Taken(st, b), i)
  {
    var e', st' := e.(addrs := e.addrs[i := b]), Taken(st, b);
    forall j | 0 <= j < MAX_BLOCKS ensures MapAt(e', st'.blocks, j) == if j == i then b else MapAt(e, st.blocks, j) {
    }
    assert Sound(e', st');
    assert e.indirect in st.used;
  }

  // A new, empty indirect block changes nothing in the map.
  lemma IndirectStep(e: Entry, st: Store, b: U32)
    requires StoreOk(st) && Sound(e, st) && e.indirect == 0 && b < |st.blocks| && b !in st.used
    ensures var e', st' := e.(indirect := b), Taken(st, b);
            && StoreOk(st') && Sound(e', st')
            && forall j :: 0 <= j < MAX_BLOCKS ==> MapAt(e', st'.blocks, j) == MapAt(e, st.blocks, j)
  {
    var e', st' := e.(indirect := b), Taken(st, b);
    forall j | 0 <= j < MAX_BLOCKS ensures MapAt(e', st'.blocks, j) == MapAt(e, st.blocks, j) {
      if j >= NUM_DIRECT {
        ZeroAddr(j - NUM_DIRECT);
      }
    }
  }

  // A slot of the indirect block.
  function Slotted(e: Entry, st: Store, i: nat, b: U32): (r: Store)
    requires Formed(e, st.blocks) && NUM_DIRECT <= i < MAX_BLOCKS
  {
    st.(blocks := st.blocks[e.indirect := SetAddr(st.blocks[e.indirect], i - NUM_DIRECT, b)])
  }

  lemma SlotMap(e: Entry, st: Store, i: nat, b: U32, j: nat)
    requires Formed(e, st.blocks) && e.indirect != 0 && NUM_DIRECT <= i < MAX_BLOCKS && j < MAX_BLOCKS
    ensures MapAt(e, Slotted(e, st, i, b).blocks, j) == if j == i then b else MapAt(e, st.blocks, j)
  {
    if j >= NUM_DIRECT {
      if j == i {
        SetAddrSame(st.blocks[e.indirect], i - NUM_DIRECT, b);
      } else {
        SetAddrOther(st.blocks[e.indirect], i - NUM_DIRECT, b, j - NUM_DIRECT);
      }
    }
  }

  lemma SlotStep(e: Entry, st: Store, i: nat, b: U32)
    requires StoreOk(st) && Sound(e, st) && e.indirect != 0 && NUM_DIRECT <= i < MAX_BLOCKS
    requires MapAt(e, st.blocks, i) == 0
    requires b < |st.blocks| && b !in st.used
    ensures Mapped(e, st, e, Slotted(e, Taken(st, b), i, b), i)
  {
    var st' := Slotted(e, Taken(st, b), i, b);
    forall j | 0 <= j < MAX_BLOCKS ensures MapAt(e, st'.blocks, j) == if j == i then b else MapAt(e, st.blocks, j) {
      SlotMap(e, Taken(st, b), i, b, j);
      assert Taken(st, b).blocks[e.indirect] == st.blocks[e.indirect];
    }
    assert Sound(e, st');
  }

  // A new indirect block, then a slot of it.
  lemma BothStep(e: Entry, st: Store, e1: Entry, st1: Store, st2: Store, c: U32, i: nat)
    requires StoreOk(st) && Sound(e, st) && e.indirect == 0 && c < |st.blocks| && c !in st.used
    requires NUM_DIRECT <= i < MAX_BLOCKS
    requires e1 == e.(indirect := c) && st1 == Taken(st, c) && Mapped(e1, st1, e1, st2, i)
    ensures Mapped(e, st, e1, st2, i)
  {
    IndirectStep(e, st, c);
  }

  // ---- all the files ----

  type Files = map<nat, Entry>

  // The file has its first n blocks, enough for its bytes.
  ghost predicate FileOk(e: Entry, st: Store, n: nat) {
    Sound(e, st) && Dense(e, st.blocks, n) && e.num_bytes <= n * BLOCK_SIZE
  }

  // No block belongs to two files.
  ghost predicate Disjoint(d: Files, bs: seq<Block>)
    requires forall a :: a in d ==> Formed(d[a], bs)
  {
    forall a, c, b :: a in d && c in d && a != c && Owns(d[a], bs, b) ==> !Owns(d[c], bs, b)
  }

  // Every file has just the blocks that it needs; the file ino, which may be about to grow, has n.
  ghost predicate FilesOk(d: Files, st: Store, ino: nat, n: nat) {
    && StoreOk(st)
    && (forall a :: a in d ==> FileOk(d[a], st, if a == ino then n else BlocksFor(d[a].num_bytes)))
    && Disjoint(d, st.blocks)
  }

  // Every file but ino has the same entry and the same bytes.
  ghost predicate SameOthers(d: Files, bs: seq<Block>, d': Files, bs': seq<Block>, ino: nat) {
    d'.Keys == d.Keys && forall a :: a in d && a != ino ==> d'[a] == d[a] && Content(d[a], bs') == Content(d[a], bs)
  }

  // Blocks outside the file ino that are marked keep their contents: so do all other files.
  // The file is there with the same blocks and the same bytes.
  ghost predicate Intact(e: Entry, st: Store, st': Store) {
    && Formed(e, st.blocks) && FileOk(e, st', BlocksFor(e.num_bytes)) && Content(e, st'.blocks) == Content(e, st.blocks)
    && forall b :: Owns(e, st'.blocks, b) <==> Owns(e, st.blocks, b)
  }

  lemma OthersKept(d: Files, st: Store, ino: nat, n: nat, a: nat, st': Store)
    requires FilesOk(d, st, ino, n) && ino in d && a in d && a != ino
    requires |st'.blocks| == |st.blocks| && st.used <= st'.used
    requires forall b :: b in st.used && !Owns(d[ino], st.blocks, b) && b < |st.blocks| ==>
               st'.blocks[b] == st.blocks[b]
    ensures Intact(d[a], st, st')
  {
    assert FileOk(d[a], st, BlocksFor(d[a].num_bytes));
    forall b | 0 <= b < |st.blocks| && Owns(d[a], st.blocks, b) ensures st'.blocks[b] == st.blocks[b] {
      assert b in st.used;
    }
    UntouchedFile(d[a], st, st');
  }

  // The file ino was mapped at i, at most the next block after its last one.
  lemma MappedFiles(d: Files, st: Store, ino: nat, n: nat, i: nat, e': Entry, st': Store)
    requires FilesOk(d, st, ino, n) && ino in d && Mapped(d[ino], st, e', st', i) && i <= n
    ensures FilesOk(d[ino := e'], st', ino, if i < n then n else n + 1)
    ensures SameOthers(d, st.blocks, d[ino := e'], st'.blocks, ino)
    ensures forall k :: 0 <= k < n * BLOCK_SIZE ==> ByteAt(e', st'.blocks, k) == ByteAt(d[ino], st.blocks, k)
  {
    var e := d[ino];
    var m := if i < n then n else n + 1;
    assert FileOk(e, st, n);
    assert FileOk(e', st', m);
    assert forall b :: b in st.used && !Owns(e, st.blocks, b) && b < |st.blocks| ==> st'.blocks[b] == st.blocks[b];
    forall a | a in d && a != ino ensures Intact(d[a], st, st') {
      OthersKept(d, st, ino, n, a, st');
    }
    MappedDisjoint(d, st, ino, n, i, e', st');
    forall k | 0 <= k < n * BLOCK_SIZE ensures ByteAt(e', st'.blocks, k) == ByteAt(e, st.blocks, k) {
      MappedByte(e, st, e', st', i, n, k);
    }
  }

  lemma MappedByte(e: Entry, st: Store, e': Entry, st': Store, i: nat, n: nat, k: nat)
    requires StoreOk(st) && FileOk(e, st, n) && Mapped(e, st, e', st', i) && i <= n && k < n * BLOCK_SIZE
    ensures ByteAt(e', st'.blocks, k) == ByteAt(e, st.blocks, k)
  {
    var j := k / BLOCK_SIZE;
    assert j < n;
    assert MapAt(e', st'.blocks, j) == MapAt(e, st.blocks, j);
  }

  lemma MappedOwns(e: Entry, st: Store, e': Entry, st': Store, i: nat, b: nat)
    requires Mapped(e, st, e', st', i) && Owns(e', st'.blocks, b)
    ensures Owns(e, st.blocks, b) || b !in st.used
  {
    if b != e'.indirect {
      var j :| 0 <= j < MAX_BLOCKS && MapAt(e', st'.blocks, j) == b;
      if j != i {
        assert MapAt(e, st.blocks, j) == b;
      }
    }
  }

  lemma MappedDisjoint(d: Files, st: Store, ino: nat, n: nat, i: nat, e': Entry, st': Store)
    requires FilesOk(d, st, ino, n) && ino in d && Mapped(d[ino], st, e', st', i)
    requires forall a :: a in d && a != ino ==> Intact(d[a], st, st')
    ensures Disjoint(d[ino := e'], st'.blocks)
  {
    var d' := d[ino := e'];
    forall a, b | a in d && a != ino && Owns(d[a], st.blocks, b) ensures !Owns(e', st'.blocks, b) {
      assert FileOk(d[a], st, BlocksFor(d[a].num_bytes));
      assert b in st.used;
      if Owns(e', st'.blocks, b) {
        MappedOwns(d[ino], st, e', st', i, b);
        assert false;
      }
    }
  }

  // ---- writing into a block of a file ----

  function Patch(b: Block, pos: nat, data: seq<Byte>): (r: Block)
    requires pos + |data| <= BLOCK_SIZE
  {
    b[..pos] + data + b[pos + |data|..]
  }

  // The i-th block of the file with data in place at pos.
  function Poked(e: Entry, st: Store, i: nat, pos: nat, data: seq<Byte>): (r: Store)
    requires Formed(e, st.blocks) && i < MAX_BLOCKS && MapAt(e, st.blocks, i) < |st.blocks|
    requires pos + |data| <= BLOCK_SIZE
  {
    var b := MapAt(e, st.blocks, i);
    st.(blocks := st.blocks[b := Patch(st.blocks[b], pos, data)])
  }

  lemma PokedByte(e: Entry, st: Store, n: nat, i: nat, pos: nat, data: seq<Byte>, k: nat)
    requires StoreOk(st) && FileOk(e, st, n) && i < n && pos + |data| <= BLOCK_SIZE && k < n * BLOCK_SIZE
    ensures MapAt(e, st.blocks, i) < |st.blocks|
    ensures var off := i * BLOCK_SIZE + pos;
            ByteAt(e, Poked(e, st, i, pos, data).blocks, k) == if off <= k < off + |data| then data[k - off]
                else ByteAt(e, st.blocks, k)
  {
    var st' := Poked(e, st, i, pos, data);
    var j := k / BLOCK_SIZE;
    assert j < n;
    assert MapAt(e, st'.blocks, j) == MapAt(e, st.blocks, j);
  }

  lemma PokedFiles(d: Files, st: Store, ino: nat, n: nat, i: nat, pos: nat, data: seq<Byte>, st': Store)
    requires FilesOk(d, st, ino, n) && ino in d && i < n && pos + |data| <= BLOCK_SIZE
    requires MapAt(d[ino], st.blocks, i) < |st.blocks|
    requires st' == Poked(d[ino], st, i, pos, data)
    ensures FilesOk(d, st', ino, n) && SameOthers(d, st.blocks, d, st'.blocks, ino)
  {
    var e := d[ino];
    assert FileOk(e, st, n);
    var b := MapAt(e, st.blocks, i);
    assert Owns(e, st.blocks, b);
    forall j | 0 <= j < MAX_BLOCKS ensures MapAt(e, st'.blocks, j) == MapAt(e, st.blocks, j) {
    }
    assert FileOk(e, st', n);
    assert forall c :: Owns(e, st'.blocks, c) <==> Owns(e, st.blocks, c);
    forall a | a in d && a != ino ensures Intact(d[a], st, st') {
      OthersKept(d, st, ino, n, a, st');
    }
  }

  lemma SameOthersTrans(d: Files, bs: seq<Block>, d1: Files, bs1: seq<Block>, d2: Files, bs2: seq<Block>, ino: nat)
    requires SameOthers(d, bs, d1, bs1, ino) && SameOthers(d1, bs1, d2, bs2, ino)
    ensures SameOthers(d, bs, d2, bs2, ino)
  {
  }

  // ---- the loop of inode_write ----

  function Max(a: nat, b: nat): nat { if a < b then b else a }

  // The bytes that the file holds, with tot bytes of src in place.
  ghost predicate Bytewise(e0: Entry, bs0: seq<Block>, off: nat, src: seq<Byte>, e: Entry, bs: seq<Block>, tot: nat)
    requires tot <= |src|
  {
    forall k :: 0 <= k < Max(e0.num_bytes, off + tot) ==>
        ByteAt(e, bs, k) == if off <= k < off + tot then src[k - off] else ByteAt(e0, bs0, k)
  }

  // After tot bytes of src were written at off into the file ino, which now has the entry e and n blocks.
  ghost predicate Writing(d0: Files, st0: Store, ino: nat, off: nat, src: seq<Byte>, e: Entry, st: Store, n: nat,
                          tot: nat) {
    && ino in d0 && off <= d0[ino].num_bytes && off + |src| <= MAX_BYTES && tot <= |src|
    && FilesOk(d0[ino := e], st, ino, n) && n == BlocksFor(Max(d0[ino].num_bytes, off + tot))
    && e == d0[ino].(addrs := e.addrs, indirect := e.indirect)
    && SameOthers(d0, st0.blocks, d0[ino := e], st.blocks, ino)
    && (n == BlocksFor(d0[ino].num_bytes) ==> e == d0[ino])
    && Bytewise(d0[ino], st0.blocks, off, src, e, st.blocks, tot)
  }

  lemma WritingStart(d0: Files, st0: Store, ino: nat, off: nat, src: seq<Byte>)
    requires ino in d0 && FilesOk(d0, st0, ino, BlocksFor(d0[ino].num_bytes)) && off <= d0[ino].num_bytes
    requires off + |src| <= MAX_BYTES
    ensures Writing(d0, st0, ino, off, src, d0[ino], st0, BlocksFor(d0[ino].num_bytes), 0)
  {
    assert d0[ino := d0[ino]] == d0;
  }

  lemma ChunkBlocks(size: nat, at: nat, n: nat, i: nat, m: nat)
    requires n == BlocksFor(Max(size, at)) && i == at / BLOCK_SIZE && 0 < m <= BLOCK_SIZE - at % BLOCK_SIZE
    ensures i <= n && BlocksFor(Max(size, at + m)) == if i < n then n else n + 1
    ensures i * BLOCK_SIZE + at % BLOCK_SIZE == at && Max(size, at) <= n * BLOCK_SIZE
    ensures i < n || Max(size, at) == i * BLOCK_SIZE
  {
  }

  // One round: the block is mapped, then the chunk is put in place.
  lemma WritingMap(d0: Files, st0: Store, ino: nat, off: nat, src: seq<Byte>, e: Entry, st: Store, n: nat, tot: nat,
                   e1: Entry, st1: Store, m: nat, i: nat, n1: nat)
    requires Writing(d0, st0, ino, off, src, e, st, n, tot) && 0 < m <= BLOCK_SIZE - (off + tot) % BLOCK_SIZE
    requires tot + m <= |src|
    requires i == (off + tot) / BLOCK_SIZE && Mapped(e, st, e1, st1, i)
    requires n1 == BlocksFor(Max(d0[ino].num_bytes, off + (tot + m)))
    ensures i < n1 && FilesOk(d0[ino := e1], st1, ino, n1) && SameOthers(d0, st0.blocks, d0[ino := e1], st1.blocks, ino)
    ensures n1 == BlocksFor(d0[ino].num_bytes) ==> e1 == d0[ino]
    ensures e1 == d0[ino].(addrs := e1.addrs, indirect := e1.indirect)
    ensures forall k :: 0 <= k < n * BLOCK_SIZE ==> ByteAt(e1, st1.blocks, k) == ByteAt(e, st.blocks, k)
  {
    hide SameOthers, Bytewise, FilesOk, Mapped, ByteAt;
    var d := d0[ino := e];
    ChunkBlocks(d0[ino].num_bytes, off + tot, n, i, m);
    MappedEntry(d, st, ino, n, e1, st1, i);
    MoreBlocks(d0[ino].num_bytes, off + tot, n);
    hide BlocksFor;
    MappedFiles(d, st, ino, n, i, e1, st1);
    assert d[ino := e1] == d0[ino := e1];
    SameOthersTrans(d0, st0.blocks, d, st.blocks, d0[ino := e1], st1.blocks, ino);
  }

  lemma MappedEntry(d: Files, st: Store, ino: nat, n: nat, e1: Entry, st1: Store, i: nat)
    requires FilesOk(d, st, ino, n) && ino in d && Mapped(d[ino], st, e1, st1, i)
    ensures i < n ==> e1 == d[ino]
    ensures e1 == d[ino].(addrs := e1.addrs, indirect := e1.indirect)
  {
    hide Disjoint;
    assert FileOk(d[ino], st, n);
  }

  lemma MoreBlocks(size: nat, at: nat, n: nat)
    requires n == BlocksFor(Max(size, at))
    ensures n + 1 != BlocksFor(size)
  {
  }

  lemma WritingByte(e0: Entry, bs0: seq<Block>, off: nat, src: seq<Byte>, e: Entry, st: Store, n: nat, tot: nat,
                    e1: Entry, st1: Store, m: nat, i: nat, n1: nat, k: nat)
    requires tot + m <= |src| && Bytewise(e0, bs0, off, src, e, st.blocks, tot)
    requires 0 < m <= BLOCK_SIZE - (off + tot) % BLOCK_SIZE
    requires i == (off + tot) / BLOCK_SIZE && n == BlocksFor(Max(e0.num_bytes, off + tot))
    requires n1 == BlocksFor(Max(e0.num_bytes, off + (tot + m)))
    requires k < Max(e0.num_bytes, off + (tot + m)) && off <= e0.num_bytes
    requires forall k :: 0 <= k < n * BLOCK_SIZE ==> ByteAt(e1, st1.blocks, k) == ByteAt(e, st.blocks, k)
    requires StoreOk(st1) && FileOk(e1, st1, n1) && i < n1 && MapAt(e1, st1.blocks, i) < |st1.blocks|
    ensures ByteAt(e1, Poked(e1, st1, i, (off + tot) % BLOCK_SIZE, src[tot..tot + m]).blocks, k)
            == if off <= k < off + (tot + m) then src[k - off] else ByteAt(e0, bs0, k)
  {
    ChunkBlocks(e0.num_bytes, off + tot, n, i, m);
    PokedByte(e1, st1, n1, i, (off + tot) % BLOCK_SIZE, src[tot..tot + m], k);
    hide FileOk, StoreOk, ByteAt, Poked;
  }

  lemma WritingBytes(e0: Entry, bs0: seq<Block>, off: nat, src: seq<Byte>, e: Entry, st: Store, n: nat, tot: nat,
                     e1: Entry, st1: Store, m: nat, i: nat, n1: nat)
    requires tot + m <= |src| && Bytewise(e0, bs0, off, src, e, st.blocks, tot)
    requires 0 < m <= BLOCK_SIZE - (off + tot) % BLOCK_SIZE
    requires i == (off + tot) / BLOCK_SIZE && n == BlocksFor(Max(e0.num_bytes, off + tot))
    requires n1 == BlocksFor(Max(e0.num_bytes, off + (tot + m)))
    requires off <= e0.num_bytes
    requires forall k :: 0 <= k < n * BLOCK_SIZE ==> ByteAt(e1, st1.blocks, k) == ByteAt(e, st.blocks, k)
    requires StoreOk(st1) && FileOk(e1, st1, n1) && i < n1 && MapAt(e1, st1.blocks, i) < |st1.blocks|
    ensures Bytewise(e0, bs0, off, src, e1, Poked(e1, st1, i, (off + tot) % BLOCK_SIZE, src[tot..tot + m]).blocks,
                     tot + m)
  {
    assert Formed(e1, st1.blocks) && i < MAX_BLOCKS;
    hide FileOk, StoreOk, Poked, BlocksFor;
    var bs := Poked(e1, st1, i, (off + tot) % BLOCK_SIZE, src[tot..tot + m]).blocks;
    forall k: nat | k < Max(e0.num_bytes, off + (tot + m))
      ensures ByteAt(e1, bs, k) == if off <= k < off + (tot + m) then src[k - off] else ByteAt(e0, bs0, k)
    {
      WritingByte(e0, bs0, off, src, e, st, n, tot, e1, st1, m, i, n1, k);
    }
  }

  lemma WritingStep(d0: Files, st0: Store, ino: nat, off: nat, src: seq<Byte>, e: Entry, st: Store, n: nat, tot: nat,
                    e1: Entry, st1: Store, m: nat, i: nat, n1: nat)
    requires Writing(d0, st0, ino, off, src, e, st, n, tot) && 0 < m <= BLOCK_SIZE - (off + tot) % BLOCK_SIZE
    requires tot + m <= |src|
    requires i == (off + tot) / BLOCK_SIZE && Mapped(e, st, e1, st1, i)
    requires n1 == BlocksFor(Max(d0[ino].num_bytes, off + (tot + m)))
    ensures MapAt(e1, st1.blocks, i) < |st1.blocks|
    ensures Writing(d0, st0, ino, off, src, e1, Poked(e1, st1, i, (off + tot) % BLOCK_SIZE, src[tot..tot + m]), n1,
                    tot + m)
  {
    hide ByteAt, SameOthers, BlocksFor, Bytewise;
    WritingMap(d0, st0, ino, off, src, e, st, n, tot, e1, st1, m, i, n1);
    var d1 := d0[ino := e1];
    assert FileOk(d1[ino], st1, n1) && StoreOk(st1) && MapAt(e1, st1.blocks, i) < |st1.blocks|;
    hide FilesOk, FileOk, Disjoint, Poked, StoreOk, Mapped, Sound, Dense;
    WritingBytes(d0[ino], st0.blocks, off, src, e, st, n, tot, e1, st1, m, i, n1);
    var st2 := Poked(e1, st1, i, (off + tot) % BLOCK_SIZE, src[tot..tot + m]);
    PokedFiles(d1, st1, ino, n1, i, (off + tot) % BLOCK_SIZE, src[tot..tot + m], st2);
    SameOthersTrans(d0, st0.blocks, d1, st1.blocks, d1, st2.blocks, ino);
  }

  // The bytes s with src in place at off, longer if src reaches beyond the end.
  function Splice(s: seq<Byte>, off: nat, src: seq<Byte>): (r: seq<Byte>)
    requires off <= |s|
  {
    s[..off] + src + (if off + |src| < |s| then s[off + |src|..] else [])
  }

  // Byte by byte.
  lemma SpliceAt(s: seq<Byte>, off: nat, src: seq<Byte>, k: nat)
    requires off <= |s| && (k < |s| || k < off + |src|)
    ensures |Splice(s, off, src)| == if off + |src| < |s| then |s| else off + |src|
    ensures Splice(s, off, src)[k] == if off <= k < off + |src| then src[k - off] else s[k]
  {
  }

  // Entries that differ in the size only have the same map.
  lemma Resized(e: Entry, e': Entry, st: Store, n: nat)
    requires e' == e.(num_bytes := e'.num_bytes) && FileOk(e, st, n) && e'.num_bytes <= n * BLOCK_SIZE
    ensures FileOk(e', st, n)
    ensures forall b :: Owns(e', st.blocks, b) <==> Owns(e, st.blocks, b)
    ensures forall k :: ByteAt(e', st.blocks, k) == ByteAt(e, st.blocks, k)
  {
    forall i | 0 <= i < MAX_BLOCKS ensures MapAt(e', st.blocks, i) == MapAt(e, st.blocks, i) {
    }
  }

  lemma ResizedFiles(d: Files, st: Store, ino: nat, n: nat, e': Entry)
    requires FilesOk(d, st, ino, n) && ino in d && e' == d[ino].(num_bytes := e'.num_bytes)
    requires e'.num_bytes <= n * BLOCK_SIZE
    ensures FilesOk(d[ino := e'], st, ino, n) && SameOthers(d, st.blocks, d[ino := e'], st.blocks, ino)
    ensures forall k :: ByteAt(e', st.blocks, k) == ByteAt(d[ino], st.blocks, k)
  {
    hide ByteAt, Content;
    assert FileOk(d[ino], st, n);
    Resized(d[ino], e', st, n);
    hide FileOk;
  }

  // The end of inode_write: the new size is set, and the file holds the spliced bytes.
  lemma WritingEnd(d0: Files, st0: Store, ino: nat, off: nat, src: seq<Byte>, e: Entry, st: Store, n: nat, e': Entry)
    requires Writing(d0, st0, ino, off, src, e, st, n, |src|)
    requires e' == e.(num_bytes := Max(d0[ino].num_bytes, off + |src|))
    ensures FilesOk(d0[ino := e'], st, ino, BlocksFor(e'.num_bytes))
    ensures SameOthers(d0, st0.blocks, d0[ino := e'], st.blocks, ino)
    ensures Content(e', st.blocks) == Splice(Content(d0[ino], st0.blocks), off, src)
    ensures off + |src| <= d0[ino].num_bytes ==> e' == e == d0[ino]
  {
    hide FilesOk, SameOthers, ByteAt;
    BlocksBound(e'.num_bytes);
    var d := d0[ino := e];
    ResizedFiles(d, st, ino, n, e');
    assert d[ino := e'] == d0[ino := e'];
    SameOthersTrans(d0, st0.blocks, d, st.blocks, d0[ino := e'], st.blocks, ino);
    var c, t := Content(d0[ino], st0.blocks), Content(e', st.blocks);
    forall k | 0 <= k < |t| ensures t[k] == if off <= k < off + |src| then src[k - off] else c[k] {
    }
    assert t == Splice(c, off, src);
  }

  lemma BlocksBound(size: nat)
    ensures size <= BlocksFor(size) * BLOCK_SIZE
  {
  }

  // What is left of the block that holds the byte at.
  function Room(at: nat): (r: nat)
    ensures 0 < r <= BLOCK_SIZE
  {
    BLOCK_SIZE - at % BLOCK_SIZE
  }

  function Min(a: nat, b: nat): nat { if a < b then a else b }

  // Reading through the map yields the bytes of the file.
  lemma ReadChunk(e: Entry, st: Store, n: nat, at: nat, m: nat)
    requires StoreOk(st) && FileOk(e, st, n) && m <= Room(at) && at + m <= e.num_bytes && at < e.num_bytes
    ensures at / BLOCK_SIZE < n <= MAX_BLOCKS && 0 < MapAt(e, st.blocks, at / BLOCK_SIZE) < |st.blocks|
    ensures var b := st.blocks[MapAt(e, st.blocks, at / BLOCK_SIZE)];
            b[at % BLOCK_SIZE..at % BLOCK_SIZE + m] == Content(e, st.blocks)[at..at + m]
  {
    var i := at / BLOCK_SIZE;
    assert i < n && MapAt(e, st.blocks, i) in st.used;
    var b, pos := st.blocks[MapAt(e, st.blocks, i)], at % BLOCK_SIZE;
    var x, y := b[pos..pos + m], Content(e, st.blocks)[at..at + m];
    forall k | 0 <= k < |x| ensures x[k] == y[k] {
      assert (at + k) / BLOCK_SIZE == i && (at + k) % BLOCK_SIZE == pos + k;
    }
  }

  // ---- truncation ----

  // The block b is among the first i of the file.
  ghost predicate Among(e: Entry, bs: seq<Block>, i: nat, b: nat)
    requires Formed(e, bs) && i <= MAX_BLOCKS
  {
    b != 0 && exists j :: 0 <= j < i && MapAt(e, bs, j) == b
  }

  // The marks after the first i blocks of the file were freed.
  ghost predicate Freed(e: Entry, bs: seq<Block>, i: nat, used: set<nat>, used': set<nat>)
    requires Formed(e, bs) && i <= MAX_BLOCKS
  {
    forall b :: b in used' <==> b in used && !Among(e, bs, i, b)
  }

  lemma FreedStep(e: Entry, st: Store, i: nat, used': set<nat>)
    requires StoreOk(st) && Sound(e, st) && i < MAX_BLOCKS && Freed(e, st.blocks, i, st.used, used')
    ensures MapAt(e, st.blocks, i) != 0 ==> MapAt(e, st.blocks, i) in used'
    ensures Freed(e, st.blocks, i + 1, st.used, if MapAt(e, st.blocks, i) != 0 then used' - {MapAt(e, st.blocks, i)}
                  else used')
  {
    var x := MapAt(e, st.blocks, i);
    forall b ensures Among(e, st.blocks, i + 1, b) <==> Among(e, st.blocks, i, b) || (b == x && b != 0) {
    }
  }

  // A file without indirect block has no block beyond the direct ones.
  lemma FreedDirect(e: Entry, st: Store, used': set<nat>)
    requires Sound(e, st) && Freed(e, st.blocks, NUM_DIRECT, st.used, used') && e.indirect == 0
    ensures Freed(e, st.blocks, MAX_BLOCKS, st.used, used')
  {
    forall b ensures Among(e, st.blocks, MAX_BLOCKS, b) <==> Among(e, st.blocks, NUM_DIRECT, b) {
    }
  }

  // The marks after the whole file was freed.
  ghost predicate AllFreed(e: Entry, bs: seq<Block>, used: set<nat>, used': set<nat>)
    requires Formed(e, bs)
  {
    forall b :: b in used' <==> b in used && !Owns(e, bs, b)
  }

  lemma FreedAll(e: Entry, st: Store, used': set<nat>)
    requires StoreOk(st) && Sound(e, st) && Freed(e, st.blocks, MAX_BLOCKS, st.used, used')
    ensures e.indirect != 0 ==> e.indirect in used'
    ensures AllFreed(e, st.blocks, st.used, if e.indirect != 0 then used' - {e.indirect} else used')
  {
    forall b ensures Owns(e, st.blocks, b) <==> Among(e, st.blocks, MAX_BLOCKS, b) || (b != 0 && b == e.indirect) {
    }
  }

  // The entry without blocks and bytes.
  function Emptied(e: Entry): (r: Entry) {
    e.(addrs := seq(NUM_DIRECT, _ => 0), indirect := 0, num_bytes := 0)
  }

  lemma EmptiedFiles(d: Files, st: Store, ino: nat, n: nat, used': set<nat>)
    requires FilesOk(d, st, ino, n) && ino in d && AllFreed(d[ino], st.blocks, st.used, used')
    ensures FilesOk(d[ino := Emptied(d[ino])], st.(used := used'), ino, 0)
    ensures SameOthers(d, st.blocks, d[ino := Emptied(d[ino])], st.blocks, ino)
    ensures Content(Emptied(d[ino]), st.blocks) == []
  {
    var e', st' := Emptied(d[ino]), st.(used := used');
    assert FileOk(d[ino], st, n);
    assert forall i :: 0 <= i < MAX_BLOCKS ==> MapAt(e', st.blocks, i) == 0;
    assert FileOk(e', st', 0);
    assert forall b :: !Owns(e', st.blocks, b);
    forall a | a in d && a != ino ensures FileOk(d[a], st', BlocksFor(d[a].num_bytes)) {
      assert FileOk(d[a], st, BlocksFor(d[a].num_bytes));
      forall b | Owns(d[a], st.blocks, b) ensures b in used' {
        assert b in st.used;
      }
      forall i | 0 <= i < MAX_BLOCKS && MapAt(d[a], st.blocks, i) != 0 ensures MapAt(d[a], st.blocks, i) in used' {
        assert Owns(d[a], st.blocks, MapAt(d[a], st.blocks, i));
      }
    }
  }

  // Every file has just the blocks that it needs.
  ghost predicate Steady(d: Files, st: Store) {
    && StoreOk(st)
    && (forall a :: a in d ==> FileOk(d[a], st, BlocksFor(d[a].num_bytes)))
    && Disjoint(d, st.blocks)
  }

  lemma SteadyFiles(d: Files, st: Store, ino: nat)
    requires ino in d
    ensures Steady(d, st) <==> FilesOk(d, st, ino, BlocksFor(d[ino].num_bytes))
  {
  }

  // ---- how many blocks are needed ----

  // The device is full exactly when as many blocks are marked as there are.
  lemma FullCount(st: Store)
    requires StoreOk(st)
    ensures |st.used| <= |st.blocks|
    ensures |st.used| == |st.blocks| <==> forall b :: 0 <= b < |st.blocks| ==> b in st.used
  {
    var r := Range(|st.blocks|);
    Larger(st.used, r);
    if forall b :: 0 <= b < |st.blocks| ==> b in st.used {
      assert st.used == r;
    }
  }

  // What inode_map must allocate to return the i-th block.
  function Cost(e: Entry, bs: seq<Block>, i: nat): nat
    requires Formed(e, bs) && i < MAX_BLOCKS
  {
    if MapAt(e, bs, i) != 0 then 0 else if i < NUM_DIRECT || e.indirect != 0 then 1 else 2
  }

  lemma MappedCount(e: Entry, st: Store, e': Entry, st': Store, i: nat)
    requires StoreOk(st) && Sound(e, st) && Mapped(e, st, e', st', i)
    ensures |st'.used| == |st.used| + Cost(e, st.blocks, i)
  {
    var x := MapAt(e', st'.blocks, i);
    if MapAt(e, st.blocks, i) == 0 {
      if e.indirect == 0 && i >= NUM_DIRECT {
        assert x != e'.indirect;
        assert |st.used + {x}| == |st.used| + 1;
        assert |st.used + {x} + {e'.indirect}| == |st.used + {x}| + 1;
      } else {
        assert st'.used == st.used + {x};
      }
    }
  }

  // The blocks of a file that has n of them, with the indirect block.
  function WithIndirect(n: nat): nat { if n > NUM_DIRECT then n + 1 else n }

  lemma DenseCost(e: Entry, bs: seq<Block>, n: nat, i: nat)
    requires Dense(e, bs, n) && i <= n && i < MAX_BLOCKS
    ensures Cost(e, bs, i) == WithIndirect(if i < n then n else n + 1) - WithIndirect(n)
  {
  }

  // What a file of the given size needs to grow to reach end.
  function Growth(size: nat, end: nat): (r: nat) {
    WithIndirect(BlocksFor(Max(size, end))) - WithIndirect(BlocksFor(size))
  }

  lemma GrowthMono(size: nat, a: nat, b: nat)
    requires a <= b
    ensures Growth(size, a) <= Growth(size, b)
  {
  }

  // ---- blocks that belong to no file ----

  // Marked blocks that the file did not own are as they were, and the file owns none of them now.
  ghost predicate Kept(e0: Entry, st0: Store, e: Entry, st: Store) {
    && Formed(e0, st0.blocks) && Formed(e, st.blocks) && st0.used <= st.used && |st.blocks| == |st0.blocks|
    && (forall b :: b in st0.used && !Owns(e0, st0.blocks, b) && b < |st0.blocks| ==> st.blocks[b] == st0.blocks[b])
    && (forall b :: Owns(e, st.blocks, b) ==> Owns(e0, st0.blocks, b) || b !in st0.used)
  }

  lemma KeptMapped(e0: Entry, st0: Store, e: Entry, st: Store, e1: Entry, st1: Store, i: nat)
    requires Kept(e0, st0, e, st) && Mapped(e, st, e1, st1, i)
    ensures Kept(e0, st0, e1, st1)
  {
    forall b | Owns(e1, st1.blocks, b) ensures Owns(e0, st0.blocks, b) || b !in st0.used {
      MappedOwns(e, st, e1, st1, i, b);
    }
  }

  lemma PokedMap(e: Entry, st: Store, i: nat, pos: nat, data: seq<Byte>)
    requires StoreOk(st) && Sound(e, st) && i < MAX_BLOCKS && MapAt(e, st.blocks, i) != 0 && pos + |data| <= BLOCK_SIZE
    ensures MapAt(e, st.blocks, i) < |st.blocks| && Formed(e, Poked(e, st, i, pos, data).blocks)
    ensures forall j :: 0 <= j < MAX_BLOCKS ==> MapAt(e, Poked(e, st, i, pos, data).blocks, j) == MapAt(e, st.blocks, j)
  {
    assert MapAt(e, st.blocks, i) in st.used;
  }

  lemma KeptPoked(e0: Entry, st0: Store, e: Entry, st: Store, i: nat, pos: nat, data: seq<Byte>)
    requires Kept(e0, st0, e, st) && StoreOk(st) && Sound(e, st) && i < MAX_BLOCKS && MapAt(e, st.blocks, i) != 0
    requires pos + |data| <= BLOCK_SIZE
    ensures MapAt(e, st.blocks, i) < |st.blocks| && Kept(e0, st0, e, Poked(e, st, i, pos, data))
  {
    hide StoreOk, Sound, Patch;
    PokedMap(e, st, i, pos, data);
    var st' := Poked(e, st, i, pos, data);
    assert Owns(e, st.blocks, MapAt(e, st.blocks, i));
    forall b ensures Owns(e, st'.blocks, b) <==> Owns(e, st.blocks, b) {
    }
  }

  // Blocks that are marked for good, and no file's.
  ghost predicate Apart(reserved: set<nat>, d: Files, st: Store) {
    && reserved <= st.used
    && (forall a :: a in d ==> Formed(d[a], st.blocks))
    && (forall a, b :: a in d && b in reserved ==> !Owns(d[a], st.blocks, b))
  }

  // They have the same contents.
  ghost predicate SameBlocks(s: set<nat>, bs: seq<Block>, bs': seq<Block>) {
    forall b :: b in s && b < |bs| && b < |bs'| ==> bs'[b] == bs[b]
  }

  lemma ApartWrite(reserved: set<nat>, d: Files, st: Store, ino: nat, e: Entry, st': Store)
    requires Apart(reserved, d, st) && ino in d && Kept(d[ino], st, e, st')
    requires Steady(d, st) && Steady(d[ino := e], st')
    ensures Apart(reserved, d[ino := e], st') && SameBlocks(reserved, st.blocks, st'.blocks)
  {
    forall a, b | a in d && a != ino && b in reserved ensures !Owns(d[a], st'.blocks, b) {
      OtherUntouched(d, st, ino, e, st', a);
    }
  }

  // The blocks of another file are as they were, and so is what it owns.
  lemma OtherUntouched(d: Files, st: Store, ino: nat, e: Entry, st': Store, a: nat)
    requires ino in d && a in d && a != ino && Kept(d[ino], st, e, st') && Steady(d, st)
    ensures Formed(d[a], st'.blocks) && forall b :: Owns(d[a], st'.blocks, b) <==> Owns(d[a], st.blocks, b)
  {
    assert FileOk(d[a], st, BlocksFor(d[a].num_bytes));
    forall b | 0 <= b < |st.blocks| && Owns(d[a], st.blocks, b) ensures st'.blocks[b] == st.blocks[b] {
      assert b in st.used;
    }
    UntouchedFile(d[a], st, st');
  }
}
