/** Inode entries in the inode blocks (src/fs/inode.c, src/fs/defines.h): eight entries of 64 bytes a block. */
module InodeDisk {
  import opened Basics
  import opened Bytes
  import opened LogSpec
  import opened BlockMap

  const ENTRY_SIZE: nat := 64
  const PER_BLOCK: nat := 8

  // The words of an entry: four of two bytes, then fourteen of four.
  function Shorts(e: Entry): seq<nat> { [e.kind, e.major, e.minor, e.num_links] }

  function Words(e: Entry): seq<nat> { [e.num_bytes] + e.addrs + [e.indirect] }

  function Encode(e: Entry): (r: seq<Byte>)
    requires |e.addrs| == NUM_DIRECT
    ensures |r| == ENTRY_SIZE
  {
    Pack(Shorts(e), 2) + Pack(Words(e), 4)
  }

  function Short(s: seq<Byte>, k: nat): U16
    requires |s| == ENTRY_SIZE && k < 4
  {
    WordWidth();
    ValueLittle(s[..8][k * 2..(k + 1) * 2]);
    Word(s[..8], 2, k)
  }

  function Long(s: seq<Byte>, k: nat): U32
    requires |s| == ENTRY_SIZE && k < 14
  {
    WordWidth();
    ValueLittle(s[8..][k * 4..(k + 1) * 4]);
    Word(s[8..], 4, k)
  }

  function Decode(s: seq<Byte>): (e: Entry)
    requires |s| == ENTRY_SIZE
    ensures |e.addrs| == NUM_DIRECT
  {
    Entry(Short(s, 0), Short(s, 1), Short(s, 2), Short(s, 3), Long(s, 0),
          seq(NUM_DIRECT, i requires 0 <= i < NUM_DIRECT => Long(s, i + 1)), Long(s, 13))
  }

  lemma ShortBack(e: Entry, k: nat)
    requires |e.addrs| == NUM_DIRECT && k < 4
    ensures Short(Encode(e), k) == Shorts(e)[k]
  {
    WordWidth();
    assert Encode(e)[..8] == Pack(Shorts(e), 2);
    PackWord(Shorts(e), 2, k);
  }

  lemma LongBack(e: Entry, k: nat)
    requires |e.addrs| == NUM_DIRECT && k < 14
    ensures Long(Encode(e), k) == Words(e)[k]
  {
    WordWidth();
    assert Encode(e)[8..] == Pack(Words(e), 4);
    PackWord(Words(e), 4, k);
  }

  // What is written is what is read.
  lemma EntryRoundTrip(e: Entry)
    requires |e.addrs| == NUM_DIRECT
    ensures Decode(Encode(e)) == e
  {
    ShortBack(e, 0);
    ShortBack(e, 1);
    ShortBack(e, 2);
    ShortBack(e, 3);
    LongBack(e, 0);
    LongBack(e, 13);
    var d := Decode(Encode(e));
    forall i | 0 <= i < NUM_DIRECT ensures d.addrs[i] == e.addrs[i] {
      LongBack(e, i + 1);
    }
  }

  // get_entry, read.
  function Fetch(b: Block, k: nat): (e: Entry)
    requires k < PER_BLOCK
    ensures |e.addrs| == NUM_DIRECT
  {
    Decode(b[k * ENTRY_SIZE..(k + 1) * ENTRY_SIZE])
  }

  // get_entry, written.
  function Put(b: Block, k: nat, e: Entry): (r: Block)
    requires k < PER_BLOCK && |e.addrs| == NUM_DIRECT
  {
    b[..k * ENTRY_SIZE] + Encode(e) + b[(k + 1) * ENTRY_SIZE..]
  }

  lemma ShortAt(b: Block, k: nat, j: nat)
    requires k < PER_BLOCK && j < 4
    ensures Short(b[k * ENTRY_SIZE..(k + 1) * ENTRY_SIZE], j) == Le16(b, 64 * k + 2 * j)
  {
    var s := b[k * ENTRY_SIZE..(k + 1) * ENTRY_SIZE];
    assert s[..8] == s[0..8];
    SliceOfSlice(s, 0, 8, j * 2, (j + 1) * 2);
    SliceOfSlice(b, k * ENTRY_SIZE, (k + 1) * ENTRY_SIZE, j * 2, (j + 1) * 2);
    ValueShort(b, 64 * k + 2 * j);
  }

  lemma LongAt(b: Block, k: nat, j: nat)
    requires k < PER_BLOCK && j < 14
    ensures Long(b[k * ENTRY_SIZE..(k + 1) * ENTRY_SIZE], j) == Le32(b, 64 * k + 8 + 4 * j)
  {
    var s := b[k * ENTRY_SIZE..(k + 1) * ENTRY_SIZE];
    assert s[8..] == s[8..64];
    SliceOfSlice(s, 8, 64, j * 4, (j + 1) * 4);
    SliceOfSlice(b, k * ENTRY_SIZE, (k + 1) * ENTRY_SIZE, 8 + j * 4, 8 + (j + 1) * 4);
    ValueLong(b, 64 * k + 8 + 4 * j);
  }

  // The byte offsets of the fields of the k-th entry of a block.
  lemma EntryBytes(b: Block, k: nat)
    requires k < PER_BLOCK
    ensures var e := Fetch(b, k);
            && e.kind == Le16(b, 64 * k) && e.major == Le16(b, 64 * k + 2) && e.minor == Le16(b, 64 * k + 4)
            && e.num_links == Le16(b, 64 * k + 6) && e.num_bytes == Le32(b, 64 * k + 8)
            && (forall i :: 0 <= i < 12 ==> e.addrs[i] == Le32(b, 64 * k + 12 + 4 * i))
            && e.indirect == Le32(b, 64 * k + 60)
  {
    hide Short, Long, Le16, Le32;
    ShortAt(b, k, 0);
    ShortAt(b, k, 1);
    ShortAt(b, k, 2);
    ShortAt(b, k, 3);
    LongAt(b, k, 0);
    LongAt(b, k, 13);
    var e := Fetch(b, k);
    forall i | 0 <= i < 12 ensures e.addrs[i] == Le32(b, 64 * k + 12 + 4 * i) {
      LongAt(b, k, i + 1);
    }
  }

  lemma PutFetch(b: Block, k: nat, e: Entry, j: nat)
    requires k < PER_BLOCK && j < PER_BLOCK && |e.addrs| == NUM_DIRECT
    ensures Fetch(Put(b, k, e), j) == if j == k then e else Fetch(b, j)
  {
    var r := Put(b, k, e);
    hide Encode, Decode;
    if j == k {
      EntryRoundTrip(e);
      assert r[k * ENTRY_SIZE..(k + 1) * ENTRY_SIZE] == Encode(e);
    } else if j < k {
      assert (j + 1) * ENTRY_SIZE <= k * ENTRY_SIZE;
      assert r[j * ENTRY_SIZE..(j + 1) * ENTRY_SIZE] == b[j * ENTRY_SIZE..(j + 1) * ENTRY_SIZE];
    } else {
      assert (k + 1) * ENTRY_SIZE <= j * ENTRY_SIZE;
      assert r[j * ENTRY_SIZE..(j + 1) * ENTRY_SIZE] == b[j * ENTRY_SIZE..(j + 1) * ENTRY_SIZE];
    }
  }

  // The entry of an inode in the inode blocks.
  function EntryIn(bs: seq<Block>, ino: nat): (e: Entry)
    requires ino / PER_BLOCK < |bs|
  {
    Fetch(bs[ino / PER_BLOCK], ino % PER_BLOCK)
  }

  // The byte offsets of the fields of an inode's entry, eight entries of 64 bytes a block.
  lemma InodeBytes(bs: seq<Block>, ino: nat)
    requires ino / 8 < |bs|
    ensures var e, b, o := EntryIn(bs, ino), bs[ino / 8], 64 * (ino % 8);
            && e.kind == Le16(b, o) && e.major == Le16(b, o + 2) && e.minor == Le16(b, o + 4)
            && e.num_links == Le16(b, o + 6) && e.num_bytes == Le32(b, o + 8)
            && (forall i :: 0 <= i < 12 ==> e.addrs[i] == Le32(b, o + 12 + 4 * i))
            && e.indirect == Le32(b, o + 60)
  {
    hide Fetch, Le16, Le32;
    EntryBytes(bs[ino / 8], ino % 8);
  }

  function WithEntry(bs: seq<Block>, ino: nat, e: Entry): (r: seq<Block>)
    requires ino / PER_BLOCK < |bs| && |e.addrs| == NUM_DIRECT
    ensures |r| == |bs|
  {
    bs[ino / PER_BLOCK := Put(bs[ino / PER_BLOCK], ino % PER_BLOCK, e)]
  }

  // inode_sync: an entry that is written is that inode's, and no other inode's.
  lemma SyncOne(bs: seq<Block>, ino: nat, e: Entry, other: nat)
    requires ino / PER_BLOCK < |bs| && other / PER_BLOCK < |bs| && |e.addrs| == NUM_DIRECT
    ensures EntryIn(WithEntry(bs, ino, e), other) == if other == ino then e else EntryIn(bs, other)
  {
    hide Fetch, Put;
    PutFetch(bs[ino / PER_BLOCK], ino % PER_BLOCK, e, other % PER_BLOCK);
  }
}
