/** Files over a block store (src/fs/inode.c): reading, writing and truncating byte ranges, and the entries
    in memory and on disk. */
module Inode {
  import opened Basics
  import opened Bytes
  import opened LogSpec
  import opened BlockMap
  import opened FreeBlocks
  import opened Quota
  import opened FileQuota
  import Counting

  const INVALID: U16 := 0

  // A call either returns or runs into a failing ASSERT or a PANIC.
  datatype Outcome<T> = Done(value: T) | Panic

  // An inode in memory, with its reference count.
  datatype Node = Node(rc: nat, entry: Entry)

  // Entries in memory are those on disk.
  ghost predicate Cached(mem: map<nat, Node>, disk: Files) {
    forall i :: i in mem ==> i in disk && mem[i].entry == disk[i] && mem[i].rc > 0
  }

  // Memory and disk change together at ino.
  lemma CachedAt(mem: map<nat, Node>, disk: Files, ino: nat, e: Entry, mem': map<nat, Node>)
    requires Cached(mem, disk) && ino in mem && mem' == mem[ino := mem[ino].(entry := e)]
    ensures Cached(mem', disk[ino := e])
  {
  }

  /** The sleep locks of the inodes in memory: the numbers of those that are held. */
  class Locks {
    var held: set<nat>

    constructor ()
      ensures held == {}
    {
      held := {};
    }

    // inode_lock, which gets past the lock exactly if it is free: otherwise it waits, and the ASSERT fails if the
    // process is killed.
    method Lock(ino: nat) returns (ok: bool)
      modifies this
      ensures ok <==> ino !in old(held)
      ensures held == if ok then old(held) + {ino} else old(held)
    {
      ok := ino !in held;
      held := held + {ino};
      assert !ok ==> held == old(held);
    }

    // inode_unlock.
    method Unlock(ino: nat)
      modifies this
      ensures held == old(held) - {ino}
    {
      held := held - {ino};
    }
  }

  class FileSystem {
    const locks: Locks
    const lay: Layout
    const num_inodes: nat
    ghost const reserved: set<nat>
    var st: Store
    var disk: Files
    var mem: map<nat, Node>
    var ledger: Ledger

    // The blocks in reserved, those of the log, the inodes and the bitmap among them, are no file's.
    ghost predicate Valid()
      reads this
    {
      Steady(disk, st) && Cached(mem, disk) && Apart(reserved, disk, st)
    }

    constructor (lay: Layout, num_inodes: nat, st: Store, disk: Files, ledger: Ledger, ghost reserved: set<nat>)
      requires Steady(disk, st) && Apart(reserved, disk, st)
      ensures Valid() && this.st == st && this.disk == disk && mem == map[] && this.ledger == ledger
      ensures this.reserved == reserved && this.lay == lay && this.num_inodes == num_inodes
      ensures fresh(locks) && locks.held == {}
    {
      locks := new Locks();
      this.lay, this.num_inodes, this.reserved := lay, num_inodes, reserved;
      this.st, this.disk, mem, this.ledger := st, disk, map[], ledger;
    }

    // cache_alloc: the lowest free block, cleared; PANIC exactly if none is free, or the quota does not suffice for
    // the block and its bit.
    method Alloc(ctx: nat) returns (r: Outcome<U32>)
      requires StoreOk(st) && CtxOk(ledger, ctx)
      modifies this
      ensures disk == old(disk) && mem == old(mem) && |st.blocks| == |old(st).blocks|
      ensures var b := Lowest(old(st).used);
              r.Done?
              <==> Possible(lay, old(ledger), ctx, old(st), 1, NewTouch(lay, {b}))
      ensures r.Done? ==> r.value == Lowest(old(st).used) && r.value < |st.blocks| && r.value !in old(st).used
      ensures r.Done? ==> st == Taken(old(st), r.value)
      ensures r.Done? ==> ledger == Charged(old(ledger), ctx, NewTouch(lay, {Lowest(old(st).used)}))
    {
      hide NewTouch, Affords, Charged;
      FullCount(st);
      var b := 0;
      while b < |st.blocks|
        invariant 0 <= b <= |st.blocks| && st == old(st) && disk == old(disk) && mem == old(mem)
        invariant ledger == old(ledger)
        invariant forall c :: 0 <= c < b ==> c in st.used
      {
        if b !in st.used {
          LowestIs(st.used, b);
          TouchOne(lay, ledger, ctx, b);
          st := st.(used := st.used + {b});
          var ok;
          ok, ledger := SyncBlock(ledger, ctx, BitBlock(lay, b));
          if !ok {
            return Panic;
          }
          st := st.(blocks := st.blocks[b := Zero()]);
          ok, ledger := SyncBlock(ledger, ctx, b);
          if !ok {
            return Panic;
          }
          return Done(b);
        }
        b := b + 1;
      }
      return Panic;
    }

    // inode_map: the block that holds the i-th part of the file, allocated if need be.
    method InodeMap(ctx: nat, ino: nat, i: nat) returns (r: Outcome<U32>, modified: bool)
      requires ino in mem && StoreOk(st) && Sound(mem[ino].entry, st) && CtxOk(ledger, ctx)
      modifies this
      ensures disk == old(disk) && ino in mem && mem == old(mem)[ino := Node(old(mem)[ino].rc, mem[ino].entry)]
      ensures |st.blocks| == |old(st).blocks|
      ensures i < MAX_BLOCKS ==> (r.Done? <==> CanMap(lay, old(ledger), ctx, old(mem)[ino].entry, old(st), i))
      ensures i >= MAX_BLOCKS ==> r.Panic? && st == old(st) && mem == old(mem)
      ensures r.Done? ==> Mapped(old(mem)[ino].entry, old(st), mem[ino].entry, st, i)
      ensures r.Done? ==> r.value == MapAt(mem[ino].entry, st.blocks, i)
      ensures r.Done? ==> MappedFor(lay, old(ledger), ctx, old(mem)[ino].entry, old(st), i, st, ledger)
      ensures r.Done? ==> (modified <==> MapAt(old(mem)[ino].entry, old(st).blocks, i) == 0)
    {
      hide MapTouch, Affords, Charged, NewTouch, NewSet;
      ghost var e0, st0, l0 := mem[ino].entry, st, ledger;
      FullCount(st);
      var node := mem[ino];
      modified := false;
      assert mem == mem[ino := node];
      if i < NUM_DIRECT {
        var addr := node.entry.addrs[i];
        if addr == 0 {
          TouchDirect(lay, e0, st0, i);
          var a := Alloc(ctx);
          if a.Panic? {
            return Panic, modified;
          }
          addr := a.value;
          DirectStep(e0, st0, i, addr);
          mem := mem[ino := node.(entry := node.entry.(addrs := node.entry.addrs[i := addr]))];
          modified := true;
        } else {
          MapFree(lay, l0, ctx, e0, st0, i);
        }
        return Done(addr), modified;
      }
      if i < MAX_BLOCKS {
        if node.entry.indirect == 0 {
          r, modified := MapBoth(ctx, ino, i);
        } else {
          r, modified := MapSlot(ctx, ino, i, node.entry.indirect);
        }
        return;
      }
      return Panic, modified;
    }

    // inode_map for a file that gets its indirect block.
    method MapBoth(ctx: nat, ino: nat, i: nat) returns (r: Outcome<U32>, modified: bool)
      requires ino in mem && StoreOk(st) && Sound(mem[ino].entry, st) && CtxOk(ledger, ctx)
      requires NUM_DIRECT <= i < MAX_BLOCKS && mem[ino].entry.indirect == 0
      modifies this
      ensures disk == old(disk) && ino in mem && mem == old(mem)[ino := Node(old(mem)[ino].rc, mem[ino].entry)]
      ensures |st.blocks| == |old(st).blocks|
      ensures r.Done? <==> CanMap(lay, old(ledger), ctx, old(mem)[ino].entry, old(st), i)
      ensures r.Done? ==> Mapped(old(mem)[ino].entry, old(st), mem[ino].entry, st, i)
      ensures r.Done? ==> r.value == MapAt(mem[ino].entry, st.blocks, i)
      ensures r.Done? ==> MappedFor(lay, old(ledger), ctx, old(mem)[ino].entry, old(st), i, st, ledger)
      ensures r.Done? ==> modified
    {
      hide MapTouch, Affords, Charged, NewTouch, NewSet, Mapped;
      ghost var e0, st0, l0 := mem[ino].entry, st, ledger;
      var node := mem[ino];
      modified := false;
      assert mem == mem[ino := node];
      FullCount(st);
      var a := Alloc(ctx);
      if a.Panic? {
        NoIndirect(lay, l0, ctx, e0, st0, i);
        return Panic, modified;
      }
      var addr := a.value;
      IndirectStep(e0, st0, addr);
      assert addr != 0 && MapAt(e0, st0.blocks, i) == 0;
      ghost var e1 := e0.(indirect := addr);
      ghost var st1, l1 := st, ledger;
      TouchBoth(lay, e0, st0, i, e1, st1);
      FullCount(st1);
      BothCharge(lay, l0, ctx, e0, st0, i, e1, st1, l1);
      mem := mem[ino := node.(entry := node.entry.(indirect := addr))];
      r, modified := MapSlot(ctx, ino, i, addr);
      if r.Done? {
        BothStep(e0, st0, e1, st1, st, addr, i);
        BothDone(lay, l0, ctx, e0, st0, i, e1, st1, l1, st, ledger);
      }
    }

    // The rest of inode_map, for a slot of the indirect block addr.
    method MapSlot(ctx: nat, ino: nat, i: nat, addr: U32) returns (r: Outcome<U32>, modified: bool)
      requires ino in mem && StoreOk(st) && Sound(mem[ino].entry, st) && CtxOk(ledger, ctx)
      requires NUM_DIRECT <= i < MAX_BLOCKS && addr == mem[ino].entry.indirect && addr != 0
      modifies this
      ensures disk == old(disk) && mem == old(mem) && |st.blocks| == |old(st).blocks|
      ensures r.Done? <==> CanMap(lay, old(ledger), ctx, old(mem)[ino].entry, old(st), i)
      ensures r.Done? ==> Mapped(old(mem)[ino].entry, old(st), mem[ino].entry, st, i)
      ensures r.Done? ==> r.value == MapAt(mem[ino].entry, st.blocks, i)
      ensures r.Done? ==> MappedFor(lay, old(ledger), ctx, old(mem)[ino].entry, old(st), i, st, ledger)
      ensures r.Done? ==> (modified <==> MapAt(old(mem)[ino].entry, old(st).blocks, i) == 0)
    {
      hide MapTouch, Affords, Charged, NewTouch, NewSet;
      ghost var e0, st0, l0 := mem[ino].entry, st, ledger;
      modified := false;
      FullCount(st);
      var slot := Addr(st.blocks[addr], i - NUM_DIRECT);
      if slot == 0 {
        TouchSlot(lay, e0, st0, i);
        var a := Alloc(ctx);
        SlotCharge(l0, ctx, NewTouch(lay, {Lowest(st0.used)}), addr);
        if a.Panic? {
          return Panic, modified;
        }
        slot := a.value;
        SlotStep(e0, st0, i, slot);
        SlotMap(e0, st, i, slot, i);
        st := st.(blocks := st.blocks[addr := SetAddr(st.blocks[addr], i - NUM_DIRECT, slot)]);
        modified := true;
        var ok;
        ok, ledger := SyncBlock(ledger, ctx, addr);
        if !ok {
          return Panic, modified;
        }
      } else {
        MapFree(lay, l0, ctx, e0, st0, i);
      }
      return Done(slot), modified;
    }

    // inode_sync; false for the PANIC of the sync.
    method Sync(ctx: nat, ino: nat, do_write: bool) returns (ok: bool)
      requires ino in mem && CtxOk(ledger, ctx)
      modifies this
      ensures st == old(st) && mem == old(mem)
      ensures ok <==> !do_write || Affords(old(ledger), ctx, {InodeBlock(lay, ino)})
      ensures ok ==> disk == if do_write then old(disk)[ino := mem[ino].entry] else old(disk)
      ensures ok ==> ledger == if do_write then Charged(old(ledger), ctx, {InodeBlock(lay, ino)}) else old(ledger)
    {
      if do_write {
        disk := disk[ino := mem[ino].entry];
        ok, ledger := SyncBlock(ledger, ctx, InodeBlock(lay, ino));
        return;
      }
      return true;
    }

    // Nobody holds the lock of an inode that is not in memory.
    ghost predicate LocksOk()
      reads this, locks
    {
      forall i :: i in locks.held ==> i in mem
    }

    // inode_get: an inode that is not in memory is loaded from disk, with its lock held; an ASSERT fails exactly for a
    // number that is no inode's. The ASSERT on the lock holds.
    method Get(ino: nat) returns (r: Outcome<Node>)
      requires Valid() && LocksOk() && (0 < ino < num_inodes ==> ino in disk)
      modifies this, locks
      ensures Valid() && LocksOk() && st == old(st) && disk == old(disk) && ledger == old(ledger)
      ensures locks.held == old(locks.held)
      ensures r.Panic? <==> !(0 < ino < num_inodes)
      ensures r.Panic? ==> mem == old(mem)
      ensures r.Done? ==> r.value == Node(if ino in old(mem) then old(mem)[ino].rc + 1 else 1, disk[ino])
      ensures r.Done? ==> mem == old(mem)[ino := r.value]
    {
      if !(ino > 0) || !(ino < num_inodes) {
        return Panic;
      }
      if ino in mem {
        mem := mem[ino := mem[ino].(rc := mem[ino].rc + 1)];
      } else {
        var ok := locks.Lock(ino);
        assert ok;
        mem := mem[ino := Node(1, disk[ino])];
        locks.Unlock(ino);
        assert locks.held == old(locks.held);
      }
      return Done(mem[ino]);
    }

    // inode_read: the slice that the file has of the range, or a failing ASSERT.
    method Read(ino: nat, offset: U64, count: U64) returns (r: Outcome<seq<Byte>>)
      requires Valid() && ino in mem
      modifies this
      ensures st == old(st) && disk == old(disk) && mem == old(mem) && ledger == old(ledger)
      ensures r.Done? <==> offset <= mem[ino].entry.num_bytes && offset + count < WORD
      ensures r.Done? ==>
                var c := Content(mem[ino].entry, st.blocks);
                r.value == if offset + count <= |c| then c[offset..offset + count] else c[offset..]
    {
      hide Steady, Content, Apart;
      var size := mem[ino].entry.num_bytes;
      var n := count;
      if (count + offset) % WORD > size {
        n := (size - offset) % WORD;
      }
      var end := (offset + n) % WORD;
      Clamp(size, offset, count, n, end);
      if !(offset <= size) || !(end <= size) || !(offset <= end) {
        return Panic;
      }
      var dest := ReadRange(ino, offset, n);
      return Done(dest);
    }

    // The loop of inode_read, which never allocates.
    method ReadRange(ino: nat, offset: nat, n: nat) returns (dest: seq<Byte>)
      requires Valid() && ino in mem && offset + n <= mem[ino].entry.num_bytes
      modifies this
      ensures st == old(st) && disk == old(disk) && mem == old(mem) && ledger == old(ledger)
      ensures dest == Content(mem[ino].entry, st.blocks)[offset..offset + n]
    {
      hide Steady, Content, Room, Cached, Apart;
      ghost var e, c := mem[ino].entry, Content(mem[ino].entry, st.blocks);
      var at, tot := offset, 0;
      dest := [];
      while tot < n
        invariant 0 <= tot <= n && at == offset + tot && dest == c[offset..at]
        invariant st == old(st) && disk == old(disk) && mem == old(mem) && ledger == old(ledger)
      {
        var m := Min(n - tot, Room(at));
        var piece := ReadPiece(ino, at, m);
        dest := dest + piece;
        Joined(c, offset, at, m);
        tot, at := tot + m, at + m;
      }
    }

    // One round of the loop: m bytes, all in one block.
    method ReadPiece(ino: nat, at: nat, m: nat) returns (piece: seq<Byte>)
      requires Valid() && ino in mem && at + m <= mem[ino].entry.num_bytes && 0 < m <= Room(at)
      modifies this
      ensures st == old(st) && disk == old(disk) && mem == old(mem) && ledger == old(ledger)
      ensures piece == Content(mem[ino].entry, st.blocks)[at..at + m]
    {
      hide Steady, Content, Mapped, StoreOk, FileOk, Sound, Cached, Apart, MapTouch, CanMap;
      CachedIs(mem, disk, ino);
      ReadOk(disk, st, ino);
      ReadChunk(mem[ino].entry, st, BlocksFor(mem[ino].entry.num_bytes), at, m);
      FullCount(st);
      MapFree(lay, ledger, NO_CTX, mem[ino].entry, st, at / BLOCK_SIZE);
      ghost var e0, st0, mem0 := mem[ino].entry, st, mem;
      var b, modified := InodeMap(NO_CTX, ino, at / BLOCK_SIZE);
      assert b.Done? && !modified;
      MapNothing(lay, e0, st0, mem[ino].entry, st, at / BLOCK_SIZE);
      assert mem == mem0[ino := mem0[ino]];
      piece := st.blocks[b.value][at % BLOCK_SIZE..at % BLOCK_SIZE + m];
    }

    // inode_write: the bytes are spliced in. It fails exactly if the range does not fit the file, if too few blocks
    // are free, or if the quota does not suffice for the blocks that it syncs. The entry on disk is that in memory,
    // although only growth writes it.
    method Write(ctx: nat, ino: nat, src: seq<Byte>, offset: U64) returns (r: Outcome<nat>)
      requires Valid() && ino in mem && |src| < WORD && CtxOk(ledger, ctx)
      modifies this
      ensures r == Done(|src|) || r.Panic?
      ensures offset > old(mem)[ino].entry.num_bytes || offset + |src| > MAX_BYTES ==>
                r.Panic? && st == old(st) && disk == old(disk) && mem == old(mem) && ledger == old(ledger)
      ensures r.Done? <==> CanWrite(lay, old(ledger), ctx, ino, old(mem)[ino].entry, old(st), offset, |src|)
      ensures r.Done? ==> Valid() && ino in mem && mem == old(mem)[ino := Node(old(mem)[ino].rc, mem[ino].entry)]
      ensures r.Done? ==>
                Content(mem[ino].entry, st.blocks) == Splice(Content(old(mem)[ino].entry, old(st).blocks), offset, src)
      ensures r.Done? ==> SameOthers(old(disk), old(st).blocks, disk, st.blocks, ino)
      ensures r.Done? ==> SameBlocks(reserved, old(st).blocks, st.blocks)
      ensures r.Done? ==> WrittenFor(lay, old(ledger), ctx, ino, old(mem)[ino].entry, old(st), offset, |src|, ledger)
      ensures r.Done? ==> Recorded(lay, ino, old(disk), old(st), offset, |src|, disk, st)
    {
      hide Steady, Content, Splice, SameOthers, Apart, Cached, SameBlocks, WrittenFor, Affords, WriteTouch, Growth,
           Recorded;
      CachedIs(mem, disk, ino);
      ReadOk(disk, st, ino);
      hide FileOk, StoreOk, Sound;
      var size := mem[ino].entry.num_bytes;
      var end := (offset + |src|) % WORD;
      EndWraps(offset, |src|, end);
      if !(offset <= size) || !(end <= MAX_BYTES) || !(offset <= end) {
        return Panic;
      }
      var ok := WriteAll(ctx, ino, src, offset);
      return if ok then Done(|src|) else Panic;
    }

    // inode_write once its ASSERTs hold.
    method WriteAll(ctx: nat, ino: nat, src: seq<Byte>, offset: nat) returns (ok: bool)
      requires Valid() && ino in mem && CtxOk(ledger, ctx) && Formed(mem[ino].entry, st.blocks)
      requires offset <= mem[ino].entry.num_bytes && offset + |src| <= MAX_BYTES
      modifies this
      ensures ok <==> CanWrite(lay, old(ledger), ctx, ino, old(mem)[ino].entry, old(st), offset, |src|)
      ensures ok ==> Valid() && ino in mem && mem == old(mem)[ino := Node(old(mem)[ino].rc, mem[ino].entry)]
      ensures ok ==>
                Content(mem[ino].entry, st.blocks) == Splice(Content(old(mem)[ino].entry, old(st).blocks), offset, src)
      ensures ok ==> SameOthers(old(disk), old(st).blocks, disk, st.blocks, ino)
      ensures ok ==> SameBlocks(reserved, old(st).blocks, st.blocks)
      ensures ok ==> WrittenFor(lay, old(ledger), ctx, ino, old(mem)[ino].entry, old(st), offset, |src|, ledger)
      ensures ok ==> Recorded(lay, ino, old(disk), old(st), offset, |src|, disk, st)
    {
      hide Steady, Content, Splice, SameOthers, Apart, Cached, SameBlocks, WrittenFor, Progress, Fits, CanWrite,
           FilesOk, Writing, WriteTouch, Affords, Recorded;
      CachedIs(mem, disk, ino);
      ghost var d0, st0, mem0, l0, n := disk, st, mem, ledger, 0;
      SteadyFiles(d0, st0, ino);
      WritingStart(d0, st0, ino, offset, src);
      WriteMeans(lay, l0, ctx, ino, d0[ino], st0, offset, |src|);
      ok, n := WriteRange(ctx, ino, src, offset);
      if !ok {
        return;
      }
      ok := WriteEnd(ctx, ino, src, offset, d0, st0, mem0, l0, n);
    }

    // The loop of inode_write.
    method WriteRange(ctx: nat, ino: nat, src: seq<Byte>, offset: nat) returns (ok: bool, ghost n: nat)
      requires ino in mem && ino in disk && disk[ino] == mem[ino].entry && CtxOk(ledger, ctx)
      requires Writing(disk, st, ino, offset, src, disk[ino], st, BlocksFor(disk[ino].num_bytes), 0)
      modifies this
      ensures disk == old(disk) && Formed(disk[ino], old(st).blocks)
      ensures ok <==> Fits(lay, disk[ino], old(st), old(ledger), ctx, offset, |src|)
      ensures ok ==>
                Progress(lay, disk, old(st), old(mem), old(ledger), ctx, ino, offset, src, mem, st, ledger, n, |src|)
    {
      hide Writing, BlocksFor, Room, Progress, Fits;
      ghost var d0, st0, mem0, l0 := disk, st, mem, ledger;
      ProgressStart(lay, d0, st0, mem0, l0, ctx, ino, offset, src);
      var at, tot := offset, 0;
      n := BlocksFor(disk[ino].num_bytes);
      ok := true;
      while tot < |src|
        invariant 0 <= tot <= |src| && at == offset + tot && disk == d0
        invariant Progress(lay, d0, st0, mem0, l0, ctx, ino, offset, src, mem, st, ledger, n, tot)
      {
        var m := Min(|src| - tot, Room(at));
        ok, n := WriteChunk(ctx, ino, src, offset, tot, m, d0, st0, mem0, l0, n);
        if !ok {
          return;
        }
        tot, at := tot + m, at + m;
      }
      ProgressEnd(lay, d0, st0, mem0, l0, ctx, ino, offset, src, mem, st, ledger, n);
    }

    // One round of the loop: m bytes, all in one block.
    method WriteChunk(ctx: nat, ino: nat, src: seq<Byte>, offset: nat, tot: nat, m: nat,
                      ghost d0: Files, ghost st0: Store, ghost mem0: map<nat, Node>, ghost l0: Ledger, ghost n: nat)
      returns (ok: bool, ghost n1: nat)
      requires Progress(lay, d0, st0, mem0, l0, ctx, ino, offset, src, mem, st, ledger, n, tot)
      requires 0 < m <= Room(offset + tot) && tot + m <= |src|
      modifies this
      ensures disk == old(disk) && ino in d0 && Formed(d0[ino], st0.blocks) && CtxOk(l0, ctx)
      ensures if ok then Progress(lay, d0, st0, mem0, l0, ctx, ino, offset, src, mem, st, ledger, n1, tot + m)
              else !Fits(lay, d0[ino], st0, l0, ctx, offset, |src|)
    {
      hide Writing, Growth, BlocksFor, Mapped, StoreOk, Sound, Cost, MapAt, Max, Tracked, Kept, DataTouch, MapTouch,
           Affords, Charged, NewSet, Fits, Touching;
      var at := offset + tot;
      ghost var e, s, node, l := mem[ino].entry, st, mem[ino], ledger;
      n1 := BlocksFor(Max(d0[ino].num_bytes, offset + (tot + m)));
      WritingSound(d0, st0, ino, offset, src, e, st, n, tot);
      CountStep(d0, st0, ino, offset, src, e, st, n, tot, m, at / BLOCK_SIZE);
      ChunkFails(lay, d0, st0, l0, ctx, ino, offset, src, e, s, l, n, tot, m, at / BLOCK_SIZE);
      var b, modified := InodeMap(ctx, ino, at / BLOCK_SIZE);
      if b.Panic? {
        return false, n;
      }
      ghost var e1, s1 := mem[ino].entry, st;
      ChunkMapped(lay, d0, st0, l0, ctx, ino, offset, src, e, s, l, n, tot, e1, s1, ledger, m, at / BLOCK_SIZE, n1);
      Twice(mem0, ino, node, mem[ino]);
      st := st.(blocks := st.blocks[b.value := Patch(st.blocks[b.value], at % BLOCK_SIZE, src[tot..tot + m])]);
      ok, ledger := SyncBlock(ledger, ctx, b.value);
    }

    // The end of inode_write: the size, and the entry on disk, if the file grew.
    method WriteEnd(ctx: nat, ino: nat, src: seq<Byte>, offset: nat,
                    ghost d0: Files, ghost st0: Store, ghost mem0: map<nat, Node>, ghost l0: Ledger,
                    ghost n: nat) returns (ok: bool)
      requires disk == d0 && Cached(mem0, d0) && Steady(d0, st0) && Apart(reserved, d0, st0) && CtxOk(l0, ctx)
      requires Progress(lay, d0, st0, mem0, l0, ctx, ino, offset, src, mem, st, ledger, n, |src|)
      requires ino in mem0 && offset <= mem0[ino].entry.num_bytes && ino in d0 && d0[ino] == mem0[ino].entry
      requires Formed(d0[ino], st0.blocks)
      modifies this
      ensures ok <==> Affords(l0, ctx, WriteTouch(lay, ino, d0[ino], st0, offset, |src|))
      ensures ok ==> st == old(st) && ino in mem && mem == mem0[ino := Node(mem0[ino].rc, mem[ino].entry)] && Valid()
      ensures ok ==> Content(mem[ino].entry, st.blocks) == Splice(Content(mem0[ino].entry, st0.blocks), offset, src)
      ensures ok ==> SameOthers(d0, st0.blocks, disk, st.blocks, ino) && SameBlocks(reserved, st0.blocks, st.blocks)
      ensures ok ==> WrittenFor(lay, l0, ctx, ino, d0[ino], st0, offset, |src|, ledger)
      ensures ok ==> Recorded(lay, ino, d0, st0, offset, |src|, disk, st)
    {
      hide Steady, Content, Splice, SameOthers, FilesOk, Bytewise, Tracked, Kept, Apart, SameBlocks, Affords, Charged,
           DataTouch, Growth, Touching, Recorded;
      var size := mem[ino].entry.num_bytes;
      ghost var e := mem[ino].entry;
      ghost var e' := e.(num_bytes := Max(size, offset + |src|));
      WritingEnd(d0, st0, ino, offset, src, e, st, n, e');
      CachedAt(mem0, d0, ino, e', mem0[ino := mem0[ino].(entry := e')]);
      SteadyFiles(d0[ino := e'], st, ino);
      KeptResized(d0[ino], st0, e, st, e');
      ApartWrite(reserved, d0, st0, ino, e', st);
      EndCharge(lay, l0, ctx, ino, d0[ino], st0, offset, |src|, ledger);
      RecordedNow(lay, ino, d0, st0, offset, |src|, e, n, d0[ino := e'], st);
      hide Writing;
      if |src| > 0 && offset + |src| > size {
        mem := mem[ino := mem[ino].(entry := mem[ino].entry.(num_bytes := offset + |src|))];
        ok := Sync(ctx, ino, true);
      } else {
        assert d0[ino := e'] == d0;
        ok := true;
      }
    }

    // cache_free: PANIC exactly if the block is free already, or the quota does not suffice for its bit.
    method Free(ctx: nat, b: nat) returns (ok: bool)
      requires CtxOk(ledger, ctx)
      modifies this
      ensures ok <==> b in old(st).used && Affords(old(ledger), ctx, {BitBlock(lay, b)})
      ensures disk == old(disk) && mem == old(mem)
      ensures ok ==>
                st == old(st).(used := old(st).used - {b}) && ledger == Charged(old(ledger), ctx, {BitBlock(lay, b)})
    {
      if b !in st.used {
        return false;
      }
      st := st.(used := st.used - {b});
      ok, ledger := SyncBlock(ledger, ctx, BitBlock(lay, b));
    }

    // One block of inode_clear: it is marked, so that only the quota can fail.
    method FreeNext(ctx: nat, ghost e: Entry, ghost st0: Store, ghost l0: Ledger, b: nat) returns (ok: bool)
      requires CtxOk(l0, ctx) && Clearing(lay, l0, ctx, e, st0, st, ledger) && Formed(e, st0.blocks) && b in st.used
      requires b in Owned(e, st0.blocks)
      modifies this
      ensures disk == old(disk) && mem == old(mem)
      ensures ok ==> st == old(st).(used := old(st).used - {b}) && Clearing(lay, l0, ctx, e, st0, st, ledger)
      ensures !ok ==> !Affords(l0, ctx, BitBlocks(lay, Owned(e, st0.blocks)))
    {
      hide Clearing, Affords, Charged, Owned, BitBlocks;
      ClearingCtx(lay, l0, ctx, e, st0, st, ledger);
      ClearingStep(lay, l0, ctx, e, st0, st, ledger, b);
      ok := Free(ctx, b);
    }

    // inode_clear, first loop: the direct blocks.
    method ClearDirect(ctx: nat, ino: nat, ghost e: Entry, ghost st0: Store, ghost l0: Ledger) returns (ok: bool)
      requires ino in mem && mem[ino].entry == e && st == st0 && StoreOk(st0) && Sound(e, st0) && CtxOk(l0, ctx)
      requires ledger == l0
      modifies this
      ensures disk == old(disk)
      ensures ok ==> ino in mem && Freed(e, st0.blocks, NUM_DIRECT, st0.used, st.used)
      ensures ok ==> Clearing(lay, l0, ctx, e, st0, st, ledger)
      ensures ok ==> mem == old(mem)[ino := old(mem)[ino].(entry := e.(addrs := seq(NUM_DIRECT, _ => 0)))]
      ensures !ok ==> !Affords(l0, ctx, BitBlocks(lay, Owned(e, st0.blocks)))
    {
      hide Clearing, Affords, Owned, StoreOk, Sound, BitBlocks;
      var i := 0;
      SoundFormed(e, st0);
      ClearingStart(lay, l0, ctx, e, st0);
      assert mem == mem[ino := mem[ino].(entry := e.(addrs := e.addrs))];
      while i < NUM_DIRECT
        invariant 0 <= i <= NUM_DIRECT && disk == old(disk) && ino in mem && Clearing(lay, l0, ctx, e, st0, st, ledger)
        invariant |mem[ino].entry.addrs| == NUM_DIRECT
        invariant mem == old(mem)[ino := old(mem)[ino].(entry := e.(addrs := mem[ino].entry.addrs))]
        invariant forall j :: 0 <= j < NUM_DIRECT ==> mem[ino].entry.addrs[j] == if j < i then 0 else e.addrs[j]
        invariant Freed(e, st0.blocks, i, st0.used, st.used)
      {
        hide Freed;
        FreedStep(e, st0, i, st.used);
        var b := mem[ino].entry.addrs[i];
        if b != 0 {
          assert b in st.used;
          OwnedAt(e, st0.blocks, i);
          ok := FreeNext(ctx, e, st0, l0, b);
          if !ok {
            return;
          }
          mem := mem[ino := mem[ino].(entry := mem[ino].entry.(addrs := mem[ino].entry.addrs[i := 0]))];
        }
        i := i + 1;
      }
      assert mem[ino].entry.addrs == seq(NUM_DIRECT, _ => 0);
      ok := true;
    }

    // inode_clear, second loop: the blocks in the indirect block, and that block.
    method ClearIndirect(ctx: nat, ino: nat, ghost e: Entry, ghost st0: Store, ghost l0: Ledger) returns (ok: bool)
      requires ino in mem && mem[ino].entry.indirect == e.indirect && StoreOk(st0) && Sound(e, st0) && CtxOk(l0, ctx)
      requires Freed(e, st0.blocks, NUM_DIRECT, st0.used, st.used) && Clearing(lay, l0, ctx, e, st0, st, ledger)
      modifies this
      ensures disk == old(disk)
      ensures ok ==> AllFreed(e, st0.blocks, st0.used, st.used) && Clearing(lay, l0, ctx, e, st0, st, ledger)
      ensures ok ==> ino in mem && mem == old(mem)[ino := old(mem)[ino].(entry := old(mem)[ino].entry.(indirect := 0))]
      ensures !ok ==> !Affords(l0, ctx, BitBlocks(lay, Owned(e, st0.blocks)))
    {
      hide Clearing, Affords, Owned, BitBlocks;
      if mem[ino].entry.indirect == 0 {
        FreedDirect(e, st0, st.used);
        FreedAll(e, st0, st.used);
        assert mem == mem[ino := mem[ino].(entry := mem[ino].entry.(indirect := 0))];
        return true;
      }
      var bp := mem[ino].entry.indirect;
      var i := 0;
      while i < NUM_INDIRECT
        invariant 0 <= i <= NUM_INDIRECT && disk == old(disk) && mem == old(mem)
        invariant Clearing(lay, l0, ctx, e, st0, st, ledger)
        invariant Freed(e, st0.blocks, NUM_DIRECT + i, st0.used, st.used)
      {
        hide Freed, StoreOk, Sound;
        FreedStep(e, st0, NUM_DIRECT + i, st.used);
        ClearingBlocks(lay, l0, ctx, e, st0, st, ledger);
        var b := Addr(st.blocks[bp], i);
        if b != 0 {
          assert b in st.used;
          OwnedAt(e, st0.blocks, NUM_DIRECT + i);
          ok := FreeNext(ctx, e, st0, l0, b);
          if !ok {
            return;
          }
        }
        i := i + 1;
      }
      FreedAll(e, st0, st.used);
      OwnedIndirect(e, st0.blocks);
      assert bp in st.used;
      ok := FreeNext(ctx, e, st0, l0, bp);
      if ok {
        mem := mem[ino := mem[ino].(entry := mem[ino].entry.(indirect := 0))];
      }
    }

    // inode_clear: the file is empty, and its blocks, each once, are free again. The PANIC for a block that is free
    // already cannot happen; that for the quota does exactly if the bits and the inode block are too many.
    method Clear(ctx: nat, ino: nat) returns (ok: bool)
      requires Valid() && ino in mem && CtxOk(ledger, ctx)
      modifies this
      ensures Formed(old(mem)[ino].entry, old(st).blocks)
      ensures ok <==> Affords(old(ledger), ctx, ClearTouch(lay, ino, old(mem)[ino].entry, old(st).blocks))
      ensures ok ==> Valid() && st.blocks == old(st).blocks
      ensures ok ==> AllFreed(old(mem)[ino].entry, old(st).blocks, old(st).used, st.used)
      ensures ok ==> mem == old(mem)[ino := old(mem)[ino].(entry := Emptied(old(mem)[ino].entry))]
      ensures ok ==> ino in mem && Bare(old(mem)[ino].entry, mem[ino].entry) && mem[ino].rc == old(mem)[ino].rc
      ensures ok ==>
                SameOthers(old(disk), old(st).blocks, disk, st.blocks, ino) && Content(mem[ino].entry, st.blocks) == []
      ensures ok ==> ledger == Charged(old(ledger), ctx, ClearTouch(lay, ino, old(mem)[ino].entry, old(st).blocks))
    {
      hide Steady, FilesOk, Freed, AllFreed, Content, SameOthers, StoreOk, Sound, Cached, Apart, Clearing, Affords,
           Charged, Owned, BitBlocks, FileOk;
      CachedIs(mem, disk, ino);
      ghost var e, d0, st0, mem0, l0 := mem[ino].entry, disk, st, mem, ledger;
      ReadOk(d0, st0, ino);
      SteadyFiles(d0, st0, ino);
      SoundFormed(e, st0);
      ClearCharge(lay, l0, ctx, ino, e, st0);
      ok := ClearDirect(ctx, ino, e, st0, l0);
      if !ok {
        return;
      }
      ok := ClearIndirect(ctx, ino, e, st0, l0);
      if !ok {
        return;
      }
      mem := mem[ino := mem[ino].(entry := mem[ino].entry.(num_bytes := 0))];
      ThriceEmptied(mem0, ino, e, mem);
      ClearingEnd(lay, l0, ctx, ino, e, st0, st, ledger);
      EmptiedFiles(d0, st0, ino, BlocksFor(d0[ino].num_bytes), st.used);
      CachedAt(mem0, d0, ino, Emptied(e), mem);
      SteadyFiles(d0[ino := Emptied(e)], st, ino);
      ApartEmptied(reserved, d0, st0, ino, st);
      ok := Sync(ctx, ino, true);
    }

    // inode_put: the last reference to a file without links frees it, with its lock held; otherwise nothing but the
    // count changes.
    method Put(ctx: nat, ino: nat) returns (ok: bool)
      requires Valid() && ino in mem && CtxOk(ledger, ctx)
      modifies this, locks
      ensures Formed(old(mem)[ino].entry, old(st).blocks)
      ensures ok ==> locks.held == old(locks.held)
      ensures var was := old(mem)[ino];
              ok <==> (was.rc == 1 && was.entry.num_links == 0 ==>
                       ino !in old(locks.held)
                       && Affords(old(ledger), ctx, ClearTouch(lay, ino, was.entry, old(st).blocks)))
      ensures ok ==> Valid()
      ensures var was := old(mem)[ino];
              if was.rc == 1 && was.entry.num_links == 0 then
                ok ==>
                  && AllFreed(was.entry, old(st).blocks, old(st).used, st.used)
                  && mem == old(mem) - {ino} && ino in disk && disk[ino] == Emptied(was.entry).(kind := INVALID)
                  && disk[ino].kind == INVALID && Bare(was.entry, disk[ino].(kind := was.entry.kind))
                  && Affords(old(ledger), ctx, ClearTouch(lay, ino, was.entry, old(st).blocks))
                  && ledger == Charged(old(ledger), ctx, ClearTouch(lay, ino, was.entry, old(st).blocks))
                  && SameOthers(old(disk), old(st).blocks, disk, st.blocks, ino)
              else
                && st == old(st) && disk == old(disk) && ledger == old(ledger)
                && mem == if was.rc == 1 then old(mem) - {ino} else old(mem)[ino := was.(rc := was.rc - 1)]
    {
      hide Steady, Apart, SameOthers, AllFreed, ClearTouch, Affords;
      CachedIs(mem, disk, ino);
      ReadOk(disk, st, ino);
      SoundFormed(mem[ino].entry, st);
      hide FileOk, StoreOk, Sound;
      if mem[ino].rc == 1 && mem[ino].entry.num_links == 0 {
        ok := locks.Lock(ino);
        if ok {
          ok := PutLast(ctx, ino);
          locks.Unlock(ino);
          assert locks.held == old(locks.held);
        }
      } else if mem[ino].rc == 1 {
        mem := mem - {ino};
        ok := true;
      } else {
        mem := mem[ino := mem[ino].(rc := mem[ino].rc - 1)];
        ok := true;
      }
    }

    method PutLast(ctx: nat, ino: nat) returns (ok: bool)
      requires Valid() && ino in mem && CtxOk(ledger, ctx) && Formed(mem[ino].entry, st.blocks)
      modifies this
      ensures ok <==> Affords(old(ledger), ctx, ClearTouch(lay, ino, old(mem)[ino].entry, old(st).blocks))
      ensures ok ==> Valid() && AllFreed(old(mem)[ino].entry, old(st).blocks, old(st).used, st.used)
      ensures ok ==> mem == old(mem) - {ino}
      ensures ok ==> ino in disk && disk[ino] == Emptied(old(mem)[ino].entry).(kind := INVALID)
      ensures ok ==> SameOthers(old(disk), old(st).blocks, disk, st.blocks, ino)
      ensures ok ==> ledger == Charged(old(ledger), ctx, ClearTouch(lay, ino, old(mem)[ino].entry, old(st).blocks))
    {
      hide Content, AllFreed, Steady, SameOthers, Emptied, Formed, Apart, ClearTouch, Affords, Charged;
      ghost var d0, st0, mem0, l0, e0 := disk, st, mem, ledger, mem[ino].entry;
      ok := Clear(ctx, ino);
      if !ok {
        return;
      }
      ghost var d1, e := disk, mem[ino].entry;
      CachedIs(mem, disk, ino);
      AgainCharge(lay, l0, ctx, ino, e0, st0.blocks);
      mem := mem[ino := mem[ino].(entry := mem[ino].entry.(kind := INVALID))];
      ok := Sync(ctx, ino, true);
      Retyped(reserved, d1, st, ino, mem[ino].entry);
      SameOthersTrans(d0, st0.blocks, d1, st.blocks, disk, st.blocks, ino);
      mem := mem - {ino};
      assert mem == mem0 - {ino};
    }
  }

  // The entry without blocks and without bytes; its kind, device numbers and links stay.
  ghost predicate Bare(e: Entry, e': Entry) {
    && e'.kind == e.kind && e'.major == e.major && e'.minor == e.minor && e'.num_links == e.num_links
    && e'.num_bytes == 0 && e'.indirect == 0 && |e'.addrs| == 12 && forall i :: 0 <= i < 12 ==> e'.addrs[i] == 0
  }

  // ---- charging for a mapping ----

  // inode_map can return the i-th block: enough blocks are free, and the quota suffices for what it syncs.
  ghost predicate CanMap(y: Layout, l: Ledger, ctx: nat, e: Entry, st: Store, i: nat)
    requires CtxOk(l, ctx) && Formed(e, st.blocks) && i < MAX_BLOCKS
  {
    Possible(y, l, ctx, st, Cost(e, st.blocks, i), MapTouch(y, e, st, i))
  }

  // It took the lowest free blocks, and the ledger was charged.
  ghost predicate MappedFor(y: Layout, l: Ledger, ctx: nat, e: Entry, st: Store, i: nat, st': Store, l': Ledger)
    requires CtxOk(l, ctx) && Formed(e, st.blocks) && i < MAX_BLOCKS
  {
    && st'.used == st.used + NewSet(st.used, Cost(e, st.blocks, i))
    && Affords(l, ctx, MapTouch(y, e, st, i)) && l' == Charged(l, ctx, MapTouch(y, e, st, i))
  }

  lemma MapFree(y: Layout, l: Ledger, ctx: nat, e: Entry, st: Store, i: nat)
    requires CtxOk(l, ctx) && Formed(e, st.blocks) && i < MAX_BLOCKS && MapAt(e, st.blocks, i) != 0
    requires |st.used| <= |st.blocks|
    ensures CanMap(y, l, ctx, e, st, i) && MappedFor(y, l, ctx, e, st, i, st, l)
  {
    hide MapAt;
    assert NewSet(st.used, 0) == {};
    assert st.used + {} == st.used;
    assert MapTouch(y, e, st, i) == {};
    ChargeNothing(l, ctx);
  }

  // The bit and the block, one after the other.
  lemma TouchOne(y: Layout, l: Ledger, ctx: nat, b: nat)
    requires CtxOk(l, ctx)
    ensures NewTouch(y, {b}) == {BitBlock(y, b)} + {b}
    ensures Affords(l, ctx, NewTouch(y, {b})) ==> Affords(l, ctx, {BitBlock(y, b)})
    ensures Affords(l, ctx, {BitBlock(y, b)}) ==>
              var l' := Charged(l, ctx, {BitBlock(y, b)});
              && (Affords(l', ctx, {b}) <==> Affords(l, ctx, NewTouch(y, {b})))
              && (Affords(l', ctx, {b}) ==> Charged(l', ctx, {b}) == Charged(l, ctx, NewTouch(y, {b})))
  {
    BitBlocksOne(y, b);
    SlotCharge(l, ctx, {BitBlock(y, b)}, b);
  }

  lemma SlotCharge(l: Ledger, ctx: nat, s: set<nat>, b: nat)
    requires CtxOk(l, ctx)
    ensures Affords(l, ctx, s + {b}) ==> Affords(l, ctx, s)
    ensures Affords(l, ctx, s) ==>
              var l' := Charged(l, ctx, s);
              && (Affords(l', ctx, {b}) <==> Affords(l, ctx, s + {b}))
              && (Affords(l', ctx, {b}) ==> Charged(l', ctx, {b}) == Charged(l, ctx, s + {b}))
  {
    hide Affords, Charged;
    if Affords(l, ctx, s + {b}) {
      AffordsLess(l, ctx, s, s + {b});
    }
    if Affords(l, ctx, s) {
      ChargeBoth(l, ctx, s, {b});
    }
  }

  // Not even the indirect block.
  lemma NoIndirect(y: Layout, l: Ledger, ctx: nat, e: Entry, st: Store, i: nat)
    requires CtxOk(l, ctx) && Formed(e, st.blocks) && NUM_DIRECT <= i < MAX_BLOCKS && e.indirect == 0
    requires !Possible(y, l, ctx, st, 1, NewTouch(y, {Lowest(st.used)}))
    ensures !CanMap(y, l, ctx, e, st, i)
  {
    hide Affords, BitBlocks;
    assert {Lowest(st.used)} <= NewSet(st.used, 2);
    NewTouchBoth(y, {Lowest(st.used)}, NewSet(st.used, 2));
    assert {Lowest(st.used)} + NewSet(st.used, 2) == NewSet(st.used, 2);
    if Affords(l, ctx, MapTouch(y, e, st, i)) {
      AffordsLess(l, ctx, NewTouch(y, {Lowest(st.used)}), MapTouch(y, e, st, i));
    }
  }

  lemma BothCharge(y: Layout, l: Ledger, ctx: nat, e: Entry, st: Store, i: nat, e1: Entry, st1: Store, l1: Ledger)
    requires CtxOk(l, ctx) && Formed(e, st.blocks) && Formed(e1, st1.blocks) && i < MAX_BLOCKS
    requires |st1.blocks| == |st.blocks|
    requires Cost(e, st.blocks, i) == 2 && Cost(e1, st1.blocks, i) == 1 && |st1.used| == |st.used| + 1
    requires Affords(l, ctx, NewTouch(y, {e1.indirect as nat}))
    requires l1 == Charged(l, ctx, NewTouch(y, {e1.indirect as nat}))
    requires MapTouch(y, e, st, i) == NewTouch(y, {e1.indirect as nat}) + MapTouch(y, e1, st1, i)
    ensures CanMap(y, l1, ctx, e1, st1, i) <==> CanMap(y, l, ctx, e, st, i)
  {
    hide Affords, Charged, MapTouch, NewTouch, Cost;
    ChargeBoth(l, ctx, NewTouch(y, {e1.indirect as nat}), MapTouch(y, e1, st1, i));
  }

  lemma BothDone(y: Layout, l: Ledger, ctx: nat, e: Entry, st: Store, i: nat, e1: Entry, st1: Store, l1: Ledger,
                 st2: Store, l2: Ledger)
    requires CtxOk(l, ctx) && Formed(e, st.blocks) && Formed(e1, st1.blocks) && i < MAX_BLOCKS
    requires Cost(e, st.blocks, i) == 2 && Cost(e1, st1.blocks, i) == 1 && st1.used == st.used + {e1.indirect as nat}
    requires Affords(l, ctx, NewTouch(y, {e1.indirect as nat}))
    requires l1 == Charged(l, ctx, NewTouch(y, {e1.indirect as nat}))
    requires MapTouch(y, e, st, i) == NewTouch(y, {e1.indirect as nat}) + MapTouch(y, e1, st1, i)
    requires NewSet(st.used, 2) == {e1.indirect as nat} + NewSet(st1.used, 1)
    requires MappedFor(y, l1, ctx, e1, st1, i, st2, l2)
    ensures MappedFor(y, l, ctx, e, st, i, st2, l2)
  {
    hide Affords, Charged, MapTouch, NewTouch, Cost, NewSet;
    ChargeBoth(l, ctx, NewTouch(y, {e1.indirect as nat}), MapTouch(y, e1, st1, i));
    assert st1.used + NewSet(st1.used, 1) == st.used + NewSet(st.used, 2);
  }

  lemma Joined(c: seq<Byte>, i: nat, j: nat, m: nat)
    requires i <= j && j + m <= |c|
    ensures c[i..j] + c[j..j + m] == c[i..j + m]
  {
  }

  // The arithmetic of inode_read on 64-bit words.
  lemma Clamp(size: U32, offset: U64, count: U64, n: U64, end: U64)
    requires n == if (count + offset) % WORD > size then (size - offset) % WORD else count
    requires end == (offset + n) % WORD
    ensures offset <= size && end <= size && offset <= end <==> offset <= size && offset + count < WORD
    ensures offset <= size && end <= size && offset <= end ==>
              n == if offset + count <= size then count else size - offset
  {
    if offset + count < WORD {
      assert (count + offset) % WORD == count + offset;
    } else {
      assert (count + offset) % WORD == count + offset - WORD;
    }
    if offset <= size {
      assert (size - offset) % WORD == size - offset;
    } else {
      assert (size - offset) % WORD == size - offset + WORD;
    }
    if offset + n < WORD {
      assert end == offset + n;
    } else {
      assert end == offset + n - WORD;
    }
  }

  lemma ReadOk(d: Files, st: Store, ino: nat)
    requires Steady(d, st) && ino in d
    ensures StoreOk(st) && FileOk(d[ino], st, BlocksFor(d[ino].num_bytes)) && Sound(d[ino], st)
  {
  }

  lemma CachedIs(mem: map<nat, Node>, d: Files, ino: nat)
    requires Cached(mem, d) && ino in mem
    ensures ino in d && mem[ino].entry == d[ino]
  {
  }

  // ---- charging for a write ----

  // inode_write succeeds: the range fits, enough blocks are free, and the quota suffices for what it syncs.
  ghost predicate CanWrite(y: Layout, l: Ledger, ctx: nat, ino: nat, e: Entry, st: Store, off: nat, n: nat)
    requires CtxOk(l, ctx) && Formed(e, st.blocks)
  {
    Fitting(e, st, off, n) && Affords(l, ctx, WriteTouch(y, ino, e, st, off, n))
  }

  // The range is one of the file, and the device has the blocks that it takes.
  ghost predicate Fitting(e: Entry, st: Store, off: nat, n: nat) {
    off <= e.num_bytes && off + n <= MAX_BYTES && |st.used| + Growth(e.num_bytes, off + n) <= |st.blocks|
  }

  lemma RangeFits(y: Layout, l: Ledger, ctx: nat, ino: nat, e: Entry, st: Store, off: nat, n: nat)
    requires CtxOk(l, ctx) && Formed(e, st.blocks)
    ensures CanWrite(y, l, ctx, ino, e, st, off, n) ==> off <= e.num_bytes && off + n <= MAX_BYTES
  {
  }

  // The loop, and then the inode block if need be.
  lemma WriteMeans(y: Layout, l: Ledger, ctx: nat, ino: nat, e: Entry, st: Store, off: nat, n: nat)
    requires CtxOk(l, ctx) && Formed(e, st.blocks) && off <= e.num_bytes && off + n <= MAX_BYTES
    ensures CanWrite(y, l, ctx, ino, e, st, off, n)
            <==> Fits(y, e, st, l, ctx, off, n) && Affords(l, ctx, WriteTouch(y, ino, e, st, off, n))
  {
    hide Affords, DataTouch, Growth;
    if Affords(l, ctx, WriteTouch(y, ino, e, st, off, n)) {
      AffordsLess(l, ctx, DataTouch(y, e, st, off, n), WriteTouch(y, ino, e, st, off, n));
    }
  }

  // What the write leaves on the device: the lowest free blocks are marked besides, marked blocks change only where it
  // syncs, and the entry only if the file grows.
  ghost predicate Recorded(y: Layout, ino: nat, d0: Files, st0: Store, off: nat, n: nat, d: Files, st: Store) {
    && ino in d0 && Formed(d0[ino], st0.blocks) && |st.blocks| == |st0.blocks|
    && st.used == st0.used + NewSet(st0.used, Growth(d0[ino].num_bytes, off + n))
    && (forall b :: b in st0.used && b < |st0.blocks| && b !in WriteTouch(y, ino, d0[ino], st0, off, n) ==>
          st.blocks[b] == st0.blocks[b])
    && d == (if off + n <= d0[ino].num_bytes then d0 else if ino in d then d0[ino := d[ino]] else d0)
  }

  lemma RecordedNow(y: Layout, ino: nat, d0: Files, st0: Store, off: nat, n: nat, e: Entry, k: nat, d: Files, st: Store)
    requires ino in d0 && Tracked(d0[ino], st0, off, e, st, k, n) && Touching(y, d0[ino], st0, off, st, n)
    requires ino in d && d == d0[ino := d[ino]] && (off + n <= d0[ino].num_bytes ==> d == d0)
    ensures Recorded(y, ino, d0, st0, off, n, d, st)
  {
    hide DataTouch, Growth, NewSet, MapAt;
  }

  ghost predicate WrittenFor(y: Layout, l: Ledger, ctx: nat, ino: nat, e: Entry, st: Store, off: nat, n: nat,
                             l': Ledger)
    requires CtxOk(l, ctx) && Formed(e, st.blocks)
  {
    Affords(l, ctx, WriteTouch(y, ino, e, st, off, n)) && l' == Charged(l, ctx, WriteTouch(y, ino, e, st, off, n))
  }

  // ---- the loop of inode_write ----

  // The blocks that are free, and the quota, are enough for the loop to write n bytes.
  ghost predicate Fits(y: Layout, e0: Entry, st0: Store, l0: Ledger, ctx: nat, off: nat, n: nat)
    requires Formed(e0, st0.blocks) && CtxOk(l0, ctx)
  {
    |st0.used| + Growth(e0.num_bytes, off + n) <= |st0.blocks| && Affords(l0, ctx, DataTouch(y, e0, st0, off, n))
  }

  // The state of the loop after tot bytes.
  ghost predicate Progress(y: Layout, d0: Files, st0: Store, mem0: map<nat, Node>, l0: Ledger, ctx: nat, ino: nat,
                           off: nat, src: seq<Byte>,
                           mem: map<nat, Node>, st: Store, l: Ledger, n: nat, tot: nat)
  {
    && ino in d0 && ino in mem0 && ino in mem && mem == mem0[ino := Node(mem0[ino].rc, mem[ino].entry)]
    && CtxOk(l0, ctx)
    && Chunked(y, d0, st0, l0, ctx, ino, off, src, mem[ino].entry, st, l, n, tot)
  }

  ghost predicate Chunked(y: Layout, d0: Files, st0: Store, l0: Ledger, ctx: nat, ino: nat, off: nat, src: seq<Byte>,
                          e: Entry, st: Store, l: Ledger, n: nat, tot: nat)
    requires CtxOk(l0, ctx) && ino in d0
  {
    && Writing(d0, st0, ino, off, src, e, st, n, tot) && Tracked(d0[ino], st0, off, e, st, n, tot)
    && Kept(d0[ino], st0, e, st) && Touching(y, d0[ino], st0, off, st, tot)
    && StoreOk(st0) && Dense(d0[ino], st0.blocks, BlocksFor(d0[ino].num_bytes))
    && |st.used| == |st0.used| + Growth(d0[ino].num_bytes, off + tot) && |st.used| <= |st.blocks|
    && |st.blocks| == |st0.blocks|
    && Affords(l0, ctx, DataTouch(y, d0[ino], st0, off, tot))
    && l == Charged(l0, ctx, DataTouch(y, d0[ino], st0, off, tot))
  }

  lemma ProgressStart(y: Layout, d0: Files, st0: Store, mem0: map<nat, Node>, l0: Ledger, ctx: nat, ino: nat, off: nat,
                      src: seq<Byte>)
    requires ino in mem0 && ino in d0 && d0[ino] == mem0[ino].entry && CtxOk(l0, ctx)
    requires Writing(d0, st0, ino, off, src, d0[ino], st0, BlocksFor(d0[ino].num_bytes), 0)
    ensures Progress(y, d0, st0, mem0, l0, ctx, ino, off, src, mem0, st0, l0, BlocksFor(d0[ino].num_bytes), 0)
  {
    hide Bytewise, SameOthers, Disjoint, Tracked, DataTouch, Affords, Charged, Sound;
    assert mem0 == mem0[ino := Node(mem0[ino].rc, mem0[ino].entry)];
    assert FileOk(d0[ino := d0[ino]][ino], st0, BlocksFor(d0[ino].num_bytes));
    FullCount(st0);
    TrackedStart(d0[ino], st0, off);
    assert Touching(y, d0[ino], st0, off, st0, 0);
    ChargeNothing(l0, ctx);
  }

  lemma ProgressEnd(y: Layout, d0: Files, st0: Store, mem0: map<nat, Node>, l0: Ledger, ctx: nat, ino: nat, off: nat,
                    src: seq<Byte>,
                    mem: map<nat, Node>, st: Store, l: Ledger, n: nat)
    requires Progress(y, d0, st0, mem0, l0, ctx, ino, off, src, mem, st, l, n, |src|)
    ensures Formed(d0[ino], st0.blocks) && Fits(y, d0[ino], st0, l0, ctx, off, |src|)
  {
    hide Writing, Growth, NewSet, MapAt, Affords, DataTouch, Charged;
  }

  // A mapping that fails in the loop means that the whole does not fit.
  lemma ChunkFails(y: Layout, d0: Files, st0: Store, l0: Ledger, ctx: nat, ino: nat, off: nat, src: seq<Byte>,
                   e: Entry, st: Store, l: Ledger, n: nat, tot: nat, m: nat, i: nat)
    requires CtxOk(l0, ctx) && ino in d0 && Chunked(y, d0, st0, l0, ctx, ino, off, src, e, st, l, n, tot)
    requires tot + m <= |src| && i < MAX_BLOCKS && Formed(e, st.blocks)
    requires Cost(e, st.blocks, i) == Growth(d0[ino].num_bytes, off + tot + m) - Growth(d0[ino].num_bytes, off + tot)
    requires Growth(d0[ino].num_bytes, off + tot + m) <= Growth(d0[ino].num_bytes, off + |src|)
    ensures Formed(d0[ino], st0.blocks) && CtxOk(l, ctx)
    ensures Fits(y, d0[ino], st0, l0, ctx, off, |src|) ==> CanMap(y, l, ctx, e, st, i)
  {
    hide Writing, Growth, NewSet, MapAt, Affords, DataTouch, MapTouch, Charged, Kept, Dense, Cost, BlocksFor;
    assert Formed(d0[ino], st0.blocks);
    hide Tracked;
    var e0 := d0[ino];
    assert off + tot + m == off + (tot + m);
    MapWithin(y, e0, st0, off, e, st, n, tot, tot + m, i);
    DataMono(y, e0, st0, off, tot, |src|);
    DataMono(y, e0, st0, off, tot + m, |src|);
    if Affords(l0, ctx, DataTouch(y, e0, st0, off, |src|)) {
      AffordsLess(l0, ctx, DataTouch(y, e0, st0, off, tot) + MapTouch(y, e, st, i), DataTouch(y, e0, st0, off, |src|));
      ChargeBoth(l0, ctx, DataTouch(y, e0, st0, off, tot), MapTouch(y, e, st, i));
    }
  }

  // A mapping that succeeds, then the store and its sync.
  lemma ChunkMapped(y: Layout, d0: Files, st0: Store, l0: Ledger, ctx: nat, ino: nat, off: nat, src: seq<Byte>,
                    e: Entry, st: Store, l: Ledger, n: nat,
                    tot: nat, e1: Entry, st1: Store, l1: Ledger, m: nat, i: nat, n1: nat)
    requires CtxOk(l0, ctx) && ino in d0 && Chunked(y, d0, st0, l0, ctx, ino, off, src, e, st, l, n, tot)
    requires CtxOk(l, ctx)
    requires 0 < m <= Room(off + tot) && tot + m <= |src| && i == (off + tot) / BLOCK_SIZE && i < MAX_BLOCKS
    requires Formed(e, st.blocks)
    requires Cost(e, st.blocks, i) == Growth(d0[ino].num_bytes, off + tot + m) - Growth(d0[ino].num_bytes, off + tot)
    requires Mapped(e, st, e1, st1, i) && MappedFor(y, l, ctx, e, st, i, st1, l1)
    requires |st.used| + Cost(e, st.blocks, i) <= |st.blocks|
    requires n1 == BlocksFor(Max(d0[ino].num_bytes, off + (tot + m)))
    ensures MapAt(e1, st1.blocks, i) < |st1.blocks| && CtxOk(l1, ctx) && Formed(d0[ino], st0.blocks)
    ensures var b := MapAt(e1, st1.blocks, i); var st2 := Poked(e1, st1, i, (off + tot) % BLOCK_SIZE,
                                                                src[tot..tot + m]);
            if Affords(l1, ctx, {b})
                then Chunked(y, d0, st0, l0, ctx, ino, off, src, e1, st2, Charged(l1, ctx, {b}), n1, tot + m)
            else !Fits(y, d0[ino], st0, l0, ctx, off, |src|)
  {
    hide Writing, Growth, NewSet, Affords, DataTouch, MapTouch, Charged, Kept, Cost, BlocksFor, Max, Tracked, StoreOk,
         Sound, Touching;
    var e0 := d0[ino];
    WritingDense(d0, st0, ino, off, src, e, st, n, tot);
    WritingStep(d0, st0, ino, off, src, e, st, n, tot, e1, st1, m, i, n1);
    TrackedStep(y, e0, st0, off, e, st, n, tot, m, i, e1, st1);
    WritingSound(d0, st0, ino, off, src, e, st, n, tot);
    MappedCount(e, st, e1, st1, i);
    MappedParts(e, st, e1, st1, i);
    hide Mapped, Dense;
    KeptUsed(e0, st0, e, st);
    TouchingStep(y, e0, st0, off, e, st, tot, e1, st1, m, i, (off + tot) % BLOCK_SIZE, src[tot..tot + m]);
    KeptMapped(e0, st0, e, st, e1, st1, i);
    KeptPoked(e0, st0, e1, st1, i, (off + tot) % BLOCK_SIZE, src[tot..tot + m]);
    TrackedPoked(e0, st0, off, e1, st1, n1, tot + m, i, (off + tot) % BLOCK_SIZE, src[tot..tot + m]);
    ChunkCharge(y, l0, ctx, DataTouch(y, e0, st0, off, tot), MapTouch(y, e, st, i), MapAt(e1, st1.blocks, i));
    DataMono(y, e0, st0, off, tot + m, |src|);
    if Affords(l0, ctx, DataTouch(y, e0, st0, off, |src|)) {
      AffordsLess(l0, ctx, DataTouch(y, e0, st0, off, tot + m), DataTouch(y, e0, st0, off, |src|));
    }
    assert off + tot + m == off + (tot + m);
  }

  lemma KeptUsed(e0: Entry, st0: Store, e: Entry, st: Store)
    requires Kept(e0, st0, e, st)
    ensures st0.used <= st.used
  {
  }

  lemma MappedParts(e: Entry, st: Store, e1: Entry, st1: Store, i: nat)
    requires Mapped(e, st, e1, st1, i)
    ensures StoreOk(st1) && Sound(e1, st1) && MapAt(e1, st1.blocks, i) != 0 && |st1.blocks| == |st.blocks|
  {
  }

  // Three charges, one after the other, are one.
  lemma ChunkCharge(y: Layout, l0: Ledger, ctx: nat, a: set<nat>, t: set<nat>, b: nat)
    requires CtxOk(l0, ctx) && Affords(l0, ctx, a) && Affords(Charged(l0, ctx, a), ctx, t)
    ensures var l1 := Charged(Charged(l0, ctx, a), ctx, t);
            && CtxOk(l1, ctx) && (Affords(l1, ctx, {b}) <==> Affords(l0, ctx, a + (t + {b})))
            && (Affords(l1, ctx, {b}) ==> Charged(l1, ctx, {b}) == Charged(l0, ctx, a + (t + {b})))
  {
    hide Affords, Charged;
    ChargeBoth(l0, ctx, a, t);
    ChargeBoth(l0, ctx, a + t, {b});
    assert a + t + {b} == a + (t + {b});
  }

  // The inode block, if the file grows.
  lemma EndCharge(y: Layout, l0: Ledger, ctx: nat, ino: nat, e0: Entry, st0: Store, off: nat, n: nat, l: Ledger)
    requires CtxOk(l0, ctx) && Formed(e0, st0.blocks) && off <= e0.num_bytes
    requires Affords(l0, ctx, DataTouch(y, e0, st0, off, n)) && l == Charged(l0, ctx, DataTouch(y, e0, st0, off, n))
    ensures CtxOk(l, ctx)
    ensures n > 0 && off + n > e0.num_bytes ==>
              && (Affords(l, ctx, {InodeBlock(y, ino)}) <==> Affords(l0, ctx, WriteTouch(y, ino, e0, st0, off, n)))
              && (Affords(l, ctx, {InodeBlock(y, ino)}) ==>
                    WrittenFor(y, l0, ctx, ino, e0, st0, off, n, Charged(l, ctx, {InodeBlock(y, ino)})))
    ensures !(n > 0 && off + n > e0.num_bytes) ==> WrittenFor(y, l0, ctx, ino, e0, st0, off, n, l)
  {
    hide Affords, Charged, DataTouch;
    ChargeBoth(l0, ctx, DataTouch(y, e0, st0, off, n), {InodeBlock(y, ino)});
    if !(off + n > e0.num_bytes) {
      assert DataTouch(y, e0, st0, off, n) + {} == DataTouch(y, e0, st0, off, n);
    }
  }

  lemma KeptResized(e0: Entry, st0: Store, e: Entry, st: Store, e': Entry)
    requires Kept(e0, st0, e, st) && e' == e.(num_bytes := e'.num_bytes)
    ensures Kept(e0, st0, e', st)
  {
    forall i | 0 <= i < MAX_BLOCKS ensures MapAt(e', st.blocks, i) == MapAt(e, st.blocks, i) {
    }
    forall b ensures Owns(e', st.blocks, b) <==> Owns(e, st.blocks, b) {
    }
  }

  lemma Twice(mem: map<nat, Node>, ino: nat, a: Node, b: Node)
    ensures mem[ino := a][ino := b] == mem[ino := b]
  {
  }

  lemma EndWraps(offset: U64, count: nat, end: nat)
    requires count < WORD && end == (offset + count) % WORD
    ensures end <= MAX_BYTES && offset <= end <==> offset + count <= MAX_BYTES
  {
    if offset + count >= WORD {
      assert end == offset + count - WORD;
    }
  }

  lemma WritingSound(d0: Files, st0: Store, ino: nat, off: nat, src: seq<Byte>, e: Entry, st: Store, n: nat, tot: nat)
    requires Writing(d0, st0, ino, off, src, e, st, n, tot)
    ensures StoreOk(st) && Sound(e, st) && off + |src| <= MAX_BYTES
  {
    assert FileOk(d0[ino := e][ino], st, n);
  }

  lemma WritingDense(d0: Files, st0: Store, ino: nat, off: nat, src: seq<Byte>, e: Entry, st: Store, n: nat, tot: nat)
    requires Writing(d0, st0, ino, off, src, e, st, n, tot)
    ensures ino in d0 && Dense(e, st.blocks, n) && Formed(e, st.blocks) && off + |src| <= MAX_BYTES
    ensures n == BlocksFor(Max(d0[ino].num_bytes, off + tot))
  {
    hide Disjoint, Bytewise, SameOthers;
    assert FileOk(d0[ino := e][ino], st, n);
  }

  lemma CountStep(d0: Files, st0: Store, ino: nat, off: nat, src: seq<Byte>, e: Entry, st: Store, n: nat, tot: nat,
                  m: nat, i: nat)
    requires Writing(d0, st0, ino, off, src, e, st, n, tot) && 0 < m <= Room(off + tot) && tot + m <= |src|
    requires i == (off + tot) / BLOCK_SIZE
    ensures i < MAX_BLOCKS && Formed(e, st.blocks)
    ensures Cost(e, st.blocks, i) == Growth(d0[ino].num_bytes, off + tot + m) - Growth(d0[ino].num_bytes, off + tot)
    ensures Growth(d0[ino].num_bytes, off + tot + m) <= Growth(d0[ino].num_bytes, off + |src|)
  {
    hide Writing, Dense, Cost, BlocksFor, WithIndirect, Max, Room, Formed;
    WritingDense(d0, st0, ino, off, src, e, st, n, tot);
    ChunkIndex(d0[ino].num_bytes, off + tot, n, i, m, off + |src|);
    DenseCost(e, st.blocks, n, i);
    GrowthMono(d0[ino].num_bytes, off + tot + m, off + |src|);
  }

  lemma ChunkIndex(size: nat, at: nat, n: nat, i: nat, m: nat, end: nat)
    requires n == BlocksFor(Max(size, at)) && i == at / BLOCK_SIZE && 0 < m <= Room(at) && at + m <= end <= MAX_BYTES
    ensures i <= n && i < MAX_BLOCKS && BlocksFor(Max(size, at + m)) == if i < n then n else n + 1
  {
    ChunkBlocks(size, at, n, i, m);
  }

  // ---- truncation ----

  // Some blocks of the file were freed, and their bits charged.
  ghost predicate Clearing(y: Layout, l0: Ledger, ctx: nat, e: Entry, st0: Store, st: Store, l: Ledger)
    requires CtxOk(l0, ctx)
  {
    && Formed(e, st0.blocks) && st.blocks == st0.blocks && st.used <= st0.used
    && st0.used - st.used <= Owned(e, st0.blocks)
    && Affords(l0, ctx, BitBlocks(y, st0.used - st.used)) && l == Charged(l0, ctx, BitBlocks(y, st0.used - st.used))
  }

  lemma ClearingCtx(y: Layout, l0: Ledger, ctx: nat, e: Entry, st0: Store, st: Store, l: Ledger)
    requires CtxOk(l0, ctx) && Clearing(y, l0, ctx, e, st0, st, l)
    ensures CtxOk(l, ctx)
  {
  }

  lemma ClearingBlocks(y: Layout, l0: Ledger, ctx: nat, e: Entry, st0: Store, st: Store, l: Ledger)
    requires CtxOk(l0, ctx) && Clearing(y, l0, ctx, e, st0, st, l)
    ensures st.blocks == st0.blocks
  {
  }

  lemma ClearingStart(y: Layout, l0: Ledger, ctx: nat, e: Entry, st0: Store)
    requires CtxOk(l0, ctx) && Formed(e, st0.blocks)
    ensures Clearing(y, l0, ctx, e, st0, st0, l0)
  {
    assert st0.used - st0.used == {} && BitBlocks(y, {}) == {};
    ChargeNothing(l0, ctx);
  }

  lemma ClearingStep(y: Layout, l0: Ledger, ctx: nat, e: Entry, st0: Store, st: Store, l: Ledger, b: nat)
    requires CtxOk(l0, ctx) && Clearing(y, l0, ctx, e, st0, st, l) && CtxOk(l, ctx) && b in st.used
    requires Formed(e, st0.blocks) && b in Owned(e, st0.blocks)
    ensures !Affords(l, ctx, {BitBlock(y, b)}) ==> !Affords(l0, ctx, BitBlocks(y, Owned(e, st0.blocks)))
    ensures Affords(l, ctx, {BitBlock(y, b)}) ==>
              Clearing(y, l0, ctx, e, st0, st.(used := st.used - {b}), Charged(l, ctx, {BitBlock(y, b)}))
  {
    hide Affords, Charged, Owned, BitBlocks;
    var f := st0.used - st.used;
    assert st0.used - (st.used - {b}) == f + {b};
    BitBlocksBoth(y, f, {b});
    BitBlocksOne(y, b);
    ChargeBoth(l0, ctx, BitBlocks(y, f), {BitBlock(y, b)});
    var o := Owned(e, st0.blocks);
    assert f + {b} + o == o;
    BitBlocksBoth(y, f + {b}, o);
    if Affords(l0, ctx, BitBlocks(y, o)) {
      AffordsLess(l0, ctx, BitBlocks(y, f + {b}), BitBlocks(y, o));
    }
  }

  lemma OwnedAt(e: Entry, bs: seq<Block>, i: nat)
    requires Formed(e, bs) && i < MAX_BLOCKS && MapAt(e, bs, i) != 0
    ensures MapAt(e, bs, i) in Owned(e, bs)
  {
  }

  lemma OwnedIndirect(e: Entry, bs: seq<Block>)
    requires Formed(e, bs) && e.indirect != 0
    ensures e.indirect in Owned(e, bs)
  {
  }

  lemma SoundFormed(e: Entry, st: Store)
    requires Sound(e, st)
    ensures Formed(e, st.blocks)
  {
  }

  // All bits, then the inode block.
  lemma ClearCharge(y: Layout, l0: Ledger, ctx: nat, ino: nat, e: Entry, st0: Store)
    requires CtxOk(l0, ctx) && Formed(e, st0.blocks)
    ensures Affords(l0, ctx, ClearTouch(y, ino, e, st0.blocks)) ==> Affords(l0, ctx, BitBlocks(y, Owned(e, st0.blocks)))
  {
    hide Affords;
    if Affords(l0, ctx, ClearTouch(y, ino, e, st0.blocks)) {
      AffordsLess(l0, ctx, BitBlocks(y, Owned(e, st0.blocks)), ClearTouch(y, ino, e, st0.blocks));
    }
  }

  lemma ClearingEnd(y: Layout, l0: Ledger, ctx: nat, ino: nat, e: Entry, st0: Store, st: Store, l: Ledger)
    requires CtxOk(l0, ctx) && Clearing(y, l0, ctx, e, st0, st, l) && Formed(e, st0.blocks) && Sound(e, st0)
    requires AllFreed(e, st0.blocks, st0.used, st.used)
    ensures CtxOk(l, ctx) && st == st0.(used := st.used)
    ensures Affords(l, ctx, {InodeBlock(y, ino)}) <==> Affords(l0, ctx, ClearTouch(y, ino, e, st0.blocks))
    ensures Affords(l, ctx, {InodeBlock(y, ino)}) ==>
              Charged(l, ctx, {InodeBlock(y, ino)}) == Charged(l0, ctx, ClearTouch(y, ino, e, st0.blocks))
  {
    hide Affords, Charged, BitBlocks;
    forall b ensures b in st0.used - st.used <==> b in Owned(e, st0.blocks) {
      OwnedIs(e, st0.blocks, b);
      if Owns(e, st0.blocks, b) {
        OwnedMarked(e, st0, b);
      }
    }
    assert st0.used - st.used == Owned(e, st0.blocks);
    ChargeBoth(l0, ctx, BitBlocks(y, Owned(e, st0.blocks)), {InodeBlock(y, ino)});
  }

  lemma OwnedMarked(e: Entry, st: Store, b: nat)
    requires Sound(e, st) && Owns(e, st.blocks, b)
    ensures b in st.used
  {
  }

  // The inode block a second time costs nothing.
  lemma AgainCharge(y: Layout, l: Ledger, ctx: nat, ino: nat, e: Entry, bs: seq<Block>)
    requires CtxOk(l, ctx) && Formed(e, bs) && Affords(l, ctx, ClearTouch(y, ino, e, bs))
    ensures var l' := Charged(l, ctx, ClearTouch(y, ino, e, bs));
            Affords(l', ctx, {InodeBlock(y, ino)}) && Charged(l', ctx, {InodeBlock(y, ino)}) == l'
  {
    hide Affords, Charged;
    var s := ClearTouch(y, ino, e, bs);
    assert s + {InodeBlock(y, ino)} == s;
    ChargeBoth(l, ctx, s, {InodeBlock(y, ino)});
  }

  lemma ApartEmptied(reserved: set<nat>, d: Files, st: Store, ino: nat, st': Store)
    requires Apart(reserved, d, st) && ino in d && st' == st.(used := st'.used)
    requires AllFreed(d[ino], st.blocks, st.used, st'.used)
    ensures Apart(reserved, d[ino := Emptied(d[ino])], st')
  {
    var e := Emptied(d[ino]);
    assert forall i :: 0 <= i < MAX_BLOCKS && Formed(e, st.blocks) ==> MapAt(e, st.blocks, i) == 0;
  }

  lemma ThriceEmptied(mem: map<nat, Node>, ino: nat, e: Entry, mem': map<nat, Node>)
    requires ino in mem && mem[ino].entry == e
    requires var a := mem[ino := mem[ino].(entry := e.(addrs := seq(NUM_DIRECT, _ => 0)))];
             var b := a[ino := a[ino].(entry := a[ino].entry.(indirect := 0))];
             mem' == b[ino := b[ino].(entry := b[ino].entry.(num_bytes := 0))]
    ensures mem' == mem[ino := mem[ino].(entry := Emptied(e))]
  {
  }

  // Entries that differ in the type only have the same blocks.
  lemma Retyped(reserved: set<nat>, d: Files, st: Store, ino: nat, e': Entry)
    requires Steady(d, st) && ino in d && e' == d[ino].(kind := e'.kind) && Apart(reserved, d, st)
    ensures Steady(d[ino := e'], st) && SameOthers(d, st.blocks, d[ino := e'], st.blocks, ino)
    ensures Apart(reserved, d[ino := e'], st)
  {
    hide Content;
    forall i | 0 <= i < MAX_BLOCKS && Formed(d[ino], st.blocks)
      ensures MapAt(e', st.blocks, i) == MapAt(d[ino], st.blocks, i)
    {
    }
    assert FileOk(d[ino], st, BlocksFor(e'.num_bytes));
    assert FileOk(e', st, BlocksFor(e'.num_bytes));
    assert forall b :: Owns(e', st.blocks, b) <==> Owns(d[ino], st.blocks, b);
    hide MapAt, FileOk;
  }

  // ---- a write that the quota stops ----

  // Ten new blocks in a fresh operation with the usual quota of ten, on a device with room for them: the blocks,
  // their bits and the inode are too many, so that the quota alone stops the write.
  lemma TenBlocksTooMany(y: Layout, l: Ledger, ctx: nat, ino: nat, e: Entry, st: Store)
    requires ctx != NO_CTX && l == Ledger({}, map[ctx := 10]) && Formed(e, st.blocks) && e.num_bytes == 0
    requires StoreOk(st) && |st.used| + 10 <= |st.blocks|
    requires forall b: nat :: b < |st.blocks| ==> BitBlock(y, b) in st.used
    ensures Fitting(e, st, 0, 5120) && !Affords(l, ctx, WriteTouch(y, ino, e, st, 0, 5120))
    ensures !CanWrite(y, l, ctx, ino, e, st, 0, 5120)
  {
    hide NewSet, Growth, Lowest, OldData, BitBlocks, StoreOk;
    var taken, b := NewSet(st.used, 10), Lowest(st.used);
    TenNew();
    BelowUsed(st.used, b);
    hide IsLowest;
    NewFree(st.used, 10);
    LowestBits(y, st.used, taken);
    var t := WriteTouch(y, ino, e, st, 0, 5120);
    assert taken + {BitBlock(y, b)} <= t && t - {} == t;
    Counting.Larger(taken + {BitBlock(y, b)}, t);
    assert |taken + {BitBlock(y, b)}| == 11;
  }

  // Such a write: of 22 blocks only block 0, that of the inodes and that of the bitmap are marked.
  lemma TenBlocksInput()
    ensures var st, e := Store(seq(22, _ => Zero()), {0, 1, 2}), Entry(2, 0, 0, 1, 0, seq(NUM_DIRECT, _ => 0), 0);
            && StoreOk(st) && Formed(e, st.blocks) && Fitting(e, st, 0, 5120)
            && !CanWrite(Layout(1, 2), Ledger({}, map[1 := 10]), 1, 1, e, st, 0, 5120)
  {
    hide Growth, WriteTouch;
    var st, e := Store(seq(22, _ => Zero()), {0, 1, 2}), Entry(2, 0, 0, 1, 0, seq(NUM_DIRECT, _ => 0), 0);
    assert |st.used| == 3;
    TenBlocksTooMany(Layout(1, 2), Ledger({}, map[1 := 10]), 1, 1, e, st);
  }

  lemma TenNew()
    ensures Growth(0, 5120) == 10
  {
  }

  lemma LowestBits(y: Layout, used: set<nat>, s: set<nat>)
    requires s == NewSet(used, 10) && BitBlock(y, Lowest(used)) in used
    ensures Lowest(used) in s && BitBlock(y, Lowest(used)) in BitBlocks(y, s)
  {
  }
}
