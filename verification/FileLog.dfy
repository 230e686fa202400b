/** Files over the logged cache (src/fs/inode.c, src/fs/cache.c): what a disk says about the files, the write of a file
    as a transaction, and what a crash leaves of it. */
module FileLog {
  import opened Basics
  import opened Bytes
  import opened LogSpec
  import opened BlockMap
  import opened Counting
  import opened FreeBlocks
  import opened Quota
  import opened FileQuota
  import opened FileImage
  import BlockCache
  import LogRun
  import Inode
  import InodeDisk
  import Bitmap

  // ---- one block, through the cache ----

  // Nobody holds a block.
  ghost predicate AtRest(blk: BlockCache.Blocks) { forall p :: p in blk ==> !blk[p].acquired }

  // What the clients of the cache see.
  ghost function Views(blk: BlockCache.Blocks, disk: Disk): Disk {
    seq(|disk|, b requires 0 <= b < |disk| => BlockCache.View(blk, disk, b))
  }

  lemma ViewsBut(blk: BlockCache.Blocks, disk: Disk, blk': BlockCache.Blocks, b: nat, data: Block)
    requires BlockCache.SameViewsBut(blk, disk, blk', disk, b) && b < |disk| && BlockCache.View(blk', disk, b) == data
    ensures Views(blk', disk) == Views(blk, disk)[b := data]
  {
  }

  lemma ViewsSame(blk: BlockCache.Blocks, disk: Disk, blk': BlockCache.Blocks)
    requires BlockCache.SameViews(blk, disk, blk', disk)
    ensures Views(blk', disk) == Views(blk, disk)
  {
  }

  // A block of a write: acquired, changed, synced and released.
  method PutBlock(m: LogRun.Machine, ctx: nat, y: Layout, ino: nat, e: Entry, st: Store, b: nat)
    requires m.Valid() && AtRest(m.cache.blk) && ctx != NO_CTX && ctx in m.cache.log.rm && |m.cache.disk| <= WORD
    requires b < |m.cache.disk| == |st.blocks| && |e.addrs| == NUM_DIRECT
    requires !InLog(m.cache.start, b) && CanSync(m.cache.Charges(), ctx, b)
    modifies m.cache
    ensures m.Valid() && AtRest(m.cache.blk) && m.cache.disk == old(m.cache.disk) && m.cache.trace == old(m.cache.trace)
    ensures var v := old(Views(m.cache.blk, m.cache.disk));
            Views(m.cache.blk, m.cache.disk) == v[b := NewData(v[b], y, ino, e, st, b)]
    ensures m.cache.Charges() == Synced(old(m.cache.Charges()), ctx, b)
  {
    hide LogRun.RunOk, BlockCache.Ready, BlockCache.Good, BlockCache.Accounts, BlockCache.View, NewData;
    hide BlockCache.SameViews, BlockCache.SameViewsBut, BlockCache.PinnedAt;
    var c := m.cache;
    ghost var blk0, disk := c.blk, c.disk;
    var p := c.Acquire(b);
    ViewsSame(blk0, disk, c.blk);
    ghost var blk1 := c.blk;
    var data := NewData(c.blk[p].data, y, ino, e, st, b);
    c.Store(p, data);
    ViewsBut(blk1, disk, c.blk, b, data);
    ghost var blk2 := c.blk;
    var r := c.Sync(ctx, p);
    ViewsSame(blk2, disk, c.blk);
    PinnedNow(blk2, c.blk, p);
    ghost var blk3 := c.blk;
    c.Release(p);
    ViewsSame(blk3, disk, c.blk);
  }

  lemma PinnedNow(blk: BlockCache.Blocks, blk': BlockCache.Blocks, p: Ptr)
    requires BlockCache.PinnedAt(blk, blk', p)
    ensures p in blk && blk' == blk[p := blk[p].(pinned := true)]
  {
  }

  // ---- several blocks ----

  // The blocks of a write, in some order.
  method PutAll(m: LogRun.Machine, ctx: nat, y: Layout, ino: nat, e: Entry, st: Store, order: seq<nat>)
    requires m.Valid() && AtRest(m.cache.blk) && ctx != NO_CTX && ctx in m.cache.log.rm && |m.cache.disk| <= WORD
    requires |m.cache.disk| == |st.blocks| && |e.addrs| == NUM_DIRECT && Distinct(order)
    requires forall b :: b in order ==> b < |st.blocks| && !InLog(m.cache.start, b)
    requires Affords(m.cache.Charges(), ctx, Values(order))
    modifies m.cache
    ensures m.Valid() && AtRest(m.cache.blk) && m.cache.disk == old(m.cache.disk) && m.cache.trace == old(m.cache.trace)
    ensures Updated(old(Views(m.cache.blk, m.cache.disk)), y, ino, e, st, Values(order),
                    Views(m.cache.blk, m.cache.disk))
    ensures m.cache.Charges() == Charged(old(m.cache.Charges()), ctx, Values(order))
  {
    hide LogRun.RunOk, BlockCache.Ready, BlockCache.Good, BlockCache.Accounts, AtRest, Affords, Charged, Values,
         NewData;
    ghost var l0, v0 := m.cache.Charges(), Views(m.cache.blk, m.cache.disk);
    var k := 0;
    NoneYet(l0, ctx, order);
    while k < |order|
      invariant 0 <= k <= |order| && m.Valid() && AtRest(m.cache.blk) && ctx in m.cache.log.rm
      invariant m.cache.disk == old(m.cache.disk) && m.cache.trace == old(m.cache.trace)
      invariant Updated(v0, y, ino, e, st, Values(order[..k]), Views(m.cache.blk, m.cache.disk))
      invariant Affords(l0, ctx, Values(order[..k])) && m.cache.Charges() == Charged(l0, ctx, Values(order[..k]))
    {
      hide Updated;
      ghost var v := Views(m.cache.blk, m.cache.disk);
      assert order[k] in order;
      NextCharge(l0, ctx, order, k);
      PutBlock(m, ctx, y, ino, e, st, order[k]);
      NextUpdated(v0, y, ino, e, st, order, k, v);
      k := k + 1;
    }
    assert order[..k] == order;
  }

  lemma NoneYet(l: Ledger, ctx: nat, order: seq<nat>)
    requires CtxOk(l, ctx)
    ensures Values(order[..0]) == {} && Affords(l, ctx, {}) && Charged(l, ctx, {}) == l
  {
    ChargeNothing(l, ctx);
  }

  lemma NextCharge(l: Ledger, ctx: nat, order: seq<nat>, k: nat)
    requires CtxOk(l, ctx) && k < |order| && Affords(l, ctx, Values(order)) && Affords(l, ctx, Values(order[..k]))
    ensures Affords(l, ctx, Values(order[..k + 1]))
    ensures var l' := Charged(l, ctx, Values(order[..k]));
            CanSync(l', ctx, order[k]) && Synced(l', ctx, order[k]) == Charged(l, ctx, Values(order[..k + 1]))
  {
    hide Affords, Charged;
    var s, b := Values(order[..k]), order[k];
    NextValue(order, k);
    AffordsLess(l, ctx, s + {b}, Values(order));
    ChargeBoth(l, ctx, s, {b});
    ChargeOne(Charged(l, ctx, s), ctx, b);
  }

  lemma NextValue(order: seq<nat>, k: nat)
    requires k < |order|
    ensures Values(order[..k + 1]) == Values(order[..k]) + {order[k]} && Values(order[..k + 1]) <= Values(order)
  {
    assert order[..k + 1] == order[..k] + [order[k]];
  }

  lemma NextUpdated(v0: Disk, y: Layout, ino: nat, e: Entry, st: Store, order: seq<nat>, k: nat, v: Disk)
    requires k < |order| && Distinct(order) && order[k] < |v0| == |st.blocks| && |e.addrs| == NUM_DIRECT
    requires Updated(v0, y, ino, e, st, Values(order[..k]), v)
    ensures order[k] < |v|
    ensures Updated(v0, y, ino, e, st, Values(order[..k + 1]),
                    v[order[k] := NewData(v[order[k]], y, ino, e, st, order[k])])
  {
    hide NewData;
    NextValue(order, k);
    assert order[k] !in order[..k];
  }

  // ---- a mounted file system ----

  // The files at some time.
  datatype Snap = Snap(st: Store, files: Files)

  // The disk holds them, and they are in order.
  ghost predicate Holds(d: Disk, y: Layout, reserved: set<nat>, inodes: nat, x: Snap) {
    Rep(d, y, reserved, inodes, x.st, x.files) && Steady(x.files, x.st) && Apart(reserved, x.files, x.st)
  }

  lemma HoldsHome(d: Disk, d': Disk, start: nat, y: Layout, reserved: set<nat>, inodes: nat, x: Snap)
    requires Planned(y, start, |d|, inodes, reserved) && SameHome(d', d, start) && Holds(d, y, reserved, inodes, x)
    ensures Holds(d', y, reserved, inodes, x)
  {
    hide Planned, Rep, Steady, Apart, SameHome;
    RepHome(d, d', start, y, reserved, inodes, x.st, x.files);
  }

  // Every commit of the run has the files that it left.
  ghost predicate SavedOk(points: seq<LogRun.Point>, saved: seq<Snap>, size: nat, y: Layout, reserved: set<nat>,
                          inodes: nat) {
    && |saved| == |points|
    && forall i :: 0 <= i < |points| ==>
         |points[i].disk| == size && Holds(points[i].disk, y, reserved, inodes, saved[i])
  }

  /** The file system, the cache with its log, and the files of every commit. */
  class Mount {
    const m: LogRun.Machine
    const fs: Inode.FileSystem
    ghost var saved: seq<Snap>

    // Nobody holds a block, what the cache shows holds the files, and the accounts of the quotas agree.
    ghost predicate Valid()
      reads this, m, m.cache, fs
    {
      && m.Valid() && fs.Valid() && AtRest(m.cache.blk) && |m.cache.disk| <= WORD && NO_CTX !in m.cache.log.rm
      && fs.ledger == m.cache.Charges()
      && Planned(fs.lay, m.cache.start, |m.cache.disk|, fs.num_inodes, fs.reserved)
      && Rep(Views(m.cache.blk, m.cache.disk), fs.lay, fs.reserved, fs.num_inodes, fs.st, fs.disk)
      && SavedOk(m.points, saved, |m.cache.disk|, fs.lay, fs.reserved, fs.num_inodes)
    }

    ghost function Now(): Snap
      reads fs
    {
      Snap(fs.st, fs.disk)
    }

    // A machine that has started, and the files that its disk holds.
    constructor (m: LogRun.Machine, fs: Inode.FileSystem)
      requires m.Valid() && fs.Valid() && AtRest(m.cache.blk) && |m.cache.disk| <= WORD && m.cache.log.rm == map[]
      requires |m.points| == 1 && fs.ledger == Ledger({}, map[])
      requires Planned(fs.lay, m.cache.start, |m.cache.disk|, fs.num_inodes, fs.reserved)
      requires Rep(m.cache.disk, fs.lay, fs.reserved, fs.num_inodes, fs.st, fs.disk)
      ensures Valid() && this.m == m && this.fs == fs && saved == [Snap(fs.st, fs.disk)]
    {
      hide BlockCache.Ready, BlockCache.Good, BlockCache.Accounts, Planned, Rep, Views, LogRun.RunOk, SavedOk;
      hide Steady, Apart, Inode.Cached;
      QuietViews(m.cache);
      LastHolds(m, fs);
      FirstSaved(m.points, |m.cache.disk|, fs.lay, fs.reserved, fs.num_inodes, Snap(fs.st, fs.disk));
      this.m, this.fs, saved := m, fs, [Snap(fs.st, fs.disk)];
    }

    // begin_op.
    method Begin(ctx: nat) returns (granted: bool)
      requires Valid() && ctx != NO_CTX && ctx !in m.cache.log.rm
      modifies m.cache, fs
      ensures Valid() && Now() == old(Now()) && fs.mem == old(fs.mem) && m.cache.trace == old(m.cache.trace)
      ensures granted ==> m.cache.log.rm == old(m.cache.log.rm)[ctx := BlockCache.OP_MAX_NUM_BLOCKS]
      ensures granted ==> fs.ledger == Ledger(old(fs.ledger).logged, m.cache.log.rm)
      ensures (old(m.cache.log.rm) == map[] ==> granted) && |m.cache.disk| == |old(m.cache.disk)|
    {
      hide LogRun.RunOk, BlockCache.Ready, BlockCache.Good, BlockCache.Accounts, Planned, Rep, SavedOk, AtRest, Views;
      hide Steady, Apart, Inode.Cached;
      granted := m.BeginOp(ctx);
      if granted {
        fs.ledger := fs.ledger.(rm := fs.ledger.rm[ctx := BlockCache.OP_MAX_NUM_BLOCKS]);
      }
    }

    // inode_write: the blocks that it syncs, in some order, go through the cache.
    method Write(ctx: nat, ino: nat, src: seq<Byte>, offset: U64, order: seq<nat>) returns (r: Inode.Outcome<nat>)
      requires Valid() && ctx in m.cache.log.rm && ino in fs.mem && ino in fs.disk && |src| < WORD && Distinct(order)
      requires Formed(fs.disk[ino], fs.st.blocks)
      requires Values(order) == WriteTouch(fs.lay, ino, fs.disk[ino], fs.st, offset, |src|)
      modifies m.cache, fs
      ensures CtxOk(old(fs.ledger), ctx) && ino in old(fs.disk) && Formed(old(fs.disk)[ino], old(fs.st).blocks)
      ensures r.Done?
              <==> Inode.CanWrite(fs.lay, old(fs.ledger), ctx, ino, old(fs.disk)[ino], old(fs.st), offset, |src|)
      ensures r.Done? ==> Valid() && ino in fs.disk && fs.disk.Keys == old(fs.disk).Keys
      ensures r.Done? ==> m.cache.log.rm.Keys == old(m.cache.log.rm).Keys && m.cache.trace == old(m.cache.trace)
      ensures r.Done? ==> |m.cache.disk| == |old(m.cache.disk)|
      ensures r.Done? ==> Content(fs.disk[ino], fs.st.blocks)
                          == Splice(Content(old(fs.disk)[ino], old(fs.st).blocks), offset, src)
    {
      hide LogRun.RunOk, BlockCache.Ready, BlockCache.Good, BlockCache.Accounts, Planned, Rep, SavedOk, AtRest, Views;
      hide Steady, Apart, Inode.Cached, Inode.CanWrite, Inode.Recorded, WriteTouch, Content, Splice, SameOthers, Values;
      hide SameBlocks, Inode.WrittenFor, Affords, Charged, Updated;
      ghost var v0, st0, files0, l0 := Views(m.cache.blk, m.cache.disk), fs.st, fs.disk, fs.ledger;
      Inode.CachedIs(fs.mem, fs.disk, ino);
      r := fs.Write(ctx, ino, src, offset);
      if r.Panic? {
        return;
      }
      Inode.CachedIs(fs.mem, fs.disk, ino);
      ViewsLength(m.cache.blk, m.cache.disk);
      WriteReady(m.cache.start, fs.lay, fs.reserved, fs.num_inodes, ino, files0, st0, offset, |src|, fs.disk, fs.st, l0,
                 ctx, fs.ledger, v0);
      OtherKeys(files0, st0.blocks, fs.disk, fs.st.blocks, ino);
      ChargedKeys(l0, ctx, Values(order));
      OrderIn(order, WriteTouch(fs.lay, ino, files0[ino], st0, offset, |src|));
      PutAll(m, ctx, fs.lay, ino, fs.disk[ino], fs.st, order);
      WrittenRep(v0, m.cache.start, fs.lay, fs.reserved, fs.num_inodes, ino, offset, |src|, files0, st0, fs.disk, fs.st,
                 Views(m.cache.blk, m.cache.disk));
    }

    // end_op: the last operation makes the files of now durable.
    method End(ctx: nat) returns (committed: bool)
      requires Valid() && ctx in m.cache.log.rm
      modifies this, m, m.cache, fs
      ensures Valid() && Now() == old(Now()) && fs.mem == old(fs.mem)
      ensures m.cache.log.rm == old(m.cache.log.rm) - {ctx} && (committed <==> m.cache.log.rm == map[])
      ensures old(m.points) <= m.points && |m.points| <= |old(m.points)| + 1
      ensures |old(m.cache.trace)| <= |m.cache.trace| && |m.cache.disk| == |old(m.cache.disk)|
      ensures committed ==> fs.ledger == Ledger({}, map[])
      ensures committed ==>
                m.points != []
                && Holds(m.points[|m.points| - 1].disk, fs.lay, fs.reserved, fs.num_inodes, Now())
    {
      hide LogRun.RunOk, BlockCache.Ready, BlockCache.Good, BlockCache.Accounts, Planned, Rep, SavedOk, AtRest, Views;
      hide Steady, Apart, Inode.Cached, BlockCache.Quiet, BlockCache.HeldBut, BlockCache.SameHomeViews, Holds;
      RestQuiet(m.cache);
      ghost var blk, disk, points := m.cache.blk, m.cache.disk, m.points;
      committed := m.EndOp(ctx);
      StillRest(blk, m.cache.blk);
      RestQuiet(m.cache);
      HomeViews(blk, disk, m.cache.blk, m.cache.disk, m.cache.start);
      ViewsLength(blk, disk);
      SameSize(blk, disk, m.cache.blk, m.cache.disk, m.cache.start);
      RepHome(Views(blk, disk), Views(m.cache.blk, m.cache.disk), m.cache.start, fs.lay, fs.reserved, fs.num_inodes,
              fs.st, fs.disk);
      fs.ledger := Ledger(if committed then {} else fs.ledger.logged, fs.ledger.rm - {ctx});
      if committed {
        QuietViews(m.cache);
        LastHolds(m, fs);
        if m.points != points {
          NextSaved(points, saved, |disk|, fs.lay, fs.reserved, fs.num_inodes, m.points[|points|], Now());
          assert m.points == points + [m.points[|points|]];
          saved := saved + [Now()];
        }
      }
    }

    // A write as an operation of its own: after a crash at any of its block writes, recovered with any interruptions,
    // the disk holds the files of before, with their marks and entries, or those with the bytes in place.
    method DurableWrite(ctx: nat, ino: nat, src: seq<Byte>, offset: U64, order: seq<nat>)
      returns (r: Inode.Outcome<nat>)
      requires Valid() && m.cache.log.rm == map[] && fs.ledger == Ledger({}, map[]) && ctx != NO_CTX
      requires ino in fs.mem && ino in fs.disk && |src| < WORD && Distinct(order) && Formed(fs.disk[ino], fs.st.blocks)
      requires Values(order) == WriteTouch(fs.lay, ino, fs.disk[ino], fs.st, offset, |src|)
      modifies this, m, m.cache, fs
      ensures ino in old(fs.disk) && Formed(old(fs.disk)[ino], old(fs.st).blocks)
      ensures r.Done? <==> Inode.CanWrite(fs.lay, Ledger({}, map[ctx := BlockCache.OP_MAX_NUM_BLOCKS]), ctx, ino,
                                          old(fs.disk)[ino], old(fs.st), offset, |src|)
      ensures r.Done? ==>
                Valid() && m.cache.log.rm == map[] && |old(m.cache.trace)| <= |m.cache.trace| && ino in fs.disk
      ensures r.Done? ==> Content(fs.disk[ino], fs.st.blocks)
                          == Splice(Content(old(fs.disk)[ino], old(fs.st).blocks), offset, src)
      ensures r.Done? ==> forall k, crashes :: |old(m.cache.trace)| <= k <= |m.cache.trace| ==>
                            OldOrNew(After(m, k, crashes), fs.lay, fs.reserved, fs.num_inodes, old(Now()), Now())
      ensures r.Done? ==> forall crashes ::
                            Holds(After(m, |m.cache.trace|, crashes), fs.lay, fs.reserved, fs.num_inodes, Now())
    {
      hide LogRun.RunOk, BlockCache.Ready, BlockCache.Good, BlockCache.Accounts, Planned, Rep, SavedOk, AtRest, Views;
      hide Steady, Apart, Inode.Cached, Holds, Inode.CanWrite, WriteTouch, Content, Splice, Values, OldOrNew, After;
      QuietViews(m.cache);
      LastHolds(m, fs);
      ghost var points, x, n := m.points, Now(), |m.cache.trace|;
      PointsPast(m);
      var granted := Begin(ctx);
      r := Write(ctx, ino, src, offset, order);
      if r.Panic? {
        return;
      }
      var committed := End(ctx);
      LastPoint(m);
      forall k, crashes | n <= k <= |m.cache.trace|
        ensures OldOrNew(After(m, k, crashes), fs.lay, fs.reserved, fs.num_inodes, x, Now())
      {
        EitherWay(m, fs, points, x, k, crashes);
      }
      PointsPast(m);
      forall crashes ensures Holds(After(m, |m.cache.trace|, crashes), fs.lay, fs.reserved, fs.num_inodes, Now()) {
        AtTheEnd(m, fs, |m.cache.trace|, crashes);
      }
    }

    // A crash anywhere in the run, recovered with any interruptions, leaves the files of the last commit.
    lemma CrashFiles(k: nat, crashes: seq<nat>)
      requires Valid() && k <= |m.cache.trace|
      ensures m.points != [] && CommitAt(m.points, k) < |saved|
      ensures Holds(After(m, k, crashes), fs.lay, fs.reserved, fs.num_inodes, saved[CommitAt(m.points, k)])
    {
      hide LogRun.RunOk, BlockCache.Ready, BlockCache.Good, BlockCache.Accounts, Planned, Rep, Holds, Views, AtRest;
      hide Steady, Apart, Inode.Cached, Recovered, Apply, SameHome;
      m.CrashAnywhere(k, crashes);
      LastState(m.points, k);
      HoldsHome(m.points[CommitAt(m.points, k)].disk, After(m, k, crashes), m.cache.start, fs.lay, fs.reserved,
                fs.num_inodes, saved[CommitAt(m.points, k)]);
    }
  }

  // The disk after k writes of the run, recovered.
  ghost function After(m: LogRun.Machine, k: nat, crashes: seq<nat>): Disk
    requires m.Valid() && k <= |m.cache.trace|
    reads m, m.cache
  {
    m.CrashAnywhere(k, crashes);
    Recovered(Apply(m.disk0, m.cache.trace[..k]), m.cache.start, crashes)
  }

  // The last commit among the first k writes.
  ghost function CommitAt(points: seq<LogRun.Point>, k: nat): nat
    requires points != []
  {
    var n := |points| - 1;
    if n == 0 || points[n].at <= k then n else CommitAt(points[..n], k)
  }

  lemma {:induction false} LastState(points: seq<LogRun.Point>, k: nat)
    requires points != []
    ensures CommitAt(points, k) < |points| && LogRun.StateAt(points, k) == points[CommitAt(points, k)].disk
  {
    var n := |points| - 1;
    if !(n == 0 || points[n].at <= k) {
      LastState(points[..n], k);
    }
  }

  ghost predicate OldOrNew(d: Disk, y: Layout, reserved: set<nat>, inodes: nat, old_: Snap, new_: Snap) {
    Holds(d, y, reserved, inodes, old_) || Holds(d, y, reserved, inodes, new_)
  }

  ghost predicate PointsBy(points: seq<LogRun.Point>, n: nat) { forall i :: 0 <= i < |points| ==> points[i].at <= n }

  lemma PointsPast(m: LogRun.Machine)
    requires m.Valid()
    ensures PointsBy(m.points, |m.cache.trace|)
  {
    hide BlockCache.Ready, BlockCache.Good, BlockCache.Accounts, LogRun.CrashOk;
  }

  // With one more commit than points, which were all made by the k-th write.
  lemma EitherWay(m: LogRun.Machine, fs: Inode.FileSystem, points: seq<LogRun.Point>, x: Snap, k: nat,
                  crashes: seq<nat>)
    requires m.Valid() && points != [] && points <= m.points && |m.points| <= |points| + 1 && k <= |m.cache.trace|
    requires PointsBy(points, k) && Planned(fs.lay, m.cache.start, |m.cache.disk|, fs.num_inodes, fs.reserved)
    requires |points[|points| - 1].disk| == |m.cache.disk| == |m.points[|m.points| - 1].disk|
    requires Holds(points[|points| - 1].disk, fs.lay, fs.reserved, fs.num_inodes, x)
    requires Holds(m.points[|m.points| - 1].disk, fs.lay, fs.reserved, fs.num_inodes, Snap(fs.st, fs.disk))
    ensures OldOrNew(After(m, k, crashes), fs.lay, fs.reserved, fs.num_inodes, x, Snap(fs.st, fs.disk))
  {
    hide LogRun.RunOk, BlockCache.Ready, BlockCache.Good, BlockCache.Accounts, Planned, Holds, Recovered, Apply,
         SameHome;
    m.CrashAnywhere(k, crashes);
    var n := |m.points| - 1;
    StateLast(points, k);
    if |m.points| == |points| {
      assert m.points == points;
    } else {
      assert m.points[..n] == points;
    }
    var d := LogRun.StateAt(m.points, k);
    assert d == m.points[n].disk || d == points[|points| - 1].disk;
    if d == m.points[n].disk {
      HoldsHome(d, After(m, k, crashes), m.cache.start, fs.lay, fs.reserved, fs.num_inodes, Snap(fs.st, fs.disk));
    } else {
      HoldsHome(d, After(m, k, crashes), m.cache.start, fs.lay, fs.reserved, fs.num_inodes, x);
    }
  }

  lemma StateLast(points: seq<LogRun.Point>, k: nat)
    requires points != [] && PointsBy(points, k)
    ensures LogRun.StateAt(points, k) == points[|points| - 1].disk
  {
  }

  lemma AtTheEnd(m: LogRun.Machine, fs: Inode.FileSystem, k: nat, crashes: seq<nat>)
    requires m.Valid() && m.points != [] && k <= |m.cache.trace| && PointsBy(m.points, k)
    requires Planned(fs.lay, m.cache.start, |m.cache.disk|, fs.num_inodes, fs.reserved)
    requires |m.cache.disk| == |m.points[|m.points| - 1].disk|
    requires Holds(m.points[|m.points| - 1].disk, fs.lay, fs.reserved, fs.num_inodes, Snap(fs.st, fs.disk))
    ensures Holds(After(m, k, crashes), fs.lay, fs.reserved, fs.num_inodes, Snap(fs.st, fs.disk))
  {
    hide LogRun.RunOk, BlockCache.Ready, BlockCache.Good, BlockCache.Accounts, Planned, Holds, Recovered, Apply,
         SameHome;
    m.CrashAnywhere(k, crashes);
    HoldsHome(m.points[|m.points| - 1].disk, After(m, k, crashes), m.cache.start, fs.lay, fs.reserved, fs.num_inodes,
              Snap(fs.st, fs.disk));
  }

  // Nobody holds a block, so the batch is free to be written.
  lemma RestQuiet(c: BlockCache.Cache)
    requires c.Valid() && AtRest(c.blk)
    ensures WellFormed(c.header) && c.header.num <= LOG_MAX_SIZE && BlockCache.Quiet(c.blk, c.header, c.start)
    ensures c.pins == BlockCache.Homes(c.header)
  {
    hide HeaderOk, Decode, BlockCache.Homes;
  }

  lemma StillRest(blk: BlockCache.Blocks, blk': BlockCache.Blocks)
    requires AtRest(blk) && BlockCache.HeldBut(blk, blk', {})
    ensures AtRest(blk')
  {
  }

  lemma HomeViews(blk: BlockCache.Blocks, disk: Disk, blk': BlockCache.Blocks, disk': Disk, start: nat)
    requires BlockCache.SameHomeViews(blk, disk, blk', disk', start)
    ensures SameHome(Views(blk', disk'), Views(blk, disk), start)
  {
  }

  // Without operations nothing is pinned, and the cache shows the disk.
  lemma QuietViews(c: BlockCache.Cache)
    requires c.Valid() && AtRest(c.blk) && c.log.rm == map[]
    ensures Views(c.blk, c.disk) == c.disk && c.pins == {}
  {
    hide HeaderOk, Decode;
    assert c.header.num == 0 && c.pins == {};
    forall b | 0 <= b < |c.disk| ensures BlockCache.View(c.blk, c.disk, b) == c.disk[b] {
    }
  }

  lemma LastPoint(m: LogRun.Machine)
    requires m.Valid()
    ensures m.points != []
    ensures var p := m.points[|m.points| - 1].disk;
            SameHome(p, m.cache.disk, m.cache.start) && |p| == |m.cache.disk|
  {
    hide BlockCache.Ready, BlockCache.Good, BlockCache.Accounts, LogRun.CrashOk;
  }

  // The last commit holds what the disk holds.
  lemma LastHolds(m: LogRun.Machine, fs: Inode.FileSystem)
    requires m.Valid() && fs.Valid() && Rep(m.cache.disk, fs.lay, fs.reserved, fs.num_inodes, fs.st, fs.disk)
    requires Planned(fs.lay, m.cache.start, |m.cache.disk|, fs.num_inodes, fs.reserved)
    ensures m.points != []
    ensures var p := m.points[|m.points| - 1].disk;
            |p| == |m.cache.disk| && Holds(p, fs.lay, fs.reserved, fs.num_inodes, Snap(fs.st, fs.disk))
  {
    hide BlockCache.Ready, BlockCache.Good, BlockCache.Accounts, Planned, Rep, LogRun.RunOk, Steady, Apart, Holds,
         SameHome;
    LastPoint(m);
    HoldsNow(m.cache.disk, fs);
    HoldsHome(m.cache.disk, m.points[|m.points| - 1].disk, m.cache.start, fs.lay, fs.reserved, fs.num_inodes,
              Snap(fs.st, fs.disk));
  }

  lemma FirstSaved(points: seq<LogRun.Point>, size: nat, y: Layout, reserved: set<nat>, inodes: nat, x: Snap)
    requires |points| == 1 && |points[0].disk| == size && Holds(points[0].disk, y, reserved, inodes, x)
    ensures SavedOk(points, [x], size, y, reserved, inodes)
  {
    hide Holds;
  }

  lemma NextSaved(points: seq<LogRun.Point>, saved: seq<Snap>, size: nat, y: Layout, reserved: set<nat>, inodes: nat,
                  p: LogRun.Point, x: Snap)
    requires SavedOk(points, saved, size, y, reserved, inodes) && |p.disk| == size
    requires Holds(p.disk, y, reserved, inodes, x)
    ensures SavedOk(points + [p], saved + [x], size, y, reserved, inodes)
  {
    hide Holds;
  }

  lemma HoldsNow(d: Disk, fs: Inode.FileSystem)
    requires fs.Valid() && Rep(d, fs.lay, fs.reserved, fs.num_inodes, fs.st, fs.disk)
    ensures Holds(d, fs.lay, fs.reserved, fs.num_inodes, Snap(fs.st, fs.disk))
  {
    hide Rep, Steady, Apart;
  }

  lemma OrderIn(order: seq<nat>, t: set<nat>)
    requires Values(order) == t
    ensures forall b :: b in order ==> b in t
  {
  }

  lemma ViewsLength(blk: BlockCache.Blocks, disk: Disk)
    ensures |Views(blk, disk)| == |disk|
  {
  }

  lemma ChargedKeys(l: Ledger, ctx: nat, s: set<nat>)
    requires CtxOk(l, ctx) && Affords(l, ctx, s)
    ensures Charged(l, ctx, s).rm.Keys == l.rm.Keys
  {
  }

  lemma SameSize(blk: BlockCache.Blocks, disk: Disk, blk': BlockCache.Blocks, disk': Disk, start: nat)
    requires BlockCache.SameHomeViews(blk, disk, blk', disk', start)
    ensures |disk'| == |disk|
  {
  }

  lemma OtherKeys(d: Files, bs: seq<Block>, d': Files, bs': seq<Block>, ino: nat)
    requires SameOthers(d, bs, d', bs', ino)
    ensures d'.Keys == d.Keys
  {
  }

  lemma WriteReady(start: nat, y: Layout, reserved: set<nat>, inodes: nat, ino: nat, files0: Files, st0: Store,
                   off: nat,
                   n: nat, files: Files, st: Store, l0: Ledger, ctx: nat, l: Ledger, v: Disk)
    requires Steady(files0, st0) && Apart(reserved, files0, st0) && ino in files0
    requires Rep(v, y, reserved, inodes, st0, files0)
    requires Planned(y, start, |v|, inodes, reserved) && CtxOk(l0, ctx) && Formed(files0[ino], st0.blocks)
    requires Inode.CanWrite(y, l0, ctx, ino, files0[ino], st0, off, n)
    requires Inode.WrittenFor(y, l0, ctx, ino, files0[ino], st0, off, n, l)
    requires Inode.Recorded(y, ino, files0, st0, off, n, files, st) && Steady(files, st) && ino in files
    ensures var t := WriteTouch(y, ino, files0[ino], st0, off, n);
            && Affords(l0, ctx, t) && l == Charged(l0, ctx, t)
            && forall b :: b in t ==> b < |st.blocks| && !InLog(start, b)
    ensures Inode.Fitting(files0[ino], st0, off, n) && |v| == |st.blocks| && |files[ino].addrs| == NUM_DIRECT
  {
    hide Steady, Apart, Planned, Affords, Charged, WriteTouch, Growth, NewSet, BitAt, EntryAt, StoreOk, Sound, FileOk;
    TouchThere(start, y, reserved, inodes, ino, files0, st0, off, n);
    Inode.ReadOk(files, st, ino);
    Inode.SoundFormed(files[ino], st);
  }

  // ---- a disk to start with ----

  const SIZE: nat := 80

  // An empty file, the blocks up to the bitmap block, and the disk: the log from block 2 on, the inodes in block 66
  // and the bitmap in block 67.
  function EmptyFile(): (e: Entry)
    ensures |e.addrs| == NUM_DIRECT
  {
    Entry(2, 0, 0, 1, 0, seq(NUM_DIRECT, _ => 0), 0)
  }

  function Below(n: nat): (r: set<nat>)
    ensures forall b :: b in r <==> 0 <= b < n
  {
    if n == 0 then {} else Below(n - 1) + {n - 1}
  }

  function Base(): (r: set<nat>)
    ensures forall b :: b in r <==> 0 <= b < 68
  {
    Below(68)
  }

  function FormatBlock(b: nat): Block {
    if b == 2 then Encode(Header(0, seq(LOG_MAX_SIZE, _ => 0)))
    else if b == 66 then InodeDisk.Put(Zero(), 1, EmptyFile())
    else if b == 67 then BitsBlock(Base(), 0)
    else Zero()
  }

  function Formatted(): Disk { seq(SIZE, b requires 0 <= b < SIZE => FormatBlock(b)) }

  // The mounted file system of that disk: there are valid states to begin with.
  method Format() returns (t: Mount)
    ensures t.Valid() && t.m.cache.log.rm == map[] && t.fs.ledger == Ledger({}, map[])
    ensures t.fs.disk == map[1 := EmptyFile()] && t.fs.mem == map[]
  {
    hide HeaderOk, Rep, Planned, Steady, Apart, Inode.Cached, Base, Logical, LogRun.RunOk;
    FormatLog();
    FormatFiles();
    var d, st, files, y := Formatted(), Store(Formatted(), Base()), map[1 := EmptyFile()], Layout(66, 67);
    var m := new LogRun.Machine(d, 2);
    LastPoint(m);
    var fs := new Inode.FileSystem(y, 8, st, files, Ledger({}, map[]), Base());
    RepHome(d, m.cache.disk, 2, y, Base(), 8, st, files);
    t := new Mount(m, fs);
  }

  lemma FormatLog()
    ensures HeaderOk(Formatted(), 2) && Logical(Formatted(), 2) == Formatted()
  {
    HeaderRoundTrip(Header(0, seq(LOG_MAX_SIZE, _ => 0)));
    hide Encode, Decode;
    CleanLogical(Formatted(), 2);
  }

  lemma FormatFiles()
    ensures var d, st, files, y := Formatted(), Store(Formatted(), Base()), map[1 := EmptyFile()], Layout(66, 67);
            && Rep(d, y, Base(), 8, st, files) && Planned(y, 2, SIZE, 8, Base())
            && Steady(files, st) && Apart(Base(), files, st) && Inode.Cached(map[], files)
  {
    hide Rep, Planned, Steady, Apart, Formatted, Base;
    FormatRep();
    FormatPlan();
    FormatSteady(Formatted());
  }

  lemma FormatRep()
    ensures Rep(Formatted(), Layout(66, 67), Base(), 8, Store(Formatted(), Base()), map[1 := EmptyFile()])
  {
    hide Encode, Bitmap.Test, BitsBlock, InodeDisk.Fetch, InodeDisk.Put, Base, EmptyFile;
    var d, y := Formatted(), Layout(66, 67);
    InodeDisk.PutFetch(Zero(), 1, EmptyFile(), 1);
    forall b: nat | b < SIZE ensures BitBlock(y, b) < |d| && (BitAt(d, y, b) <==> b in Base()) {
      assert BitBlock(y, b) == 67 && Bitmap.MapOf(b) == 0;
      BitsBlockAt(Base(), b);
    }
    assert EntryAt(d, y, 1) == EmptyFile();
  }

  lemma FormatPlan()
    ensures Planned(Layout(66, 67), 2, SIZE, 8, Base())
  {
    hide Base;
  }

  lemma FormatSteady(d: Disk)
    requires |d| == SIZE
    ensures var st, files := Store(d, Base()), map[1 := EmptyFile()]; Steady(files, st) && Apart(Base(), files, st)
  {
    hide Base;
    forall i | 0 <= i < MAX_BLOCKS ensures MapAt(EmptyFile(), d, i) == 0 {
    }
    hide MapAt;
  }
}
