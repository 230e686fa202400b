/** Whole runs of the block cache (src/fs/cache.c): a crash anywhere in a run, recovered with any interruptions,
    leaves the home blocks of the last commit whose header was written. */
module LogRun {
  import opened Basics
  import opened LogSpec
  import opened BlockCache

  // A commit: how many writes of the run there were when its header was on disk, and the disk it led to.
  datatype Point = Point(at: nat, disk: Disk)

  // The disk of the last commit among the first k writes.
  ghost function StateAt(points: seq<Point>, k: nat): Disk
    requires points != []
  {
    var n := |points| - 1;
    if n == 0 || points[n].at <= k then points[n].disk else StateAt(points[..n], k)
  }

  // A crash after k of the writes.
  ghost predicate CrashOk(start: nat, disk0: Disk, trace: seq<Write>, points: seq<Point>, k: nat, crashes: seq<nat>)
    requires points != [] && k <= |trace|
  {
    && InRange(trace[..k], |disk0|) && HeaderOk(Apply(disk0, trace[..k]), start)
    && SameHome(Recovered(Apply(disk0, trace[..k]), start, crashes), StateAt(points, k), start)
  }

  // The run so far began with disk0, wrote trace and came to disk.
  ghost predicate RunOk(start: nat, disk0: Disk, trace: seq<Write>, disk: Disk, points: seq<Point>) {
    && points != [] && (forall i :: 0 <= i < |points| ==> points[i].at <= |trace|)
    && InRange(trace, |disk0|) && disk == Apply(disk0, trace) && SameHome(disk, points[|points| - 1].disk, start)
    && forall k: nat, crashes: seq<nat> :: k <= |trace| ==> CrashOk(start, disk0, trace, points, k, crashes)
  }

  lemma HomeTrans(a: Disk, b: Disk, c: Disk, start: nat)
    requires SameHome(a, b, start) && SameHome(b, c, start)
    ensures SameHome(a, c, start)
  {
  }

  // A crash in the recovery at start-up.
  lemma StartCrash(start: nat, disk0: Disk, k: nat, crashes: seq<nat>)
    requires HeaderOk(disk0, start) && k <= |RecoveryWrites(disk0, start)|
    ensures CrashOk(start, disk0, RecoveryWrites(disk0, start), [Point(0, Logical(disk0, start))], k, crashes)
  {
    hide Apply, Recovered, Logical, SameHome, HeaderOk, RecoveryWrites, InRange;
    RecoveryPrefix(disk0, start, k);
    var d := Apply(disk0, RecoveryWrites(disk0, start)[..k]);
    RecoveryConverges(d, start, crashes);
    HomeTrans(Recovered(d, start, crashes), Logical(d, start), Logical(disk0, start), start);
  }

  lemma RunStart(start: nat, disk0: Disk)
    requires HeaderOk(disk0, start)
    ensures var ws := RecoveryWrites(disk0, start);
            && InRange(ws, |disk0|) && SameHome(Apply(disk0, ws), Logical(disk0, start), start)
            && RunOk(start, disk0, ws, Apply(disk0, ws), [Point(0, Logical(disk0, start))])
  {
    hide Apply, Recovered, Logical, SameHome, HeaderOk, RecoveryWrites, InRange, CrashOk;
    var ws, points := RecoveryWrites(disk0, start), [Point(0, Logical(disk0, start))];
    RecoveryPrefix(disk0, start, |ws|);
    assert ws[..|ws|] == ws;
    forall k: nat, crashes: seq<nat> | k <= |ws| ensures CrashOk(start, disk0, ws, points, k, crashes) {
      StartCrash(start, disk0, k, crashes);
    }
  }

  lemma {:induction false} StateLast(points: seq<Point>, k: nat)
    requires points != [] && forall i :: 0 <= i < |points| ==> points[i].at <= k
    ensures StateAt(points, k) == points[|points| - 1].disk
  {
  }

  lemma StateMore(points: seq<Point>, p: Point, k: nat)
    requires points != []
    ensures StateAt(points + [p], k) == if p.at <= k then p.disk else StateAt(points, k)
  {
    assert (points + [p])[..|points|] == points;
  }

  // A crash in the old part of the run.
  lemma CrashBefore(start: nat, disk0: Disk, trace: seq<Write>, points: seq<Point>, ws: seq<Write>, p: Point, k: nat,
                    crashes: seq<nat>)
    requires points != [] && k <= |trace| && k < p.at && CrashOk(start, disk0, trace, points, k, crashes)
    ensures CrashOk(start, disk0, trace + ws, points + [p], k, crashes)
  {
    hide Apply, HeaderOk, Recovered, SameHome, InRange, StateAt;
    assert (trace + ws)[..k] == trace[..k];
    StateMore(points, p, k);
  }

  // A crash among the writes ws of the commit, after i of them.
  lemma CrashWithin(start: nat, disk0: Disk, trace: seq<Write>, disk: Disk, points: seq<Point>, ws: seq<Write>, n: nat,
                    disk': Disk, i: nat, crashes: seq<nat>)
    requires RunOk(start, disk0, trace, disk, points) && i <= |ws| && Survives(disk, ws, n, disk', start, i, crashes)
    ensures CrashOk(start, disk0, trace + ws, points + [Point(|trace| + n + 1, disk')], |trace| + i, crashes)
  {
    hide HeaderOk, Recovered, SameHome, StateAt, CrashOk;
    var k, p := |trace| + i, Point(|trace| + n + 1, disk');
    assert (trace + ws)[..k] == trace + ws[..i];
    ApplyConcat(disk0, trace, ws[..i]);
    hide Apply;
    StateMore(points, p, k);
    StateLast(points, k);
    if i <= n {
      HomeTrans(Recovered(Apply(disk, ws[..i]), start, crashes), disk, points[|points| - 1].disk, start);
    }
    MakeCrash(start, disk0, trace + ws, points + [p], k, crashes);
  }

  lemma MakeCrash(start: nat, disk0: Disk, trace: seq<Write>, points: seq<Point>, k: nat, crashes: seq<nat>)
    requires points != [] && k <= |trace| && InRange(trace[..k], |disk0|) && HeaderOk(Apply(disk0, trace[..k]), start)
    requires SameHome(Recovered(Apply(disk0, trace[..k]), start, crashes), StateAt(points, k), start)
    ensures CrashOk(start, disk0, trace, points, k, crashes)
  {
  }

  // A run with one more commit.
  lemma RunCommit(start: nat, disk0: Disk, trace: seq<Write>, disk: Disk, points: seq<Point>, ws: seq<Write>, n: nat,
                  disk': Disk)
    requires RunOk(start, disk0, trace, disk, points) && n < |ws| && InRange(ws, |disk|) && disk' == Apply(disk, ws)
    requires AllOrNothing(disk, ws, n, disk', start)
    ensures RunOk(start, disk0, trace + ws, disk', points + [Point(|trace| + n + 1, disk')])
  {
    hide Apply, HeaderOk, Recovered, StateAt, CrashOk, Survives;
    var p := Point(|trace| + n + 1, disk');
    ApplyConcat(disk0, trace, ws);
    forall k: nat, crashes: seq<nat> | k <= |trace + ws|
      ensures CrashOk(start, disk0, trace + ws, points + [p], k, crashes)
    {
      if k < |trace| {
        CrashBefore(start, disk0, trace, points, ws, p, k, crashes);
      } else {
        CrashWithin(start, disk0, trace, disk, points, ws, n, disk', k - |trace|, crashes);
      }
    }
    hide InRange;
  }

  /** The cache with the history of its run. */
  class Machine {
    const cache: Cache
    ghost const disk0: Disk
    ghost var points: seq<Point>

    // A crash after any of the writes so far leaves, after recovery, the home blocks of the last commit.
    ghost predicate Valid()
      reads this, cache
    {
      cache.Valid() && RunOk(cache.start, disk0, cache.trace, cache.disk, points)
    }

    // init_bcache.
    constructor (disk0: Disk, start: nat)
      requires HeaderOk(disk0, start)
      ensures Valid() && this.disk0 == disk0 && fresh(cache) && points == [Point(0, Logical(disk0, start))]
      ensures cache.start == start && cache.log.rm == map[] && (forall p :: p in cache.blk ==> !cache.blk[p].acquired)
    {
      hide RunOk, Ready, Good, Accounts, RecoveryWrites, Apply, Logical;
      RunStart(start, disk0);
      cache := new Cache(disk0, start);
      this.disk0, points := disk0, [Point(0, Logical(disk0, start))];
    }

    method BeginOp(ctx: Ctx) returns (granted: bool)
      requires Valid() && ctx !in cache.log.rm
      modifies cache
      ensures Valid() && cache.blk == old(cache.blk) && cache.disk == old(cache.disk) && cache.trace == old(cache.trace)
      ensures cache.pins == old(cache.pins) && (old(cache.log.rm) == map[] ==> granted)
      ensures cache.log.rm == if granted then old(cache.log.rm)[ctx := OP_MAX_NUM_BLOCKS] else old(cache.log.rm)
    {
      hide RunOk, Ready, Good, Accounts;
      granted := cache.BeginOp(ctx);
    }

    method Acquire(block_no: nat) returns (p: Ptr)
      requires Valid() && block_no < |cache.disk| && block_no != cache.start && Free(cache.blk, block_no)
      modifies cache
      ensures Valid() && p in cache.blk && cache.blk[p].block_no == block_no && cache.blk[p].acquired
    {
      hide RunOk, Ready, Good, Accounts;
      p := cache.Acquire(block_no);
    }

    method Release(p: Ptr)
      requires Valid() && p in cache.blk && cache.blk[p].acquired && cache.blk[p].block_no < |cache.disk|
      requires cache.blk[p].pinned || cache.blk[p].data == cache.disk[cache.blk[p].block_no]
      modifies cache
      ensures Valid()
    {
      hide RunOk, Ready, Good, Accounts;
      cache.Release(p);
    }

    method Store(p: Ptr, data: Block)
      requires Valid() && p in cache.blk && cache.blk[p].acquired
      modifies cache
      ensures Valid() && p in cache.blk && cache.blk[p].data == data
    {
      hide RunOk, Ready, Good, Accounts;
      cache.Store(p, data);
    }

    method Sync(ctx: Ctx, p: Ptr) returns (r: SyncResult)
      requires Valid() && ctx in cache.log.rm && p in cache.blk && cache.blk[p].acquired
      requires !InLog(cache.start, cache.blk[p].block_no)
      requires |cache.disk| <= WORD
      modifies cache
      ensures r == Synced ==> Valid()
    {
      hide RunOk, Ready, Good, Accounts;
      r := cache.Sync(ctx, p);
    }

    // The end of an operation: the last one adds a commit to the history, unless it has nothing to write.
    method EndOp(ctx: Ctx) returns (committed: bool)
      requires Valid() && ctx in cache.log.rm
      requires cache.log.outstanding == 1 ==>
                 WellFormed(cache.header) && cache.header.num <= LOG_MAX_SIZE
                   && Quiet(cache.blk, cache.header, cache.start)
      modifies this, cache
      ensures Valid()
      ensures old(points) <= points <= old(points) + [Point(old(|cache.trace|) + old(cache.header.num) + 1, cache.disk)]
      ensures points == old(points) <==> !committed || old(cache.header.num) == 0
      ensures cache.log.rm == old(cache.log.rm) - {ctx} && (committed <==> cache.log.rm == map[])
      ensures HeldBut(old(cache.blk), cache.blk, {}) && old(cache.trace) <= cache.trace
      ensures SameHomeViews(old(cache.blk), old(cache.disk), cache.blk, cache.disk, cache.start)
      ensures !committed ==> cache.blk == old(cache.blk) && cache.disk == old(cache.disk)
      ensures !committed ==> cache.header == old(cache.header) && cache.trace == old(cache.trace)
    {
      hide RunOk, Ready, Good, Accounts, Quiet, BatchDone, SameHomeViews, HeldBut, AllOrNothing, CommitWrites;
      ReadyBatch(cache.blk, cache.disk, cache.pins, cache.start, cache.header);
      ghost var n, trace, disk, h, data := cache.header.num, cache.trace, cache.disk, cache.header,
          Batch(cache.blk, cache.disk, cache.header);
      committed := cache.EndOp(ctx);
      if committed {
        EndCases(cache.start, disk, h, data, cache.disk);
        if n > 0 {
          RunCommit(cache.start, disk0, trace, disk, points, EndWrites(cache.start, h, data), n, cache.disk);
          points := points + [Point(|trace| + n + 1, cache.disk)];
        } else {
          assert cache.trace == trace;
        }
      }
    }

    // The theorem: a crash after any k writes of the run, then any interrupted recoveries.
    lemma CrashAnywhere(k: nat, crashes: seq<nat>)
      requires Valid() && k <= |cache.trace|
      ensures InRange(cache.trace[..k], |disk0|) && HeaderOk(Apply(disk0, cache.trace[..k]), cache.start)
      ensures points != []
      ensures SameHome(Recovered(Apply(disk0, cache.trace[..k]), cache.start, crashes), StateAt(points, k), cache.start)
    {
      assert CrashOk(cache.start, disk0, cache.trace, points, k, crashes);
    }
  }

  lemma EndCases(start: nat, disk: Disk, h: Header, data: seq<Block>, disk': Disk)
    requires BatchOk(disk, start, h, data)
    ensures |data| == h.num && InRange(EndWrites(start, h, data), |disk|)
    ensures h.num > 0 ==> h.num < |EndWrites(start, h, data)|
    ensures h.num == 0 ==> EndWrites(start, h, data) == [] && Apply(disk, EndWrites(start, h, data)) == disk
  {
    CommitInRange(disk, start, h, data);
  }
}
