/** The block cache of src/fs/cache.c: an LRU list of cached blocks with pinning, and the group-commit
    log on top of it. A cached block is known by its address. */
module BlockCache {
  import opened Basics
  import opened LogSpec
  import Quota

  const OP_MAX_NUM_BLOCKS: nat := 10
  const EVICTION_THRESHOLD: nat := 20

  datatype CBlock = CBlock(block_no: nat, acquired: bool, pinned: bool, valid: bool, data: Block)
  type Blocks = map<Ptr, CBlock>

  ghost predicate Cached(blk: Blocks, b: nat) {
    exists p :: p in blk && blk[p].block_no == b
  }

  lemma CachedAt(blk: Blocks, p: Ptr)
    requires p in blk
    ensures Cached(blk, blk[p].block_no)
  {
  }

  // What a reader of block b sees: the cached contents, or else the disk.
  ghost function View(blk: Blocks, disk: Disk, b: nat): Block
    requires b < |disk|
  {
    if Cached(blk, b) then (var p :| p in blk && blk[p].block_no == b; blk[p].data) else disk[b]
  }

  // No block number is cached twice.
  ghost predicate Unique(blk: Blocks) {
    forall p, q :: p in blk && q in blk && blk[p].block_no == blk[q].block_no ==> p == q
  }

  // A block that is neither pinned nor held equals the disk.
  ghost predicate Coherent(blk: Blocks, disk: Disk) {
    forall p :: p in blk ==>
        blk[p].block_no < |disk| && (blk[p].pinned || blk[p].acquired || blk[p].data == disk[blk[p].block_no])
  }

  // The list holds every block once.
  ghost predicate Listed(head: seq<Ptr>, blk: Blocks) {
    Distinct(head) && (forall i :: 0 <= i < |head| ==> head[i] in blk) && (forall p :: p in blk ==> p in head)
  }

  lemma NotCached(head: seq<Ptr>, blk: Blocks, b: nat)
    requires Listed(head, blk) && forall i :: 0 <= i < |head| ==> blk[head[i]].block_no != b
    ensures !Cached(blk, b)
  {
    forall p | p in blk ensures blk[p].block_no != b {
      assert p in head;
    }
  }

  // Exactly the blocks numbered in pins are pinned, and they are all cached.
  ghost predicate Pins(blk: Blocks, pins: set<nat>) {
    (forall p :: p in blk ==> (blk[p].pinned <==> blk[p].block_no in pins))
      && (forall b :: b in pins ==> Cached(blk, b))
  }

  lemma ViewCached(blk: Blocks, disk: Disk, p: Ptr)
    requires Unique(blk) && p in blk && blk[p].block_no < |disk|
    ensures View(blk, disk, blk[p].block_no) == blk[p].data
  {
  }

  lemma Settled(blk: Blocks, disk: Disk, p: Ptr)
    requires Coherent(blk, disk) && p in blk && !blk[p].acquired
    ensures blk[p].block_no < |disk| && (blk[p].pinned || blk[p].data == disk[blk[p].block_no])
  {
  }

  // Loading block b into p, which was unused or held a coherent block, changes nobody's view.
  lemma Loaded(blk: Blocks, blk': Blocks, disk: Disk, p: Ptr, c: CBlock, b: nat)
    requires Unique(blk) && Coherent(blk, disk) && b < |disk|
    requires !Cached(blk, c.block_no) && c.block_no < |disk| && c.data == disk[c.block_no]
    requires blk' == blk[p := c] && (p in blk ==> !blk[p].pinned && !blk[p].acquired)
    ensures View(blk', disk, b) == View(blk, disk, b)
  {
    assert p in blk' && blk'[p].block_no == c.block_no;
    if b == c.block_no {
      assert Cached(blk', b);
    } else if Cached(blk, b) {
      var q :| q in blk && blk[q].block_no == b;
      if q == p {
        assert !Cached(blk', b);
      } else {
        assert q in blk' && blk'[q].block_no == b;
      }
    } else {
      assert !Cached(blk', b);
    }
  }

  // Changing only flags changes nobody's view.
  lemma Flagged(blk: Blocks, blk': Blocks, disk: Disk, b: nat)
    requires Unique(blk) && b < |disk| && blk'.Keys == blk.Keys
    requires forall p :: p in blk ==> blk'[p].block_no == blk[p].block_no && blk'[p].data == blk[p].data
    ensures View(blk', disk, b) == View(blk, disk, b)
  {
    if Cached(blk, b) {
      var q :| q in blk && blk[q].block_no == b;
      assert q in blk' && blk'[q].block_no == b;
    } else {
      assert !Cached(blk', b);
    }
  }

  lemma FlaggedAll(blk: Blocks, blk': Blocks, disk: Disk)
    requires Unique(blk) && blk'.Keys == blk.Keys
    requires forall p :: p in blk ==> blk'[p].block_no == blk[p].block_no && blk'[p].data == blk[p].data
    ensures SameViews(blk, disk, blk', disk)
  {
    forall b | 0 <= b < |disk| ensures View(blk', disk, b) == View(blk, disk, b) {
      Flagged(blk, blk', disk, b);
    }
  }

  // Nobody holds block b.
  ghost predicate Free(blk: Blocks, b: nat) {
    forall p :: p in blk && blk[p].block_no == b ==> !blk[p].acquired
  }

  // What every cache operation keeps.
  ghost predicate Good(head: seq<Ptr>, blk: Blocks, disk: Disk, pins: set<nat>, start: nat, unused: Ptr) {
    && Listed(head, blk) && Unique(blk) && Coherent(blk, disk) && Pins(blk, pins)
    && (forall p :: p in blk ==> p < unused && blk[p].block_no != start)
    && (forall b :: b in pins ==> !InLog(start, b))
  }

  ghost predicate SameViews(blk: Blocks, disk: Disk, blk': Blocks, disk': Disk) {
    |disk'| == |disk| && forall b :: 0 <= b < |disk| ==> View(blk', disk', b) == View(blk, disk, b)
  }

  // The same block numbers with the same pins.
  lemma SameNumbers(blk: Blocks, blk': Blocks, pins: set<nat>)
    requires Unique(blk) && Pins(blk, pins) && blk'.Keys == blk.Keys
    requires forall p :: p in blk ==> blk'[p].block_no == blk[p].block_no && blk'[p].pinned == blk[p].pinned
    ensures Unique(blk') && Pins(blk', pins)
  {
    forall b | b in pins ensures Cached(blk', b) {
      var q :| q in blk && blk[q].block_no == b;
      assert q in blk' && blk'[q].block_no == b;
    }
  }

  // The block is cached: it becomes held.
  lemma HoldOk(head: seq<Ptr>, blk: Blocks, disk: Disk, pins: set<nat>, start: nat, unused: Ptr, p: Ptr)
    requires Good(head, blk, disk, pins, start, unused) && p in blk
    ensures var blk' := blk[p := blk[p].(acquired := true)];
            && Good(head, blk', disk, pins, start, unused) && SameViews(blk, disk, blk', disk)
            && blk'[p].data == View(blk, disk, blk[p].block_no)
  {
    var blk' := blk[p := blk[p].(acquired := true)];
    SameNumbers(blk, blk', pins);
    FlaggedAll(blk, blk', disk);
    ViewCached(blk, disk, p);
  }

  // The block is not cached: it is read from disk into p, a new block or an evicted one.
  lemma LoadOk(head: seq<Ptr>, blk: Blocks, disk: Disk, pins: set<nat>, start: nat, unused: Ptr, p: Ptr, c: CBlock,
               head': seq<Ptr>, unused': Ptr)
    requires Good(head, blk, disk, pins, start, unused)
    requires !Cached(blk, c.block_no) && c.block_no < |disk| && c.block_no != start && c.data == disk[c.block_no]
    requires c.acquired && !c.pinned
    requires p in blk ==> !blk[p].pinned && !blk[p].acquired && head' == head && unused' == unused
    requires p !in blk ==> p == unused && head' == [p] + head && unused' == unused + 1
    ensures Good(head', blk[p := c], disk, pins, start, unused') && SameViews(blk, disk, blk[p := c], disk)
    ensures View(blk, disk, c.block_no) == disk[c.block_no]
  {
    var blk' := blk[p := c];
    forall b | b in pins ensures Cached(blk', b) {
      var q :| q in blk && blk[q].block_no == b;
      assert q in blk' && blk'[q].block_no == b;
    }
    assert c.block_no !in pins;
    forall b | 0 <= b < |disk| ensures View(blk', disk, b) == View(blk, disk, b) {
      Loaded(blk, blk', disk, p, c, b);
    }
    assert Unique(blk') by {
      forall a, q | a in blk' && q in blk' && blk'[a].block_no == blk'[q].block_no ensures a == q {
        assert a != p && a in blk ==> blk[a].block_no != c.block_no;
        assert q != p && q in blk ==> blk[q].block_no != c.block_no;
      }
    }
    assert forall q :: q in head' <==> q in blk';
  }

  // A coherent or pinned block is let go and becomes the most recently used one.
  lemma ReleaseOk(head: seq<Ptr>, blk: Blocks, disk: Disk, pins: set<nat>, start: nat, unused: Ptr, p: Ptr)
    requires Good(head, blk, disk, pins, start, unused) && p in blk
    requires blk[p].pinned || blk[p].data == disk[blk[p].block_no]
    ensures var blk' := blk[p := blk[p].(acquired := false)];
            Good([p] + Without(head, p), blk', disk, pins, start, unused) && SameViews(blk, disk, blk', disk)
  {
    var blk' := blk[p := blk[p].(acquired := false)];
    WithoutDistinct(head, p);
    SameNumbers(blk, blk', pins);
    FlaggedAll(blk, blk', disk);
    assert forall q :: q in [p] + Without(head, p) <==> q in blk';
  }

  // Views agree except at one block.
  ghost predicate SameViewsBut(blk: Blocks, disk: Disk, blk': Blocks, disk': Disk, x: nat) {
    |disk'| == |disk| && forall b :: 0 <= b < |disk| && b != x ==> View(blk', disk', b) == View(blk, disk, b)
  }

  // The holder changes the contents, and possibly the disk copy with them.
  lemma StoreOk(head: seq<Ptr>, blk: Blocks, disk: Disk, pins: set<nat>, start: nat, unused: Ptr, p: Ptr, data: Block,
                disk': Disk)
    requires Good(head, blk, disk, pins, start, unused) && p in blk && blk[p].acquired
    requires disk' == disk || disk' == disk[blk[p].block_no := data]
    ensures var blk' := blk[p := blk[p].(data := data)];
            && Good(head, blk', disk', pins, start, unused) && SameViewsBut(blk, disk, blk', disk', blk[p].block_no)
            && View(blk', disk', blk[p].block_no) == data
  {
    var blk' := blk[p := blk[p].(data := data)];
    SameNumbers(blk, blk', pins);
    forall b | 0 <= b < |disk| && b != blk[p].block_no ensures View(blk', disk', b) == View(blk, disk, b) {
      if Cached(blk, b) {
        var q :| q in blk && blk[q].block_no == b;
        assert q in blk' && blk'[q].block_no == b;
      } else {
        assert !Cached(blk', b);
      }
    }
    ViewCached(blk', disk', p);
  }

  lemma UnpinPins(blk: Blocks, pins: set<nat>, p: Ptr)
    requires Unique(blk) && Pins(blk, pins) && p in blk
    ensures var blk' := blk[p := blk[p].(pinned := false)];
            Unique(blk') && Pins(blk', pins - {blk[p].block_no})
  {
    var blk' := blk[p := blk[p].(pinned := false)];
    forall b | b in pins - {blk[p].block_no} ensures Cached(blk', b) {
      var q :| q in blk && blk[q].block_no == b;
      assert q in blk' && blk'[q].block_no == b;
    }
  }

  // The block written through is no longer pinned.
  lemma UnpinOk(head: seq<Ptr>, blk: Blocks, disk: Disk, pins: set<nat>, start: nat, unused: Ptr, p: Ptr)
    requires Good(head, blk, disk, pins, start, unused) && p in blk && blk[p].acquired
    ensures var blk' := blk[p := blk[p].(pinned := false)];
            Good(head, blk', disk, pins - {blk[p].block_no}, start, unused) && SameViews(blk, disk, blk', disk)
  {
    hide View, Unique, Pins;
    var blk' := blk[p := blk[p].(pinned := false)];
    UnpinPins(blk, pins, p);
    FlaggedAll(blk, blk', disk);
  }

  // Views agree outside the log.
  ghost predicate SameHomeViews(blk: Blocks, disk: Disk, blk': Blocks, disk': Disk, start: nat) {
    |disk'| == |disk| && forall b :: 0 <= b < |disk| && !InLog(start, b) ==> View(blk', disk', b) == View(blk, disk, b)
  }

  // The home blocks that a header names.
  ghost function Homes(h: Header): set<nat>
    requires WellFormed(h) && h.num <= LOG_MAX_SIZE
  {
    set i | 0 <= i < h.num :: h.block_no[i]
  }

  // The new contents of the batch: what readers see in its home blocks.
  ghost function Batch(blk: Blocks, disk: Disk, h: Header): (data: seq<Block>)
    requires WellFormed(h) && h.num <= LOG_MAX_SIZE && forall i :: 0 <= i < h.num ==> h.block_no[i] < |disk|
    ensures |data| == h.num
  {
    seq(h.num, i requires 0 <= i < h.num => View(blk, disk, h.block_no[i]))
  }

  // Nobody holds a log block or a block of the batch.
  ghost predicate Quiet(blk: Blocks, h: Header, start: nat)
    requires WellFormed(h) && h.num <= LOG_MAX_SIZE
  {
    forall p :: p in blk && blk[p].acquired ==> !InLog(start, blk[p].block_no) && blk[p].block_no !in Homes(h)
  }

  lemma HomeViewsStep(blk: Blocks, disk: Disk, blk1: Blocks, disk1: Disk, blk2: Blocks, disk2: Disk, start: nat,
                      slot: nat)
    requires SameHomeViews(blk, disk, blk1, disk1, start) && SameViewsBut(blk1, disk1, blk2, disk2, slot)
    requires InLog(start, slot)
    ensures SameHomeViews(blk, disk, blk2, disk2, start)
  {
  }

  lemma HeldTrans(blk: Blocks, blk1: Blocks, blk2: Blocks)
    requires HeldBut(blk, blk1, {}) && HeldBut(blk1, blk2, {})
    ensures HeldBut(blk, blk2, {})
  {
  }

  lemma SameStart(blk: Blocks, disk: Disk, start: nat)
    ensures HeldBut(blk, blk, {}) && SameHomeViews(blk, disk, blk, disk, start)
  {
  }

  lemma TraceStep(t: seq<Write>, ws: seq<Write>, k: nat)
    requires k < |ws|
    ensures (t + ws[..k]) + [ws[k]] == t + ws[..k + 1]
  {
  }

  // The home block of entry i, as the batch sees it.
  lemma BatchEntry(blk: Blocks, disk: Disk, blk1: Blocks, disk1: Disk, h: Header, start: nat, i: nat)
    requires WellFormed(h) && h.num <= LOG_MAX_SIZE && (forall j :: 0 <= j < h.num ==> h.block_no[j] < |disk|)
    requires BatchOk(disk, start, h, Batch(blk, disk, h)) && i < h.num && SameHomeViews(blk, disk, blk1, disk1, start)
    ensures h.block_no[i] < |disk1| && !InLog(start, h.block_no[i]) && h.block_no[i] in Homes(h)
    ensures View(blk1, disk1, h.block_no[i]) == Batch(blk, disk, h)[i]
  {
  }

  lemma StillQuiet(blk: Blocks, blk': Blocks, h: Header, start: nat)
    requires WellFormed(h) && h.num <= LOG_MAX_SIZE && Quiet(blk, h, start) && HeldBut(blk, blk', {})
    ensures Quiet(blk', h, start)
  {
  }

  // Whoever holds a block outside s held it before.
  ghost predicate HeldBut(blk: Blocks, blk': Blocks, s: set<Ptr>) {
    forall q :: q in blk' && blk'[q].acquired && q !in s ==>
        q in blk && blk[q].acquired && blk[q].block_no == blk'[q].block_no
  }

  // The first k slots have been written since (blk0, disk0, trace0); nobody's view of a home block changed.
  ghost predicate Logging(blk0: Blocks, disk0: Disk, trace0: seq<Write>, blk: Blocks, disk: Disk, trace: seq<Write>,
                          start: nat, data: seq<Block>, k: nat)
  {
    && HeldBut(blk0, blk, {}) && SameHomeViews(blk0, disk0, blk, disk, start)
    && var ws := SlotWrites(start, data);
       k <= |ws| && InRange(ws, |disk0|) && trace == trace0 + ws[..k] && disk == Apply(disk0, ws[..k])
  }

  lemma LoggingStart(blk: Blocks, disk: Disk, trace: seq<Write>, start: nat, h: Header, data: seq<Block>)
    requires BatchOk(disk, start, h, data)
    ensures Logging(blk, disk, trace, blk, disk, trace, start, data, 0) && WellFormed(h) && h.num == |data|
    ensures h.num <= LOG_MAX_SIZE
  {
    CommitInRange(disk, start, h, data);
    SameStart(blk, disk, start);
    ApplyStep(disk, SlotWrites(start, data), 0);
  }

  // What the next turn of write_log needs.
  lemma LoggingUse(blk0: Blocks, disk0: Disk, trace0: seq<Write>, blk: Blocks, disk: Disk, trace: seq<Write>,
                   start: nat, h: Header, data: seq<Block>, k: nat)
    requires BatchOk(disk0, start, h, data) && data == Batch(blk0, disk0, h) && Quiet(blk0, h, start) && k < h.num
    requires Logging(blk0, disk0, trace0, blk, disk, trace, start, data, k)
    ensures InLog(start, start + 1 + k) && start + 1 + k < |disk| && Free(blk, start + 1 + k)
    ensures Free(blk, h.block_no[k])
    ensures h.block_no[k] < |disk| && !InLog(start, h.block_no[k]) && View(blk, disk, h.block_no[k]) == data[k]
  {
    hide View;
    BatchEntry(blk0, disk0, blk, disk, h, start, k);
    StillQuiet(blk0, blk, h, start);
  }

  lemma LoggingStep(blk0: Blocks, disk0: Disk, trace0: seq<Write>, blk1: Blocks, disk1: Disk, trace1: seq<Write>,
                    blk2: Blocks, disk2: Disk, trace2: seq<Write>, start: nat, h: Header, data: seq<Block>, k: nat)
    requires k < |data| && BatchOk(disk0, start, h, data)
    requires Logging(blk0, disk0, trace0, blk1, disk1, trace1, start, data, k)
    requires HeldBut(blk1, blk2, {}) && SameViewsBut(blk1, disk1, blk2, disk2, start + 1 + k)
    requires start + 1 + k < |disk1| && disk2 == disk1[start + 1 + k := data[k]]
    requires trace2 == trace1 + [Write(start + 1 + k, data[k])]
    ensures Logging(blk0, disk0, trace0, blk2, disk2, trace2, start, data, k + 1)
  {
    var ws := SlotWrites(start, data);
    assert ws[k] == Write(start + 1 + k, data[k]);
    hide View, Apply, HeldBut, SameHomeViews, SameViewsBut, InRange, BatchOk;
    ApplyStep(disk0, ws, k);
    TraceStep(trace0, ws, k);
    HomeViewsStep(blk0, disk0, blk1, disk1, blk2, disk2, start, start + 1 + k);
    HeldTrans(blk0, blk1, blk2);
  }

  // The first k installs have been made since (blk0, disk0, pins0, trace0); other blocks look as before.
  ghost predicate Installing(blk0: Blocks, disk0: Disk, pins0: set<nat>, trace0: seq<Write>,
                             blk: Blocks, disk: Disk, pins: set<nat>, trace: seq<Write>, start: nat, k: nat)
  {
    && HeaderOk(disk0, start) && HeldBut(blk0, blk, {}) && |disk| == |disk0|
    && var ws := Installs(disk0, start);
    && k <= |ws| && trace == trace0 + ws[..k] && disk == Apply(disk0, ws[..k])
    && (forall b :: 0 <= b < |disk| && !Targets(ws[..k], b) ==> View(blk, disk, b) == View(blk0, disk0, b))
    && (forall b :: b in pins <==> b in pins0 && !Targets(ws[..k], b))
  }

  lemma InstallingStart(blk: Blocks, disk: Disk, pins: set<nat>, trace: seq<Write>, start: nat)
    requires HeaderOk(disk, start)
    ensures Installing(blk, disk, pins, trace, blk, disk, pins, trace, start, 0)
    ensures Decode(disk[start]).num <= LOG_MAX_SIZE
  {
    ApplyStep(disk, Installs(disk, start), 0);
  }

  lemma InstallingUse(blk0: Blocks, disk0: Disk, pins0: set<nat>, trace0: seq<Write>,
                      blk: Blocks, disk: Disk, pins: set<nat>, trace: seq<Write>, start: nat, h: Header, k: nat)
    requires HeaderOk(disk0, start) && h == Decode(disk0[start]) && k < h.num && Quiet(blk0, h, start)
    requires Installing(blk0, disk0, pins0, trace0, blk, disk, pins, trace, start, k)
    ensures InLog(start, start + 1 + k) && start + 1 + k < |disk| && Free(blk, start + 1 + k)
    ensures Free(blk, h.block_no[k])
    ensures h.block_no[k] < |disk| && !InLog(start, h.block_no[k]) && disk[start + 1 + k] == disk0[start + 1 + k]
  {
    hide View, Decode;
    assert h.block_no[k] in Homes(h);
    InstallPrefix(disk0, start, k);
    StillQuiet(blk0, blk, h, start);
  }

  lemma TargetsStep(ws: seq<Write>, k: nat, b: nat)
    requires k < |ws|
    ensures Targets(ws[..k + 1], b) <==> Targets(ws[..k], b) || ws[k].block_no == b
  {
    if Targets(ws[..k + 1], b) && ws[k].block_no != b {
      var i :| 0 <= i < k + 1 && ws[..k + 1][i].block_no == b;
      assert ws[..k][i].block_no == b;
    }
    if Targets(ws[..k], b) {
      var i :| 0 <= i < k && ws[..k][i].block_no == b;
      assert ws[..k + 1][i].block_no == b;
    }
    assert ws[..k + 1][k] == ws[k];
  }

  lemma InstallingStep(blk0: Blocks, disk0: Disk, pins0: set<nat>, trace0: seq<Write>,
                       blk1: Blocks, disk1: Disk, pins1: set<nat>, trace1: seq<Write>,
                       blk2: Blocks, disk2: Disk, pins2: set<nat>, trace2: seq<Write>, start: nat, h: Header, k: nat)
    requires HeaderOk(disk0, start) && h == Decode(disk0[start]) && k < h.num
    requires Installing(blk0, disk0, pins0, trace0, blk1, disk1, pins1, trace1, start, k)
    requires var home, d := h.block_no[k], disk0[start + 1 + k];
             && HeldBut(blk1, blk2, {}) && SameViewsBut(blk1, disk1, blk2, disk2, home) && pins2 == pins1 - {home}
             && home < |disk1| && disk2 == disk1[home := d] && trace2 == trace1 + [Write(home, d)]
    ensures Installing(blk0, disk0, pins0, trace0, blk2, disk2, pins2, trace2, start, k + 1)
  {
    var ws := Installs(disk0, start);
    assert ws[k] == Write(h.block_no[k], disk0[start + 1 + k]);
    hide View, Apply, HeldBut, InRange, Decode, Installs, Targets;
    ApplyStep(disk0, ws, k);
    TraceStep(trace0, ws, k);
    HeldTrans(blk0, blk1, blk2);
    forall b ensures Targets(ws[..k + 1], b) <==> Targets(ws[..k], b) || ws[k].block_no == b {
      TargetsStep(ws, k, b);
    }
  }

  // After write_log and the header write the batch is logged, and nobody's view of a home block changed.
  lemma LoggedState(blk0: Blocks, disk0: Disk, trace0: seq<Write>, blk1: Blocks, disk1: Disk, trace1: seq<Write>,
                    start: nat, h: Header, data: seq<Block>)
    requires BatchOk(disk0, start, h, data) && Logging(blk0, disk0, trace0, blk1, disk1, trace1, start, data, |data|)
    ensures start < |disk1|
    ensures InRange(LoggingWrites(start, h, data), |disk0|)
    ensures var disk2 := disk1[start := Encode(h)];
            && disk2 == Apply(disk0, LoggingWrites(start, h, data))
            && trace1 + [Write(start, Encode(h))] == trace0 + LoggingWrites(start, h, data)
            && HeaderOk(disk2, start) && Decode(disk2[start]) == h && Installs(disk2, start) == HomeWrites(h, data)
            && SameHome(disk2, disk0, start)
  {
    hide View, Apply, HeldBut, SameHomeViews, Decode, Encode, Installs, HeaderOk;
    var ws := SlotWrites(start, data);
    Logged(disk0, start, h, data);
    ApplyStep(disk0, ws, |data|);
    ApplyOne(disk0, ws, Write(start, Encode(h)));
    assert trace0 + (ws + [Write(start, Encode(h))]) == (trace0 + ws) + [Write(start, Encode(h))];
  }

  lemma TraceJoin(t: seq<Write>, a: seq<Write>, b: seq<Write>, w: Write)
    ensures t + (a + (b + [w])) == ((t + a) + b) + [w]
  {
  }

  // The disk and the writes of a whole commit.
  lemma CommitState(disk0: Disk, trace0: seq<Write>, disk2: Disk, trace2: seq<Write>, disk3: Disk, trace3: seq<Write>,
                    start: nat, h: Header, data: seq<Block>)
    requires BatchOk(disk0, start, h, data) && InRange(LoggingWrites(start, h, data), |disk0|)
    requires disk2 == Apply(disk0, LoggingWrites(start, h, data)) && trace2 == trace0 + LoggingWrites(start, h, data)
    requires InRange(HomeWrites(h, data), |disk2|) && disk3 == Apply(disk2, HomeWrites(h, data))
    requires trace3 == trace2 + HomeWrites(h, data)
    ensures InRange(CommitWrites(start, h, data), |disk0|) && start < |disk3|
    ensures var last := Write(start, Encode(Header(0, h.block_no)));
            && disk3[start := last.data] == Apply(disk0, CommitWrites(start, h, data))
            && trace3 + [last] == trace0 + CommitWrites(start, h, data)
  {
    CommitInRange(disk0, start, h, data);
    hide Apply, Encode, InRange, BatchOk, LoggingWrites, HomeWrites;
    var ls, hs, last := LoggingWrites(start, h, data), HomeWrites(h, data), Write(start, Encode(Header(0, h.block_no)));
    ApplyOne(disk2, hs, last);
    ApplyConcat(disk0, ls, hs + [last]);
    TraceJoin(trace0, ls, hs, last);
  }

  // A block that nobody holds and that is not pinned looks as on disk.
  lemma ViewSettled(blk: Blocks, disk: Disk, pins: set<nat>, b: nat)
    requires Unique(blk) && Coherent(blk, disk) && Pins(blk, pins) && b < |disk| && Free(blk, b) && b !in pins
    ensures View(blk, disk, b) == disk[b]
  {
  }

  lemma HomeTargets(h: Header, data: seq<Block>, b: nat)
    requires WellFormed(h) && h.num <= LOG_MAX_SIZE && |data| == h.num
    ensures Targets(HomeWrites(h, data), b) <==> b in Homes(h)
  {
    var ws := HomeWrites(h, data);
    if b in Homes(h) {
      var i :| 0 <= i < h.num && h.block_no[i] == b;
      assert ws[i].block_no == b;
    }
  }

  // After the installs of a commit nothing is pinned, the batch is on disk, and nobody's view of a home block changed.
  lemma InstalledViews(blk0: Blocks, disk0: Disk, disk2: Disk, blk1: Blocks, blk3: Blocks, disk3: Disk, pins3: set<nat>,
                       trace2: seq<Write>, trace3: seq<Write>, start: nat, h: Header, data: seq<Block>, b: nat)
    requires BatchOk(disk0, start, h, data) && data == Batch(blk0, disk0, h) && Quiet(blk0, h, start)
    requires |disk2| == |disk0|
    requires SameHomeViews(blk0, disk0, blk1, disk2, start) && HeldBut(blk0, blk1, {}) && SameHome(disk2, disk0, start)
    requires HeaderOk(disk2, start) && Installs(disk2, start) == HomeWrites(h, data)
    requires Installing(blk1, disk2, Homes(h), trace2, blk3, disk3, pins3, trace3, start, h.num)
    requires Unique(blk3) && Coherent(blk3, disk3) && Pins(blk3, pins3) && b < |disk0| && !InLog(start, b)
    ensures View(blk3, disk3, b) == View(blk0, disk0, b) && b !in pins3 && HeldBut(blk0, blk3, {})
  {
    hide View, Unique, Coherent, Pins, Installs, HeaderOk, Quiet, HeldBut, Apply;
    var ws := HomeWrites(h, data);
    assert ws[..h.num] == ws;
    HomeTargets(h, data, b);
    HeldTrans(blk0, blk1, blk3);
    StillQuiet(blk0, blk3, h, start);
    if b in Homes(h) {
      QuietFree(blk3, h, start, b);
      ViewSettled(blk3, disk3, pins3, b);
      LoggedDone(disk0, disk2, start, h, data);
      var i :| 0 <= i < h.num && h.block_no[i] == b;
      BatchEntry(blk0, disk0, blk0, disk0, h, start, i);
    }
  }

  lemma QuietFree(blk: Blocks, h: Header, start: nat, b: nat)
    requires WellFormed(h) && h.num <= LOG_MAX_SIZE && Quiet(blk, h, start) && (InLog(start, b) || b in Homes(h))
    ensures Free(blk, b)
  {
  }

  // The batch is logged: the header and its slots are on disk, nobody's view of a home block changed.
  ghost predicate Durable(blk0: Blocks, disk0: Disk, trace0: seq<Write>, blk: Blocks, disk: Disk, trace: seq<Write>,
                          start: nat, h: Header, data: seq<Block>)
    requires BatchOk(disk0, start, h, data)
  {
    && HeldBut(blk0, blk, {}) && SameHomeViews(blk0, disk0, blk, disk, start) && SameHome(disk, disk0, start)
    && HeaderOk(disk, start) && Decode(disk[start]) == h && Installs(disk, start) == HomeWrites(h, data)
    && var ws := LoggingWrites(start, h, data);
       InRange(ws, |disk0|) && disk == Apply(disk0, ws) && trace == trace0 + ws
  }

  lemma LoggedDurable(blk0: Blocks, disk0: Disk, trace0: seq<Write>, blk1: Blocks, disk1: Disk, trace1: seq<Write>,
                      disk2: Disk, trace2: seq<Write>,
                      start: nat, h: Header, data: seq<Block>)
    requires BatchOk(disk0, start, h, data) && Logging(blk0, disk0, trace0, blk1, disk1, trace1, start, data, |data|)
    requires start < |disk1| && disk2 == disk1[start := Encode(h)] && trace2 == trace1 + [Write(start, Encode(h))]
    requires SameViewsBut(blk1, disk1, blk1, disk2, start)
    ensures Durable(blk0, disk0, trace0, blk1, disk2, trace2, start, h, data)
  {
    hide View, Apply, HeldBut, SameViewsBut, Encode, Decode, HeaderOk, Installs, BatchOk, SameHome;
    LoggedState(blk0, disk0, trace0, blk1, disk1, trace1, start, h, data);
    HomeViewsStep(blk0, disk0, blk1, disk1, blk1, disk2, start, start);
  }

  // After the installs, all blocks at once.
  lemma InstalledState(blk0: Blocks, disk0: Disk, trace0: seq<Write>, blk2: Blocks, disk2: Disk, trace2: seq<Write>,
                       blk3: Blocks, disk3: Disk, pins3: set<nat>, trace3: seq<Write>, start: nat, h: Header,
                       data: seq<Block>)
    requires BatchOk(disk0, start, h, data) && data == Batch(blk0, disk0, h) && Quiet(blk0, h, start)
    requires Durable(blk0, disk0, trace0, blk2, disk2, trace2, start, h, data)
    requires Installing(blk2, disk2, Homes(h), trace2, blk3, disk3, pins3, trace3, start, h.num)
    requires Unique(blk3) && Coherent(blk3, disk3) && Pins(blk3, pins3)
    ensures SameHomeViews(blk0, disk0, blk3, disk3, start) && pins3 == {} && HeldBut(blk0, blk3, {})
    ensures InRange(CommitWrites(start, h, data), |disk0|) && start < |disk3|
    ensures var last := Write(start, Encode(Header(0, h.block_no)));
            && disk3[start := last.data] == Apply(disk0, CommitWrites(start, h, data))
            && trace3 + [last] == trace0 + CommitWrites(start, h, data)
  {
    assert WellFormed(h) && h.num == |data| <= LOG_MAX_SIZE;
    hide View, Unique, Coherent, Pins, Apply, HeldBut, Encode, Decode, HeaderOk, Installs, SameViewsBut, Quiet,
         BatchOk, SameHome, Homes, Targets, Batch, CommitWrites, LoggingWrites;
    assert HomeWrites(h, data)[..h.num] == HomeWrites(h, data);
    HeldTrans(blk0, blk2, blk3);
    forall b | 0 <= b < |disk0| && !InLog(start, b) ensures View(blk3, disk3, b) == View(blk0, disk0, b) {
      InstalledViews(blk0, disk0, disk2, blk2, blk3, disk3, pins3, trace2, trace3, start, h, data, b);
    }
    forall b ensures b !in pins3 {
      HomeTargets(h, data, b);
    }
    CommitState(disk0, trace0, disk2, trace2, disk3, trace3, start, h, data);
  }

  lemma GoodParts(head: seq<Ptr>, blk: Blocks, disk: Disk, pins: set<nat>, start: nat, unused: Ptr)
    requires Good(head, blk, disk, pins, start, unused)
    ensures Unique(blk) && Coherent(blk, disk) && Pins(blk, pins)
  {
  }

  lemma NothingToDo(h: Header, disk: Disk)
    requires WellFormed(h) && h.num == 0
    ensures Homes(h) == {} && InRange([], |disk|) && Apply(disk, []) == disk && h.(num := 0) == h
  {
  }

  lemma DurableUse(blk0: Blocks, disk0: Disk, trace0: seq<Write>, blk: Blocks, disk: Disk, trace: seq<Write>,
                   start: nat, h: Header, data: seq<Block>)
    requires BatchOk(disk0, start, h, data) && Quiet(blk0, h, start)
    requires Durable(blk0, disk0, trace0, blk, disk, trace, start, h, data)
    ensures Quiet(blk, h, start) && HeaderOk(disk, start) && Decode(disk[start]) == h
  {
    StillQuiet(blk0, blk, h, start);
  }

  // ---- operations ----

  type Ctx = nat
  datatype SyncResult = Synced | QuotaPanic | HeaderOverflow

  // The log space still reserved by the outstanding operations.
  ghost function Sum(rm: map<Ctx, nat>): nat
    decreases |rm|
  {
    if rm == map[] then 0
    else
      var c :| c in rm;
      assert (rm - {c}).Keys == rm.Keys - {c};
      rm[c] + Sum(rm - {c})
  }

  lemma {:induction false} SumRemove(rm: map<Ctx, nat>, c: Ctx)
    requires c in rm
    ensures Sum(rm) == rm[c] + Sum(rm - {c})
    decreases |rm|
  {
    var d :| d in rm && Sum(rm) == rm[d] + Sum(rm - {d});
    if c != d {
      assert (rm - {d}).Keys == rm.Keys - {d} && (rm - {c}).Keys == rm.Keys - {c};
      SumRemove(rm - {d}, c);
      SumRemove(rm - {c}, d);
      assert rm - {d} - {c} == rm - {c} - {d};
    }
  }

  lemma SumUpdate(rm: map<Ctx, nat>, c: Ctx, n: nat)
    ensures Sum(rm[c := n]) == n + Sum(rm - {c})
  {
    SumRemove(rm[c := n], c);
    assert rm[c := n] - {c} == rm - {c};
  }

  lemma SumAbsent(rm: map<Ctx, nat>, c: Ctx)
    requires c !in rm
    ensures rm - {c} == rm
  {
  }

  // struct LOG, with the rm of every outstanding operation's context.
  datatype Log = Log(committing: bool, outstanding: nat, reserved: int, rm: map<Ctx, nat>)

  // Log space: reserved is the sum of what the outstanding operations may still add, everything fits,
  // and nothing is logged when no operation is outstanding.
  ghost predicate Accounts(log: Log, num: nat) {
    log.outstanding == |log.rm| && log.reserved == Sum(log.rm) && num + log.reserved <= LOG_MAX_SIZE
      && (log.outstanding == 0 ==> num == 0)
  }

  lemma AccountsBegin(log: Log, num: nat, c: Ctx, n: nat)
    requires Accounts(log, num) && c !in log.rm && num + log.reserved + n <= LOG_MAX_SIZE
    ensures Accounts(log.(outstanding := log.outstanding + 1, reserved := log.reserved + n, rm := log.rm[c := n]), num)
  {
    SumUpdate(log.rm, c, n);
    SumAbsent(log.rm, c);
    assert log.rm[c := n].Keys == log.rm.Keys + {c};
  }

  lemma AccountsLog(log: Log, num: nat, c: Ctx)
    requires Accounts(log, num) && c in log.rm
    ensures log.rm[c] > 0 ==> num < LOG_MAX_SIZE
    ensures log.rm[c] > 0 ==> Accounts(log.(reserved := log.reserved - 1, rm := log.rm[c := log.rm[c] - 1]), num + 1)
  {
    var rm := log.rm;
    SumRemove(rm, c);
    assert rm.Keys != {};
    if rm[c] > 0 {
      SumUpdate(rm, c, rm[c] - 1);
      assert rm[c := rm[c] - 1].Keys == rm.Keys;
    }
  }

  lemma AccountsEnd(log: Log, num: nat, c: Ctx)
    requires Accounts(log, num) && c in log.rm
    ensures log.outstanding > 0
    ensures var log' := log.(outstanding := log.outstanding - 1, reserved := log.reserved - log.rm[c],
                             rm := log.rm - {c});
            Accounts(log', if log'.outstanding == 0 then 0 else num) && (log'.outstanding == 0 <==> log'.rm == map[])
  {
    var rm := log.rm;
    SumRemove(rm, c);
    assert (rm - {c}).Keys == rm.Keys - {c};
    assert |rm.Keys| == |rm.Keys - {c}| + 1;
  }

  // The in-memory header names distinct home blocks outside the log, and no more than fit.
  ghost predicate HeaderFits(h: Header, size: nat, start: nat) {
    && start + LOG_MAX_SIZE < size && WellFormed(h) && h.num <= LOG_MAX_SIZE
    && (forall i :: 0 <= i < h.num ==> h.block_no[i] < size && !InLog(start, h.block_no[i]))
    && (forall i, j :: 0 <= i < j < h.num ==> h.block_no[i] != h.block_no[j])
  }

  lemma NoPins(head: seq<Ptr>, blk: Blocks, disk: Disk, pins: set<nat>, start: nat, unused: Ptr)
    requires blk == map[] && Good(head, blk, disk, pins, start, unused)
    ensures pins == {}
  {
  }

  lemma QuietEmpty(blk: Blocks, disk: Disk, h: Header, start: nat)
    requires blk == map[] && HeaderOk(disk, start) && h == Decode(disk[start])
    ensures h.num <= LOG_MAX_SIZE && Quiet(blk, h, start) && start < |disk|
  {
  }

  // What holds of the log between calls, besides log space being accounted for: the log on disk is empty
  // and the pinned blocks are those of the in-memory header.
  ghost predicate Ready(disk: Disk, pins: set<nat>, start: nat, h: Header) {
    HeaderFits(h, |disk|, start) && pins == Homes(h) && HeaderOk(disk, start) && Decode(disk[start]).num == 0
  }

  // The header with one more home block.
  function Logging1(h: Header, b: U64): (h': Header)
    requires WellFormed(h) && h.num < LOG_MAX_SIZE
    ensures WellFormed(h') && h'.num == h.num + 1
  {
    Header(h.num + 1, h.block_no[h.num := b])
  }

  lemma AddHome(h: Header, b: U64, size: nat, start: nat)
    requires HeaderFits(h, size, start) && h.num < LOG_MAX_SIZE && b < size && !InLog(start, b) && b !in Homes(h)
    ensures HeaderFits(Logging1(h, b), size, start) && Homes(Logging1(h, b)) == Homes(h) + {b}
  {
    var h' := Logging1(h, b);
    forall x ensures x in Homes(h') <==> x in Homes(h) + {b} {
      if x in Homes(h) {
        var i :| 0 <= i < h.num && h.block_no[i] == x;
        assert h'.block_no[i] == x;
      }
      assert h'.block_no[h.num] == b;
      if x in Homes(h') {
        var i :| 0 <= i < h'.num && h'.block_no[i] == x;
        assert i < h.num ==> h.block_no[i] == x;
      }
    }
    forall i, j | 0 <= i < j < h'.num ensures h'.block_no[i] != h'.block_no[j] {
      assert h.block_no[i] in Homes(h);
    }
  }

  lemma PinPins(blk: Blocks, pins: set<nat>, p: Ptr)
    requires Unique(blk) && Pins(blk, pins) && p in blk
    ensures var blk' := blk[p := blk[p].(pinned := true)];
            Unique(blk') && Pins(blk', pins + {blk[p].block_no})
  {
    var blk' := blk[p := blk[p].(pinned := true)];
    assert p in blk' && blk'[p].block_no == blk[p].block_no;
    forall b | b in pins ensures Cached(blk', b) {
      var q :| q in blk && blk[q].block_no == b;
      assert q in blk' && blk'[q].block_no == b;
    }
    assert Cached(blk', blk[p].block_no);
  }

  // A held block is pinned.
  lemma PinOk(head: seq<Ptr>, blk: Blocks, disk: Disk, pins: set<nat>, start: nat, unused: Ptr, p: Ptr)
    requires Good(head, blk, disk, pins, start, unused) && p in blk && !InLog(start, blk[p].block_no)
    ensures var blk' := blk[p := blk[p].(pinned := true)];
            Good(head, blk', disk, pins + {blk[p].block_no}, start, unused) && SameViews(blk, disk, blk', disk)
  {
    hide View, Unique, Pins;
    var blk' := blk[p := blk[p].(pinned := true)];
    PinPins(blk, pins, p);
    FlaggedAll(blk, blk', disk);
  }

  lemma EmptyGood(disk: Disk, start: nat)
    ensures Good([], map[], disk, {}, start, 0) && Sum(map[]) == 0
  {
  }

  lemma CleanReady(h: Header, disk: Disk, start: nat)
    requires HeaderOk(disk, start) && Decode(disk[start]).num == 0 && WellFormed(h) && h.num == 0
    ensures Ready(disk, {}, start, h) && Accounts(Log(false, 0, 0, map[]), 0)
  {
  }

  // Only the pinned flag of p has been set.
  ghost predicate PinnedAt(blk: Blocks, blk': Blocks, p: Ptr) {
    p in blk && blk' == blk[p := blk[p].(pinned := true)]
  }

  // Synced blocks are already pinned.
  lemma AlreadyPinned(head: seq<Ptr>, blk: Blocks, disk: Disk, pins: set<nat>, start: nat, unused: Ptr, p: Ptr)
    requires Good(head, blk, disk, pins, start, unused) && p in blk && blk[p].block_no in pins
    ensures blk[p].pinned && PinnedAt(blk, blk, p) && SameViews(blk, disk, blk, disk)
  {
  }

  lemma NumberInRange(head: seq<Ptr>, blk: Blocks, disk: Disk, pins: set<nat>, start: nat, unused: Ptr, p: Ptr)
    requires Good(head, blk, disk, pins, start, unused) && p in blk
    ensures blk[p].block_no < |disk|
  {
  }

  // The writes of a commit, whatever the size of the batch.
  function EndWrites(start: nat, h: Header, data: seq<Block>): seq<Write>
    requires WellFormed(h) && |data| <= LOG_MAX_SIZE
  {
    if |data| == 0 then [] else CommitWrites(start, h, data)
  }

  lemma ReadyBatch(blk: Blocks, disk: Disk, pins: set<nat>, start: nat, h: Header)
    requires Ready(disk, pins, start, h)
    ensures BatchOk(disk, start, h, Batch(blk, disk, h)) && pins == Homes(h)
  {
  }

  // What a commit did since (blk0, disk0, trace0).
  ghost predicate Committed(blk0: Blocks, disk0: Disk, trace0: seq<Write>, blk: Blocks, disk: Disk, trace: seq<Write>,
                            start: nat, h: Header, data: seq<Block>)
    requires WellFormed(h) && |data| <= LOG_MAX_SIZE
  {
    && HeldBut(blk0, blk, {}) && SameHomeViews(blk0, disk0, blk, disk, start)
    && var ws := EndWrites(start, h, data);
       InRange(ws, |disk0|) && trace == trace0 + ws && disk == Apply(disk0, ws)
  }

  lemma CommittedBatch(blk0: Blocks, disk0: Disk, trace0: seq<Write>, blk2: Blocks, disk2: Disk, trace2: seq<Write>,
                       blk3: Blocks, disk3: Disk, pins3: set<nat>, trace3: seq<Write>, disk4: Disk, trace4: seq<Write>,
                       start: nat, h: Header, data: seq<Block>)
    requires BatchOk(disk0, start, h, data) && data == Batch(blk0, disk0, h) && Quiet(blk0, h, start) && |data| > 0
    requires Durable(blk0, disk0, trace0, blk2, disk2, trace2, start, h, data)
    requires Installing(blk2, disk2, Homes(h), trace2, blk3, disk3, pins3, trace3, start, h.num)
    requires Unique(blk3) && Coherent(blk3, disk3) && Pins(blk3, pins3)
    requires start < |disk3| && disk4 == disk3[start := Encode(h.(num := 0))]
    requires trace4 == trace3 + [Write(start, Encode(h.(num := 0)))]
    requires SameViewsBut(blk3, disk3, blk3, disk4, start)
    ensures Committed(blk0, disk0, trace0, blk3, disk4, trace4, start, h, data) && pins3 == {}
  {
    assert h.(num := 0) == Header(0, h.block_no) && WellFormed(h) && |data| <= LOG_MAX_SIZE;
    hide Unique, Coherent, Pins, Apply, HeldBut, Encode, Installing, Durable, SameViewsBut, Quiet, BatchOk,
         CommitWrites, InRange, SameHomeViews;
    InstalledState(blk0, disk0, trace0, blk2, disk2, trace2, blk3, disk3, pins3, trace3, start, h, data);
    HomeViewsStep(blk0, disk0, blk3, disk3, blk3, disk4, start, start);
  }

  lemma CommittedNothing(blk: Blocks, disk: Disk, trace: seq<Write>, start: nat, h: Header)
    requires WellFormed(h) && h.num == 0
    ensures Committed(blk, disk, trace, blk, disk, trace, start, h, []) && Homes(h) == {} && h.(num := 0) == h
  {
    SameStart(blk, disk, start);
    NothingToDo(h, disk);
  }

  // A commit takes the disk from one clean state to the next, all or nothing.
  lemma EndState(blk: Blocks, disk: Disk, trace: seq<Write>, pins: set<nat>, blk': Blocks, disk': Disk,
                 trace': seq<Write>, start: nat, h: Header, data: seq<Block>)
    requires Ready(disk, pins, start, h) && BatchOk(disk, start, h, data)
    requires Committed(blk, disk, trace, blk', disk', trace', start, h, data)
    ensures Ready(disk', {}, start, h.(num := 0)) && BatchDone(disk, disk', start, h, data)
    ensures AllOrNothing(disk, EndWrites(start, h, data), h.num, disk', start)
    ensures HeldBut(blk, blk', {}) && SameHomeViews(blk, disk, blk', disk', start)
    ensures trace' == trace + EndWrites(start, h, data)
    ensures InRange(EndWrites(start, h, data), |disk|) && disk' == Apply(disk, EndWrites(start, h, data))
  {
    hide Apply, Decode, AllOrNothing, CommitWrites, HeldBut, SameHomeViews;
    if |data| == 0 {
      ApplyStep(disk, [], 0);
      assert [][..0] == EndWrites(start, h, data);
      IdleAllOrNothing(disk, start);
    } else {
      CommitComplete(disk, start, h, data);
      CommitAllOrNothing(disk, start, h, data);
    }
    CleanReady(h.(num := 0), disk', start);
  }

  lemma InstallingSize(blk0: Blocks, disk0: Disk, pins0: set<nat>, trace0: seq<Write>,
                       blk: Blocks, disk: Disk, pins: set<nat>, trace: seq<Write>, start: nat, k: nat)
    requires Installing(blk0, disk0, pins0, trace0, blk, disk, pins, trace, start, k)
    ensures start < |disk| == |disk0|
  {
  }

  // All these blocks are pinned or held.
  ghost predicate Busy(q: seq<Ptr>, blk: Blocks) {
    forall p :: p in q && p in blk ==> blk[p].pinned || blk[p].acquired
  }

  class Cache {
    const start: nat
    var disk: Disk
    ghost var trace: seq<Write>
    var head: seq<Ptr>
    var blk: Blocks
    ghost var pins: set<nat>
    var unused: Ptr

    var header: Header
    var log: Log

    ghost predicate Valid()
      reads this
    {
      !log.committing && CacheOk() && Ready(disk, pins, start, header) && Accounts(log, header.num)
    }

    ghost predicate CacheOk()
      reads this
    {
      Good(head, blk, disk, pins, start, unused)
    }

    // What the inode layer knows of the log: the blocks logged, and the quotas left.
    ghost function Charges(): Quota.Ledger
      reads this
    {
      Quota.Ledger(pins, log.rm)
    }

    // The search of the list for a block number.
    method FindCached(block_no: nat) returns (i: nat)
      requires Listed(head, blk)
      ensures i <= |head| && (i < |head| ==> blk[head[i]].block_no == block_no)
      ensures i == |head| <==> !Cached(blk, block_no)
    {
      i := 0;
      while i < |head|
        invariant 0 <= i <= |head|
        invariant forall j :: 0 <= j < i ==> blk[head[j]].block_no != block_no
      {
        if blk[head[i]].block_no == block_no {
          CachedAt(blk, head[i]);
          return;
        }
        i := i + 1;
      }
      NotCached(head, blk, block_no);
    }

    // The search from the least recently released end for a block that may be evicted.
    method FindVictim() returns (i: int)
      requires Listed(head, blk)
      ensures -1 <= i < |head|
      ensures 0 <= i ==> !blk[head[i]].pinned && !blk[head[i]].acquired
      ensures forall j :: i < j < |head| ==> blk[head[j]].pinned || blk[head[j]].acquired
    {
      i := |head| - 1;
      while 0 <= i
        invariant -1 <= i < |head|
        invariant forall j :: i < j < |head| ==> blk[head[j]].pinned || blk[head[j]].acquired
      {
        if !blk[head[i]].pinned && !blk[head[i]].acquired {
          return;
        }
        i := i - 1;
      }
    }

    // cache_acquire. The wait for another holder is the guard that block_no is free.
    method Acquire(block_no: nat) returns (p: Ptr)
      requires CacheOk() && block_no < |disk| && block_no != start && Free(blk, block_no)
      modifies this
      ensures disk == old(disk) && trace == old(trace) && pins == old(pins) && header == old(header) && log == old(log)
      ensures CacheOk() && SameViews(old(blk), disk, blk, disk)
      ensures p in blk && blk[p].block_no == block_no && blk[p].acquired
      ensures blk[p].data == View(old(blk), disk, block_no)
      ensures blk.Keys == old(blk).Keys + {p} && forall q :: q in old(blk) && q != p ==> blk[q] == old(blk)[q]
      ensures blk[p].pinned || blk[p].data == disk[block_no]
      ensures p in old(blk) ==> !old(blk)[p].acquired && (old(blk)[p].block_no == block_no || !old(blk)[p].pinned)
      ensures old(|head|) < EVICTION_THRESHOLD
              || (exists q :: q in old(blk) && !old(blk)[q].pinned && !old(blk)[q].acquired) ==>
                |head| <= if old(|head|) < EVICTION_THRESHOLD then EVICTION_THRESHOLD else old(|head|)
      ensures head == if p in old(blk) then old(head) else [p] + old(head)
      ensures p in old(blk) && old(blk)[p].block_no != block_no ==>
                exists v :: 0 <= v < |old(head)| && old(head)[v] == p && Busy(old(head)[v + 1..], old(blk))
      ensures p !in old(blk) ==> old(|head|) < EVICTION_THRESHOLD || Busy(old(head), old(blk))
    {
      hide View, Unique, Coherent, Pins, SameViews;
      var i := FindCached(block_no);
      if i < |head| {
        p := head[i];
        assert blk[p].pinned || blk[p].data == disk[block_no] by { Settled(blk, disk, p); }
        HoldOk(head, blk, disk, pins, start, unused, p);
        blk := blk[p := blk[p].(acquired := true)];
        return;
      }
      if |head| >= EVICTION_THRESHOLD {
        var v := FindVictim();
        if v >= 0 {
          p := head[v];
          var c := CBlock(block_no, true, false, blk[p].valid, disk[block_no]);
          LoadOk(head, blk, disk, pins, start, unused, p, c, head, unused);
          blk := blk[p := c];
          return;
        }
      }
      p := unused;
      var c := CBlock(block_no, true, false, true, disk[block_no]);
      LoadOk(head, blk, disk, pins, start, unused, p, c, [p] + head, unused + 1);
      blk, head, unused := blk[p := c], [p] + head, unused + 1;
    }

    // cache_release. What the block's holder wrote was synced: the block is pinned or equals the disk.
    method Release(p: Ptr)
      requires CacheOk() && p in blk && blk[p].acquired && (blk[p].pinned || blk[p].data == disk[blk[p].block_no])
      modifies this
      ensures disk == old(disk) && trace == old(trace) && pins == old(pins) && header == old(header) && log == old(log)
      ensures CacheOk() && SameViews(old(blk), disk, blk, disk)
      ensures blk == old(blk)[p := old(blk)[p].(acquired := false)] && head == [p] + Without(old(head), p)
    {
      hide View, Unique, Coherent, Pins, SameViews, Listed;
      ReleaseOk(head, blk, disk, pins, start, unused, p);
      blk := blk[p := blk[p].(acquired := false)];
      head := [p] + Without(head, p);
    }

    // The holder of a block writes to its contents.
    method Store(p: Ptr, data: Block)
      requires CacheOk() && p in blk && blk[p].acquired
      modifies this
      ensures disk == old(disk) && trace == old(trace) && pins == old(pins) && header == old(header) && log == old(log)
      ensures CacheOk() && SameViewsBut(old(blk), disk, blk, disk, old(blk)[p].block_no)
      ensures View(blk, disk, old(blk)[p].block_no) == data
      ensures blk == old(blk)[p := old(blk)[p].(data := data)]
    {
      hide View, Unique, Coherent, Pins, SameViewsBut, Listed;
      StoreOk(head, blk, disk, pins, start, unused, p, data, disk);
      blk := blk[p := blk[p].(data := data)];
    }

    // memmove into a held block, then device_write.
    method StoreThrough(p: Ptr, data: Block)
      requires CacheOk() && p in blk && blk[p].acquired && blk[p].block_no < |disk|
      modifies this
      ensures pins == old(pins) && header == old(header) && log == old(log)
      ensures CacheOk() && SameViewsBut(old(blk), old(disk), blk, disk, old(blk)[p].block_no)
      ensures View(blk, disk, old(blk)[p].block_no) == data
      ensures blk == old(blk)[p := old(blk)[p].(data := data)]
      ensures disk == old(disk)[old(blk)[p].block_no := data]
      ensures trace == old(trace) + [Write(old(blk)[p].block_no, data)]
    {
      hide View, Unique, Coherent, Pins, SameViewsBut, Listed;
      StoreOk(head, blk, disk, pins, start, unused, p, data, disk[blk[p].block_no := data]);
      blk := blk[p := blk[p].(data := data)];
      disk := disk[blk[p].block_no := blk[p].data];
      trace := trace + [Write(blk[p].block_no, blk[p].data)];
    }

    // Two blocks are acquired, one after the other.
    method AcquireTwo(a_no: nat, b_no: nat) returns (a: Ptr, b: Ptr)
      requires CacheOk() && a_no < |disk| && b_no < |disk| && a_no != b_no && start !in {a_no, b_no} && Free(blk, a_no)
      requires Free(blk, b_no)
      modifies this
      ensures disk == old(disk) && trace == old(trace) && pins == old(pins) && header == old(header) && log == old(log)
      ensures CacheOk() && SameViews(old(blk), disk, blk, disk) && HeldBut(old(blk), blk, {a, b})
      ensures a != b && a in blk && b in blk && blk[a].acquired && blk[b].acquired && blk[a].block_no == a_no
      ensures blk[b].block_no == b_no
      ensures (blk[a].pinned || blk[a].data == disk[a_no]) && (blk[b].pinned || blk[b].data == disk[b_no])
      ensures blk[a].data == View(old(blk), disk, a_no) && blk[b].data == View(old(blk), disk, b_no)
    {
      hide Unique, Coherent, Listed, View, Pins, Good;
      a := Acquire(a_no);
      assert blk[a].block_no != b_no;
      b := Acquire(b_no);
    }

    // One turn of write_log: the view of block from_no is written to block to_no.
    method WriteSlot(to_no: nat, from_no: nat)
      requires CacheOk() && to_no < |disk| && from_no < |disk| && to_no != from_no && start !in {to_no, from_no}
      requires to_no !in pins && Free(blk, to_no) && Free(blk, from_no)
      modifies this
      ensures pins == old(pins) && header == old(header) && log == old(log)
      ensures CacheOk() && HeldBut(old(blk), blk, {})
      ensures var data := View(old(blk), old(disk), from_no);
              disk == old(disk)[to_no := data] && trace == old(trace) + [Write(to_no, data)]
      ensures SameViewsBut(old(blk), old(disk), blk, disk, to_no)
    {
      hide Unique, Coherent, Listed, View, Pins, Good;
      var to, from := AcquireTwo(to_no, from_no);
      StoreThrough(to, blk[from].data);
      Release(from);
      Release(to);
    }

    // One turn of install_trans: slot from_no is written home to block to_no, which is then unpinned.
    method InstallSlot(from_no: nat, to_no: nat)
      requires CacheOk() && to_no < |disk| && from_no < |disk| && to_no != from_no && start !in {to_no, from_no}
      requires from_no !in pins && Free(blk, to_no) && Free(blk, from_no)
      modifies this
      ensures header == old(header) && log == old(log)
      ensures CacheOk() && HeldBut(old(blk), blk, {}) && pins == old(pins) - {to_no}
      ensures disk == old(disk)[to_no := old(disk)[from_no]] && trace == old(trace) + [Write(to_no, old(disk)[from_no])]
      ensures SameViewsBut(old(blk), old(disk), blk, disk, to_no)
    {
      hide Unique, Coherent, Listed, View, Good;
      var from, to := AcquireTwo(from_no, to_no);
      assert !blk[from].pinned by { NotPinned(from); }
      StoreThrough(to, blk[from].data);
      UnpinOk(head, blk, disk, pins, start, unused, to);
      blk := blk[to := blk[to].(pinned := false)];
      pins := pins - {to_no};
      Release(from);
      Release(to);
    }

    lemma NotPinned(p: Ptr)
      requires CacheOk() && p in blk && blk[p].block_no !in pins
      ensures !blk[p].pinned
    {
    }

    // write_log
    method WriteLog(ghost data: seq<Block>)
      requires CacheOk() && BatchOk(disk, start, header, data) && data == Batch(blk, disk, header)
      requires Quiet(blk, header, start)
      modifies this
      ensures pins == old(pins) && header == old(header) && log == old(log)
      ensures CacheOk() && Logging(old(blk), old(disk), old(trace), blk, disk, trace, start, data, |data|)
    {
      hide Good, View, Apply, HeldBut, Quiet, Batch, InRange, Logging, Free, SameViewsBut, BatchOk;
      LoggingStart(blk, disk, trace, start, header, data);
      var tail := 0;
      while tail < header.num
        invariant header == old(header) && log == old(log) && pins == old(pins)
        invariant 0 <= tail <= header.num && CacheOk()
        invariant Logging(old(blk), old(disk), old(trace), blk, disk, trace, start, data, tail)
      {
        ghost var blk1, disk1, trace1 := blk, disk, trace;
        LoggingUse(old(blk), old(disk), old(trace), blk, disk, trace, start, header, data, tail);
        SlotUnpinned(start + 1 + tail);
        WriteSlot(start + 1 + tail, header.block_no[tail]);
        LoggingStep(old(blk), old(disk), old(trace), blk1, disk1, trace1, blk, disk, trace, start, header, data, tail);
        tail := tail + 1;
      }
    }

    lemma SlotUnpinned(b: nat)
      requires CacheOk() && InLog(start, b)
      ensures b !in pins
    {
    }

    // install_trans; the in-memory header is the one on disk.
    method InstallTrans()
      requires CacheOk() && HeaderOk(disk, start) && header == Decode(disk[start]) && Quiet(blk, header, start)
      modifies this
      ensures header == old(header) && log == old(log)
      ensures CacheOk()
      ensures Installing(old(blk), old(disk), old(pins), old(trace), blk, disk, pins, trace, start, header.num)
    {
      hide Good, View, Apply, HeldBut, Quiet, InRange, Installing, Free, SameViewsBut, HeaderOk, Decode;
      InstallingStart(blk, disk, pins, trace, start);
      var tail := 0;
      while tail < header.num
        invariant header == old(header) && log == old(log)
        invariant 0 <= tail <= header.num && CacheOk()
        invariant Installing(old(blk), old(disk), old(pins), old(trace), blk, disk, pins, trace, start, tail)
      {
        ghost var blk1, disk1, pins1, trace1 := blk, disk, pins, trace;
        InstallingUse(old(blk), old(disk), old(pins), old(trace), blk, disk, pins, trace, start, header, tail);
        SlotUnpinned(start + 1 + tail);
        InstallSlot(start + 1 + tail, header.block_no[tail]);
        InstallingStep(old(blk), old(disk), old(pins), old(trace), blk1, disk1, pins1, trace1, blk, disk, pins, trace,
                       start, header, tail);
        tail := tail + 1;
      }
    }

    // write_header
    method WriteHeader()
      requires CacheOk() && start < |disk| && WellFormed(header)
      modifies this
      ensures blk == old(blk) && pins == old(pins) && header == old(header) && log == old(log)
      ensures CacheOk() && disk == old(disk)[start := Encode(header)]
      ensures trace == old(trace) + [Write(start, Encode(header))]
      ensures SameViewsBut(blk, old(disk), blk, disk, start)
    {
      disk := disk[start := Encode(header)];
      trace := trace + [Write(start, Encode(header))];
    }

    // The first half of commit: the slots, then the header.
    method LogBatch(ghost data: seq<Block>)
      requires CacheOk() && BatchOk(disk, start, header, data) && data == Batch(blk, disk, header)
      requires Quiet(blk, header, start)
      modifies this
      ensures pins == old(pins) && header == old(header) && log == old(log)
      ensures CacheOk() && Durable(old(blk), old(disk), old(trace), blk, disk, trace, start, header, data)
    {
      assert WellFormed(header) && start < |disk|;
      hide Good, View, Apply, HeldBut, Quiet, InRange, Logging, Durable, SameViewsBut, Encode, BatchOk, Batch;
      WriteLog(data);
      ghost var disk1, trace1 := disk, trace;
      LoggedState(old(blk), old(disk), old(trace), blk, disk1, trace1, start, header, data);
      WriteHeader();
      LoggedDurable(old(blk), old(disk), old(trace), blk, disk1, trace1, disk, trace, start, header, data);
    }

    // The second half of commit: the installs, then an empty header.
    method InstallBatch(ghost blk0: Blocks, ghost disk0: Disk, ghost trace0: seq<Write>, ghost data: seq<Block>)
      requires BatchOk(disk0, start, header, data) && data == Batch(blk0, disk0, header) && Quiet(blk0, header, start)
      requires |data| > 0
      requires CacheOk() && pins == Homes(header) && Durable(blk0, disk0, trace0, blk, disk, trace, start, header, data)
      modifies this
      ensures CacheOk() && pins == {} && header == old(header).(num := 0) && log == old(log)
      ensures Committed(blk0, disk0, trace0, blk, disk, trace, start, old(header), data)
    {
      assert WellFormed(header) && header.num == |data| <= LOG_MAX_SIZE;
      hide Good, View, Apply, HeldBut, Quiet, InRange, Installing, Durable, SameViewsBut, HeaderOk, Decode, Encode,
           Homes, BatchOk, Batch, Committed;
      ghost var blk2, disk2, trace2, h := blk, disk, trace, header;
      DurableUse(blk0, disk0, trace0, blk2, disk2, trace2, start, h, data);
      InstallTrans();
      ghost var disk3, trace3 := disk, trace;
      GoodParts(head, blk, disk, pins, start, unused);
      InstallingSize(blk2, disk2, Homes(h), trace2, blk, disk, pins, trace, start, h.num);
      header := header.(num := 0);
      WriteHeader();
      CommittedBatch(blk0, disk0, trace0, blk2, disk2, trace2, blk, disk3, pins, trace3, disk, trace, start, h, data);
    }

    // commit
    method Commit(ghost data: seq<Block>)
      requires CacheOk() && BatchOk(disk, start, header, data) && data == Batch(blk, disk, header)
      requires Quiet(blk, header, start)
      requires pins == Homes(header)
      modifies this
      ensures CacheOk() && pins == {} && header == old(header).(num := 0) && log == old(log)
      ensures Committed(old(blk), old(disk), old(trace), blk, disk, trace, start, old(header), data)
    {
      assert WellFormed(header) && header.num == |data| <= LOG_MAX_SIZE;
      hide Good, Quiet, BatchOk, Committed, Homes, Durable, Batch;
      if header.num > 0 {
        LogBatch(data);
        InstallBatch(old(blk), old(disk), old(trace), data);
      } else {
        CommittedNothing(blk, disk, trace, start, header);
      }
    }

    // read_header and recover_from_log, as init_bcache runs them on an empty cache.
    method Recover()
      requires CacheOk() && blk == map[] && HeaderOk(disk, start)
      modifies this
      ensures log == old(log)
      ensures CacheOk() && pins == {} && HeldBut(map[], blk, {}) && header == Decode(old(disk)[start]).(num := 0)
      ensures trace == old(trace) + RecoveryWrites(old(disk), start)
      ensures disk == Apply(old(disk), RecoveryWrites(old(disk), start))
      ensures HeaderOk(disk, start) && Decode(disk[start]).num == 0 && SameHome(disk, Logical(old(disk), start), start)
    {
      NoPins(head, blk, disk, pins, start, unused);
      assert start < |disk|;
      hide Good, View, Apply, Free, HeaderOk, Decode, Encode, InRange;
      header := Decode(disk[start]);
      ghost var h := header;
      QuietEmpty(blk, disk, header, start);
      InstallTrans();
      ghost var ws, last := Installs(old(disk), start), Write(start, Encode(Header(0, h.block_no)));
      assert ws[..h.num] == ws;
      ghost var disk1, trace1 := disk, trace;
      assert disk1 == Apply(old(disk), ws) && trace1 == old(trace) + ws;
      header := header.(num := 0);
      WriteHeader();
      ApplyOne(old(disk), ws, last);
      assert trace == old(trace) + (ws + [last]);
      RecoveryPrefix(old(disk), start, |RecoveryWrites(old(disk), start)|);
      assert RecoveryWrites(old(disk), start)[..h.num + 1] == RecoveryWrites(old(disk), start);
    }

    // init_bcache
    constructor (disk0: Disk, log_start: nat)
      requires HeaderOk(disk0, log_start)
      ensures Valid() && start == log_start && log.rm == map[] && forall p :: p in blk ==> !blk[p].acquired
      ensures trace == RecoveryWrites(disk0, log_start) && disk == Apply(disk0, trace)
      ensures SameHome(disk, Logical(disk0, log_start), log_start)
    {
      start, disk, trace := log_start, disk0, [];
      head, blk, pins, unused := [], map[], {}, 0;
      header, log := Decode(disk0[log_start]), Log(false, 0, 0, map[]);
      new;
      hide Good, HeaderOk, Decode, Apply, Logical, SameHome, RecoveryWrites, Ready, Accounts;
      EmptyGood(disk, start);
      Recover();
      CleanReady(header, disk, start);
    }

    // cache_begin_op: granted, or to be tried again after a wait.
    method BeginOp(ctx: Ctx) returns (granted: bool)
      requires Valid() && ctx !in log.rm
      modifies this
      ensures disk == old(disk) && trace == old(trace) && pins == old(pins) && blk == old(blk) && header == old(header)
      ensures Valid()
      ensures granted <==> old(header.num + Sum(log.rm) + OP_MAX_NUM_BLOCKS <= LOG_MAX_SIZE)
      ensures granted ==> log.rm == old(log.rm)[ctx := OP_MAX_NUM_BLOCKS]
      ensures !granted ==> log == old(log) && log.rm != map[]
    {
      assert log.reserved == Sum(log.rm) && (log.rm == map[] ==> header.num + log.reserved == 0);
      hide Good, Ready, Sum, Accounts;
      if log.committing {
        granted := false;
      } else if header.num + log.reserved + OP_MAX_NUM_BLOCKS > LOG_MAX_SIZE {
        granted := false;
      } else {
        AccountsBegin(log, header.num, ctx, OP_MAX_NUM_BLOCKS);
        log := log.(outstanding := log.outstanding + 1, reserved := log.reserved + OP_MAX_NUM_BLOCKS,
                    rm := log.rm[ctx := OP_MAX_NUM_BLOCKS]);
        granted := true;
      }
    }

    // The search of the header for a block number.
    method FindLogged(block_no: nat) returns (found: bool)
      requires WellFormed(header) && header.num <= LOG_MAX_SIZE
      ensures found <==> block_no in Homes(header)
    {
      var i := 0;
      while i < header.num
        invariant 0 <= i <= header.num && forall j :: 0 <= j < i ==> header.block_no[j] != block_no
      {
        if header.block_no[i] == block_no {
          return true;
        }
        i := i + 1;
      }
      return false;
    }

    // The part of cache_sync that records the block in the header and pins it.
    method LogEntry(p: Ptr)
      requires CacheOk() && Ready(disk, pins, start, header) && WellFormed(header) && header.num < LOG_MAX_SIZE
      requires p in blk && !InLog(start, blk[p].block_no) && blk[p].block_no !in pins
      requires |disk| <= WORD
      modifies this
      ensures disk == old(disk) && trace == old(trace) && log == old(log)
      ensures CacheOk() && Ready(disk, pins, start, header) && header.num == old(header.num) + 1
      ensures PinnedAt(old(blk), blk, p) && SameViews(old(blk), disk, blk, disk)
      ensures pins == old(pins) + {old(blk[p].block_no)}
    {
      assert WellFormed(header);
      hide Good, HeaderFits, HeaderOk, Decode, Homes, SameViews, Logging1;
      NumberInRange(head, blk, disk, pins, start, unused, p);
      AddHome(header, blk[p].block_no, |disk|, start);
      PinOk(head, blk, disk, pins, start, unused, p);
      header := Logging1(header, blk[p].block_no);
      blk := blk[p := blk[p].(pinned := true)];
      pins := pins + {blk[p].block_no};
    }

    // cache_sync for a block that the header does not name yet, within the quota of the operation.
    method SyncNew(ctx: Ctx, p: Ptr)
      requires Valid() && ctx in log.rm && log.rm[ctx] > 0
      requires p in blk && !InLog(start, blk[p].block_no) && blk[p].block_no !in pins && pins == Homes(header)
      requires |disk| <= WORD
      modifies this
      ensures disk == old(disk) && trace == old(trace) && Valid()
      ensures PinnedAt(old(blk), blk, p) && SameViews(old(blk), disk, blk, disk)
      ensures pins == old(pins) + {old(blk[p].block_no)}
      ensures log.rm == old(log.rm)[ctx := old(log.rm)[ctx] - 1]
    {
      assert WellFormed(header);
      hide Good, Ready, Homes, Sum, SameViews, Accounts, PinnedAt;
      AccountsLog(log, header.num, ctx);
      LogEntry(p);
      log := log.(reserved := log.reserved - 1, rm := log.rm[ctx := log.rm[ctx] - 1]);
    }

    // cache_sync with a context; the caller holds the block. Without quota left the block is still
    // recorded, or written past the array when the header is full, before the panic.
    method Sync(ctx: Ctx, p: Ptr) returns (r: SyncResult)
      requires Valid() && ctx in log.rm && p in blk && blk[p].acquired && !InLog(start, blk[p].block_no)
      requires |disk| <= WORD
      modifies this
      ensures disk == old(disk) && trace == old(trace)
      ensures r == Synced <==> old(blk[p].block_no in pins || log.rm[ctx] > 0)
      ensures r == HeaderOverflow ==> old(header.num) == LOG_MAX_SIZE
      ensures r == Synced ==> Valid() && PinnedAt(old(blk), blk, p) && SameViews(old(blk), disk, blk, disk)
      ensures r == Synced ==> pins == old(pins) + {old(blk[p].block_no)}
      ensures r == Synced ==>
                log.rm == if old(blk[p].block_no in pins) then old(log.rm) else old(log.rm)[ctx := old(log.rm)[ctx] - 1]
      ensures ctx != Quota.NO_CTX ==> (r == Synced <==> Quota.CanSync(old(Charges()), ctx, old(blk[p].block_no)))
      ensures ctx != Quota.NO_CTX && r == Synced ==>
                Charges() == Quota.Synced(old(Charges()), ctx, old(blk[p].block_no))
    {
      assert WellFormed(header) && header.num <= LOG_MAX_SIZE && pins == Homes(header);
      hide Good, Ready, Homes, Sum, SameViews, Accounts, PinnedAt;
      var found := FindLogged(blk[p].block_no);
      if found {
        AlreadyPinned(head, blk, disk, pins, start, unused, p);
        assert pins + {blk[p].block_no} == pins;
        r := Synced;
      } else if log.rm[ctx] > 0 {
        SyncNew(ctx, p);
        r := Synced;
      } else if header.num == LOG_MAX_SIZE {
        r := HeaderOverflow;
      } else {
        LogEntry(p);
        r := QuotaPanic;
      }
    }

    // cache_end_op. The last operation commits; for that the batch and the log must not be held by anyone.
    method EndOp(ctx: Ctx) returns (committed: bool)
      requires Valid() && ctx in log.rm
      requires log.outstanding == 1 ==> WellFormed(header) && header.num <= LOG_MAX_SIZE && Quiet(blk, header, start)
      modifies this
      ensures Valid() && log.rm == old(log.rm) - {ctx} && (committed <==> log.rm == map[])
      ensures HeldBut(old(blk), blk, {}) && SameHomeViews(old(blk), old(disk), blk, disk, start)
      ensures !committed ==> blk == old(blk) && disk == old(disk) && trace == old(trace) && header == old(header)
      ensures BatchOk(old(disk), start, old(header), Batch(old(blk), old(disk), old(header)))
      ensures committed ==> BatchDone(old(disk), disk, start, old(header), Batch(old(blk), old(disk), old(header)))
      ensures committed ==> trace == old(trace) + EndWrites(start, old(header), Batch(old(blk), old(disk), old(header)))
      ensures committed ==>
                var ws := EndWrites(start, old(header), Batch(old(blk), old(disk), old(header)));
                InRange(ws, |old(disk)|) && disk == Apply(old(disk), ws)
      ensures committed ==>
                AllOrNothing(old(disk), EndWrites(start, old(header), Batch(old(blk), old(disk), old(header))),
                             old(header.num), disk, start)
    {
      ReadyBatch(blk, disk, pins, start, header);
      AccountsEnd(log, header.num, ctx);
      ghost var data := Batch(blk, disk, header);
      assert WellFormed(header) && header.num == |data| <= LOG_MAX_SIZE;
      hide Good, Ready, Accounts, BatchOk, BatchDone, Batch, AllOrNothing, EndWrites, Quiet, SameHomeViews, HeldBut,
           Committed, Homes;
      log := log.(outstanding := log.outstanding - 1, reserved := log.reserved - log.rm[ctx], rm := log.rm - {ctx});
      if log.outstanding == 0 {
        log := log.(committing := true);
        Commit(data);
        log := log.(committing := false);
        EndState(old(blk), old(disk), old(trace), old(pins), blk, disk, trace, start, old(header), data);
        committed := true;
      } else {
        SameStart(blk, disk, start);
        committed := false;
      }
    }

    // A crash between calls loses nothing that was on disk.
    lemma CrashBetweenCalls(crashes: seq<nat>)
      requires Valid()
      ensures HeaderOk(disk, start) && SameHome(Recovered(disk, start, crashes), disk, start)
    {
      RecoveryConverges(disk, start, crashes);
      CleanLogical(disk, start);
    }
  }
}
