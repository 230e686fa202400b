/** The redo log on disk: its header block, the single-block writes that a commit and a recovery issue,
    and what any crash leaves behind. */
module LogSpec {
  import opened Basics
  import opened Bytes

  const BLOCK_SIZE: nat := 512
  const LOG_MAX_SIZE: nat := 63

  type Block = s: seq<Byte> | |s| == BLOCK_SIZE witness seq(BLOCK_SIZE, _ => 0)
  type Disk = seq<Block>
  datatype Write = Write(block_no: nat, data: Block)

  // LogHeader: the number of blocks and their home block numbers, an array of fixed size.
  datatype Header = Header(num: U64, block_no: seq<U64>)

  predicate WellFormed(h: Header) { |h.block_no| == LOG_MAX_SIZE }

  lemma WordWidth()
    ensures Pow256(8) == 0x1_0000_0000_0000_0000 && Pow256(4) == 0x1_0000_0000 && Pow256(2) == 0x1_0000
  {
    assert Pow256(2) == 0x1_0000;
    assert Pow256(4) == 256 * (256 * Pow256(2));
    assert Pow256(6) == 256 * (256 * Pow256(4));
    assert Pow256(8) == 256 * (256 * Pow256(6));
  }

  // The header occupies exactly one block.
  function Encode(h: Header): (b: Block)
    requires WellFormed(h)
  {
    Pack([h.num] + h.block_no, 8)
  }

  function WordAt(b: Block, k: nat): U64
    requires k <= LOG_MAX_SIZE
  {
    WordWidth();
    ValueLittle(b[k * 8..(k + 1) * 8]);
    Word(b, 8, k)
  }

  function Decode(b: Block): (h: Header)
    ensures WellFormed(h)
  {
    Header(WordAt(b, 0), seq(LOG_MAX_SIZE, i requires 0 <= i < LOG_MAX_SIZE => WordAt(b, i + 1)))
  }

  lemma HeaderRoundTrip(h: Header)
    requires WellFormed(h)
    ensures Decode(Encode(h)) == h
  {
    var ws: seq<nat> := [h.num] + h.block_no;
    WordWidth();
    PackWord(ws, 8, 0);
    forall i | 0 <= i < LOG_MAX_SIZE ensures Decode(Encode(h)).block_no[i] == h.block_no[i] {
      PackWord(ws, 8, i + 1);
      assert ws[i + 1] == h.block_no[i];
    }
  }

  // The count is at the byte 0, the k-th block number at the byte 8 + 8k.
  lemma HeaderBytes(b: Block)
    ensures Decode(b).num == Le64(b, 0)
    ensures forall k :: 0 <= k < LOG_MAX_SIZE ==> Decode(b).block_no[k] == Le64(b, 8 + 8 * k)
  {
    hide Le64;
    ValueWide(b, 0);
    forall k | 0 <= k < LOG_MAX_SIZE ensures Decode(b).block_no[k] == Le64(b, 8 + 8 * k) {
      ValueWide(b, 8 + 8 * k);
    }
  }

  // ---- writes ----

  predicate InRange(ws: seq<Write>, n: nat) {
    forall i :: 0 <= i < |ws| ==> ws[i].block_no < n
  }

  // The disk after the writes, in order.
  function Apply(d: Disk, ws: seq<Write>): (r: Disk)
    requires InRange(ws, |d|)
    ensures |r| == |d|
  {
    if ws == [] then d
    else
      var w := ws[|ws| - 1];
      Apply(d, ws[..|ws| - 1])[w.block_no := w.data]
  }

  // What a block holds after the writes: the last one to it, if any.
  function Last(ws: seq<Write>, b: nat, x: Block): Block {
    if ws == [] then x
    else if ws[|ws| - 1].block_no == b then ws[|ws| - 1].data
    else Last(ws[..|ws| - 1], b, x)
  }

  predicate Targets(ws: seq<Write>, b: nat) {
    exists i :: 0 <= i < |ws| && ws[i].block_no == b
  }

  lemma {:induction false} ApplyLast(d: Disk, ws: seq<Write>, b: nat)
    requires InRange(ws, |d|) && b < |d|
    ensures Apply(d, ws)[b] == Last(ws, b, d[b])
  {
    if ws != [] {
      ApplyLast(d, ws[..|ws| - 1], b);
    }
  }

  lemma {:induction false} ApplyConcat(d: Disk, a: seq<Write>, b: seq<Write>)
    requires InRange(a, |d|) && InRange(b, |d|)
    ensures InRange(a + b, |d|) && Apply(d, a + b) == Apply(Apply(d, a), b)
  {
    if b == [] {
      assert a + b == a;
    } else {
      ApplyConcat(d, a, b[..|b| - 1]);
      assert (a + b)[..|a + b| - 1] == a + b[..|b| - 1];
    }
  }

  // The value left in a written block does not depend on what it held before.
  lemma {:induction false} LastDefault(ws: seq<Write>, b: nat, x: Block, y: Block)
    ensures Targets(ws, b) ==> Last(ws, b, x) == Last(ws, b, y)
    ensures !Targets(ws, b) ==> Last(ws, b, x) == x
  {
    if ws != [] {
      LastDefault(ws[..|ws| - 1], b, x, y);
      if Targets(ws, b) && ws[|ws| - 1].block_no != b {
        var i :| 0 <= i < |ws| && ws[i].block_no == b;
        assert ws[..|ws| - 1][i].block_no == b;
      }
    }
  }

  // Writing everything after a part of it was already written gives the same disk.
  lemma Rewrite(d: Disk, ws: seq<Write>, k: nat)
    requires InRange(ws, |d|) && k <= |ws|
    ensures InRange(ws[..k], |d|) && Apply(Apply(d, ws[..k]), ws) == Apply(d, ws)
  {
    var d' := Apply(d, ws[..k]);
    forall b | 0 <= b < |d| ensures Apply(d', ws)[b] == Apply(d, ws)[b] {
      ApplyLast(d, ws, b);
      ApplyLast(d', ws, b);
      ApplyLast(d, ws[..k], b);
      LastDefault(ws, b, d[b], d'[b]);
      LastDefault(ws[..k], b, d[b], d[b]);
    }
  }

  // ---- recovery ----

  // The log occupies the header block and one slot for each entry after it.
  predicate InLog(start: nat, b: nat) { start <= b <= start + LOG_MAX_SIZE }

  // The header on disk names home blocks only, outside the log.
  predicate HeaderOk(d: Disk, start: nat) {
    start + LOG_MAX_SIZE < |d|
    && var h := Decode(d[start]);
       h.num <= LOG_MAX_SIZE && forall i :: 0 <= i < h.num ==> h.block_no[i] < |d| && !InLog(start, h.block_no[i])
  }

  // install_trans as a sequence of writes: every slot is copied to its home block.
  function Installs(d: Disk, start: nat): (ws: seq<Write>)
    requires HeaderOk(d, start)
    ensures InRange(ws, |d|) && |ws| == Decode(d[start]).num
    ensures forall b :: InLog(start, b) ==> !Targets(ws, b)
  {
    var h := Decode(d[start]);
    seq(h.num, i requires 0 <= i < h.num => Write(h.block_no[i], d[start + 1 + i]))
  }

  // recover_from_log as a sequence of writes: the installs, then a header with no blocks.
  function RecoveryWrites(d: Disk, start: nat): (ws: seq<Write>)
    requires HeaderOk(d, start)
    ensures InRange(ws, |d|) && |ws| == Decode(d[start]).num + 1
  {
    Installs(d, start) + [Write(start, Encode(Header(0, Decode(d[start]).block_no)))]
  }

  // What the disk stands for: the contents that installing its log would give.
  function Logical(d: Disk, start: nat): (r: Disk)
    requires HeaderOk(d, start)
    ensures |r| == |d|
  {
    Apply(d, Installs(d, start))
  }

  predicate SameLog(d: Disk, d': Disk, start: nat) {
    |d| == |d'| && forall b :: 0 <= b < |d| && InLog(start, b) ==> d[b] == d'[b]
  }

  predicate SameHome(d: Disk, d': Disk, start: nat) {
    |d| == |d'| && forall b :: 0 <= b < |d| && !InLog(start, b) ==> d[b] == d'[b]
  }

  // Any prefix of the installs leaves the log, and so the logical contents, as they were.
  lemma InstallPrefix(d: Disk, start: nat, k: nat)
    requires HeaderOk(d, start) && k <= |Installs(d, start)|
    ensures InRange(Installs(d, start)[..k], |d|)
    ensures var d' := Apply(d, Installs(d, start)[..k]);
            SameLog(d, d', start) && HeaderOk(d', start) && Installs(d', start) == Installs(d, start)
              && Logical(d', start) == Logical(d, start)
  {
    var ws := Installs(d, start);
    var d' := Apply(d, ws[..k]);
    forall b | 0 <= b < |d| && InLog(start, b) ensures d'[b] == d[b] {
      ApplyLast(d, ws[..k], b);
      LastDefault(ws[..k], b, d[b], d[b]);
    }
    assert d'[start] == d[start];
    forall i | 0 <= i < Decode(d[start]).num ensures Installs(d', start)[i] == ws[i] {
      assert d'[start + 1 + i] == d[start + 1 + i];
    }
    assert Installs(d', start) == ws;
    Rewrite(d, ws, k);
  }

  // A header without blocks stands for the disk as it is.
  lemma CleanLogical(d: Disk, start: nat)
    requires HeaderOk(d, start) && Decode(d[start]).num == 0
    ensures Logical(d, start) == d
  {
    assert Installs(d, start) == [];
  }

  // After k of the writes of one recovery: still the same logical contents, and clean when k is all of them.
  lemma RecoveryPrefix(d: Disk, start: nat, k: nat)
    requires HeaderOk(d, start) && k <= |RecoveryWrites(d, start)|
    ensures InRange(RecoveryWrites(d, start)[..k], |d|)
    ensures var d' := Apply(d, RecoveryWrites(d, start)[..k]);
            && |d'| == |d| && HeaderOk(d', start) && SameHome(Logical(d', start), Logical(d, start), start)
            && (k == |RecoveryWrites(d, start)| ==>
                Decode(d'[start]).num == 0 && SameHome(d', Logical(d, start), start))
  {
    hide Apply, Encode, Decode, Installs;
    var ws, rs := Installs(d, start), RecoveryWrites(d, start);
    if k <= |ws| {
      assert rs[..k] == ws[..k];
      InstallPrefix(d, start, k);
    } else {
      assert rs[..k] == rs;
      RecoveryEnd(d, start);
    }
  }

  // All of recovery.
  lemma RecoveryEnd(d: Disk, start: nat)
    requires HeaderOk(d, start)
    ensures var d' := Apply(d, RecoveryWrites(d, start));
            && |d'| == |d| && HeaderOk(d', start) && Decode(d'[start]).num == 0
            && Logical(d', start) == d' && SameHome(d', Logical(d, start), start)
  {
    hide Apply, Encode, Decode, Installs;
    var ws, rs := Installs(d, start), RecoveryWrites(d, start);
    assert ws[..|ws|] == ws && rs[..|ws|] == ws;
    InstallPrefix(d, start, |ws|);
    ApplyStep(d, rs, |ws|);
    assert rs[..|rs|] == rs;
    HeaderRoundTrip(Header(0, Decode(d[start]).block_no));
    CleanLogical(Apply(d, rs), start);
  }

  // Recovery interrupted after crashes[0] writes, rerun, interrupted after crashes[1], ..., and at last completed.
  function Recovered(d: Disk, start: nat, crashes: seq<nat>): (r: Disk)
    requires HeaderOk(d, start)
    decreases |crashes|
  {
    var ws := RecoveryWrites(d, start);
    if crashes == [] then Apply(d, ws)
    else
      var k := if crashes[0] < |ws| then crashes[0] else |ws|;
      RecoveryPrefix(d, start, k);
      Recovered(Apply(d, ws[..k]), start, crashes[1..])
  }

  // However often recovery is interrupted, it ends with the logical contents in place and an empty log.
  lemma {:induction false} RecoveryConverges(d: Disk, start: nat, crashes: seq<nat>)
    requires HeaderOk(d, start)
    ensures var r := Recovered(d, start, crashes);
            HeaderOk(r, start) && Decode(r[start]).num == 0 && SameHome(r, Logical(d, start), start)
    decreases |crashes|
  {
    var ws := RecoveryWrites(d, start);
    if crashes == [] {
      assert ws[..|ws|] == ws;
      RecoveryPrefix(d, start, |ws|);
    } else {
      var k := if crashes[0] < |ws| then crashes[0] else |ws|;
      RecoveryPrefix(d, start, k);
      RecoveryConverges(Apply(d, ws[..k]), start, crashes[1..]);
    }
  }

  // ---- commit ----

  // A batch: the in-memory header names n distinct home blocks outside the log, data holds their new contents.
  predicate BatchOk(d: Disk, start: nat, h: Header, data: seq<Block>) {
    && start + LOG_MAX_SIZE < |d| && WellFormed(h) && h.num <= LOG_MAX_SIZE && |data| == h.num
    && (forall i :: 0 <= i < h.num ==> h.block_no[i] < |d| && !InLog(start, h.block_no[i]))
    && (forall i, j :: 0 <= i < j < h.num ==> h.block_no[i] != h.block_no[j])
  }

  // write_log: the new contents go to the slots.
  function SlotWrites(start: nat, data: seq<Block>): (ws: seq<Write>)
    ensures |ws| == |data|
  {
    seq(|data|, i requires 0 <= i < |data| => Write(start + 1 + i, data[i]))
  }

  // install_trans: the new contents go home.
  function HomeWrites(h: Header, data: seq<Block>): (ws: seq<Write>)
    requires |data| <= |h.block_no|
    ensures |ws| == |data|
  {
    seq(|data|, i requires 0 <= i < |data| => Write(h.block_no[i], data[i]))
  }

  // commit, up to and including the header write that makes it happen.
  function LoggingWrites(start: nat, h: Header, data: seq<Block>): (ws: seq<Write>)
    requires WellFormed(h) && |data| <= LOG_MAX_SIZE
    ensures |ws| == |data| + 1
  {
    SlotWrites(start, data) + [Write(start, Encode(h))]
  }

  // All writes of commit, in order.
  function CommitWrites(start: nat, h: Header, data: seq<Block>): (ws: seq<Write>)
    requires WellFormed(h) && |data| <= LOG_MAX_SIZE
    ensures |ws| == 2 * |data| + 2
  {
    LoggingWrites(start, h, data) + (HomeWrites(h, data) + [Write(start, Encode(Header(0, h.block_no)))])
  }

  // One by one: the i-th new block to the i-th slot, behind the header; the header that names them; the i-th new block
  // home; a header that names none.
  lemma CommitTrace(start: nat, h: Header, data: seq<Block>)
    requires WellFormed(h) && |data| <= LOG_MAX_SIZE
    ensures var ws, n := CommitWrites(start, h, data), |data|;
            && |ws| == 2 * n + 2 && (forall i :: 0 <= i < n ==> ws[i] == Write(start + 1 + i, data[i]))
            && ws[n].block_no == start && Decode(ws[n].data) == h
            && (forall i :: 0 <= i < n ==> ws[n + 1 + i] == Write(h.block_no[i], data[i]))
            && ws[2 * n + 1].block_no == start && Decode(ws[2 * n + 1].data) == Header(0, h.block_no)
  {
    hide Encode, Decode;
    HeaderRoundTrip(h);
    HeaderRoundTrip(Header(0, h.block_no));
  }

  // The same for a recovery, from the bytes of the disk.
  lemma RecoveryTrace(d: Disk, start: nat)
    requires HeaderOk(d, start)
    ensures var ws, n := RecoveryWrites(d, start), Le64(d[start], 0);
            && n <= LOG_MAX_SIZE && |ws| == n + 1
            && (forall i :: 0 <= i < n ==> ws[i] == Write(Le64(d[start], 8 + 8 * i), d[start + 1 + i]))
            && ws[n].block_no == start && Le64(ws[n].data, 0) == 0
  {
    hide Encode, Decode, Le64;
    HeaderBytes(d[start]);
    var h := Header(0, Decode(d[start]).block_no);
    HeaderRoundTrip(h);
    HeaderBytes(Encode(h));
  }

  // The disk with the batch in place.
  predicate BatchDone(d: Disk, r: Disk, start: nat, h: Header, data: seq<Block>)
    requires BatchOk(d, start, h, data)
  {
    && |r| == |d|
    && (forall i :: 0 <= i < h.num ==> r[h.block_no[i]] == data[i])
    && (forall b :: 0 <= b < |d| && !InLog(start, b) && (forall i :: 0 <= i < h.num ==> h.block_no[i] != b) ==>
        r[b] == d[b])
  }

  lemma CommitInRange(d: Disk, start: nat, h: Header, data: seq<Block>)
    requires BatchOk(d, start, h, data)
    ensures InRange(SlotWrites(start, data), |d|) && InRange(LoggingWrites(start, h, data), |d|)
    ensures InRange(HomeWrites(h, data), |d|) && InRange(CommitWrites(start, h, data), |d|)
  {
  }

  // One write at the end.
  lemma ApplyOne(d: Disk, ws: seq<Write>, w: Write)
    requires InRange(ws, |d|) && w.block_no < |d|
    ensures InRange(ws + [w], |d|) && Apply(d, ws + [w]) == Apply(d, ws)[w.block_no := w.data]
  {
    assert (ws + [w])[..|ws|] == ws;
  }

  // One more write of a sequence.
  lemma ApplyStep(d: Disk, ws: seq<Write>, k: nat)
    requires InRange(ws, |d|) && k <= |ws|
    ensures InRange(ws[..k], |d|) && (k == 0 ==> Apply(d, ws[..k]) == d) && (k == |ws| ==> ws[..k] == ws)
    ensures k < |ws| ==> InRange(ws[..k + 1], |d|) && ws[..k + 1] == ws[..k] + [ws[k]]
    ensures k < |ws| ==> Apply(d, ws[..k + 1]) == Apply(d, ws[..k])[ws[k].block_no := ws[k].data]
  {
    if k < |ws| {
      assert ws[..k + 1] == ws[..k] + [ws[k]];
      ApplyOne(d, ws[..k], ws[k]);
    }
  }

  // The first k slots are written, and nothing outside them.
  predicate Slotted(d: Disk, d': Disk, start: nat, data: seq<Block>, k: nat)
    requires k <= |data| && start + |data| < |d|
  {
    && SameHome(d', d, start) && d'[start] == d[start]
    && forall b :: start < b <= start + k ==> d'[b] == data[b - start - 1]
  }

  lemma SlotWritten(d: Disk, d': Disk, start: nat, data: seq<Block>, k: nat)
    requires k < |data| <= LOG_MAX_SIZE && start + |data| < |d| && Slotted(d, d', start, data, k)
    ensures Slotted(d, d'[start + 1 + k := data[k]], start, data, k + 1)
  {
  }

  // Before the header write nothing but log slots has changed, and the old header is still there.
  lemma {:induction false} SlotPrefix(d: Disk, start: nat, h: Header, data: seq<Block>, k: nat)
    requires BatchOk(d, start, h, data) && k <= |data|
    ensures InRange(SlotWrites(start, data)[..k], |d|)
    ensures Slotted(d, Apply(d, SlotWrites(start, data)[..k]), start, data, k)
  {
    hide Apply, InRange, WellFormed, Slotted, SameHome;
    CommitInRange(d, start, h, data);
    var ws := SlotWrites(start, data);
    if k == 0 {
      ApplyStep(d, ws, 0);
      SlotsStart(d, start, data);
    } else {
      SlotPrefix(d, start, h, data, k - 1);
      ApplyStep(d, ws, k - 1);
      assert ws[k - 1] == Write(start + k, data[k - 1]);
      SlotWritten(d, Apply(d, ws[..k - 1]), start, data, k - 1);
    }
  }

  lemma SlotsStart(d: Disk, start: nat, data: seq<Block>)
    requires start + |data| < |d|
    ensures Slotted(d, d, start, data, 0)
  {
  }

  // With distinct targets each block holds its own write.
  lemma {:induction false} LastAt(ws: seq<Write>, i: nat, x: Block)
    requires i < |ws| && forall a, b :: 0 <= a < b < |ws| ==> ws[a].block_no != ws[b].block_no
    ensures Last(ws, ws[i].block_no, x) == ws[i].data
  {
    if i < |ws| - 1 {
      LastAt(ws[..|ws| - 1], i, x);
    }
  }

  // Once the header is written the rest of the commit is exactly what recovery would do.
  lemma Logged(d: Disk, start: nat, h: Header, data: seq<Block>)
    requires BatchOk(d, start, h, data)
    ensures InRange(LoggingWrites(start, h, data), |d|)
    ensures var d1 := Apply(d, LoggingWrites(start, h, data));
            && HeaderOk(d1, start) && Decode(d1[start]) == h && SameHome(d1, d, start)
            && Installs(d1, start) == HomeWrites(h, data)
            && RecoveryWrites(d1, start) == HomeWrites(h, data) + [Write(start, Encode(Header(0, h.block_no)))]
  {
    hide Apply, Decode, Encode;
    var ss := SlotWrites(start, data);
    CommitInRange(d, start, h, data);
    SlotPrefix(d, start, h, data, |data|);
    assert ss[..|data|] == ss;
    ApplyOne(d, ss, Write(start, Encode(h)));
    HeaderRoundTrip(h);
    var d1 := Apply(d, LoggingWrites(start, h, data));
    assert forall i :: 0 <= i < |data| ==> Installs(d1, start)[i] == HomeWrites(h, data)[i];
    assert Installs(d1, start) == HomeWrites(h, data);
  }

  // Installing a logged batch puts it in place.
  lemma LoggedDone(d: Disk, d1: Disk, start: nat, h: Header, data: seq<Block>)
    requires BatchOk(d, start, h, data) && SameHome(d1, d, start)
    requires HeaderOk(d1, start) && Installs(d1, start) == HomeWrites(h, data)
    ensures BatchDone(d, Logical(d1, start), start, h, data)
  {
    var ws := HomeWrites(h, data);
    forall i | 0 <= i < h.num ensures Logical(d1, start)[h.block_no[i]] == data[i] {
      ApplyLast(d1, ws, h.block_no[i]);
      LastAt(ws, i, d1[h.block_no[i]]);
    }
    forall b | 0 <= b < |d| && !InLog(start, b) && forall i :: 0 <= i < h.num ==> h.block_no[i] != b
      ensures Logical(d1, start)[b] == d[b]
    {
      ApplyLast(d1, ws, b);
      LastDefault(ws, b, d1[b], d1[b]);
    }
  }

  // What the disk stands for after k writes of a commit.
  lemma EarlyPrefix(d: Disk, start: nat, h: Header, data: seq<Block>, k: nat)
    requires BatchOk(d, start, h, data) && HeaderOk(d, start) && Decode(d[start]).num == 0 && k <= |data|
    ensures InRange(CommitWrites(start, h, data)[..k], |d|)
    ensures var d' := Apply(d, CommitWrites(start, h, data)[..k]);
            HeaderOk(d', start) && SameHome(Logical(d', start), d, start)
  {
    hide Apply, Decode, Encode;
    assert CommitWrites(start, h, data)[..k] == SlotWrites(start, data)[..k];
    SlotPrefix(d, start, h, data, k);
    CleanLogical(Apply(d, CommitWrites(start, h, data)[..k]), start);
  }

  lemma Split(a: seq<Write>, b: seq<Write>, k: nat)
    requires |a| <= k <= |a + b|
    ensures (a + b)[..k] == a + b[..k - |a|]
  {
  }

  lemma DoneSameHome(d: Disk, r: Disk, r': Disk, start: nat, h: Header, data: seq<Block>)
    requires BatchOk(d, start, h, data) && BatchDone(d, r, start, h, data) && SameHome(r', r, start)
    ensures BatchDone(d, r', start, h, data)
  {
  }

  lemma LatePrefix(d: Disk, start: nat, h: Header, data: seq<Block>, k: nat)
    requires BatchOk(d, start, h, data) && |data| < k <= |CommitWrites(start, h, data)|
    ensures InRange(CommitWrites(start, h, data)[..k], |d|)
    ensures var d' := Apply(d, CommitWrites(start, h, data)[..k]);
            HeaderOk(d', start) && BatchDone(d, Logical(d', start), start, h, data)
  {
    hide Apply, Decode, Encode, Installs, HeaderOk, RecoveryWrites, SameHome, BatchDone, Logical, InRange;
    Logged(d, start, h, data);
    var ls := LoggingWrites(start, h, data);
    var d1 := Apply(d, ls);
    LoggedDone(d, d1, start, h, data);
    var rs := RecoveryWrites(d1, start);
    var i := k - |ls|;
    Split(ls, rs, k);
    RecoveryPrefix(d1, start, i);
    ApplyConcat(d, ls, rs[..i]);
    DoneSameHome(d, Logical(d1, start), Logical(Apply(d1, rs[..i]), start), start, h, data);
  }

  // Crash atomicity. Stop a commit after any k of its writes, then recover with any interruptions:
  // the home blocks are all old when the first header write had not happened, and all new when it had.
  lemma CommitAtomic(d: Disk, start: nat, h: Header, data: seq<Block>, k: nat, crashes: seq<nat>)
    requires BatchOk(d, start, h, data) && HeaderOk(d, start) && Decode(d[start]).num == 0
    requires k <= |CommitWrites(start, h, data)|
    ensures InRange(CommitWrites(start, h, data)[..k], |d|)
    ensures var d' := Apply(d, CommitWrites(start, h, data)[..k]);
            && HeaderOk(d', start)
            && var r := Recovered(d', start, crashes);
               && HeaderOk(r, start) && Decode(r[start]).num == 0
               && (if k <= h.num then SameHome(r, d, start) else BatchDone(d, r, start, h, data))
  {
    hide Apply, Decode, Encode, Recovered, CommitWrites;
    if k <= h.num {
      EarlyPrefix(d, start, h, data, k);
    } else {
      LatePrefix(d, start, h, data, k);
    }
    RecoveryConverges(Apply(d, CommitWrites(start, h, data)[..k]), start, crashes);
  }

  // A commit that runs to its end leaves the batch in place and the log empty.
  lemma CommitComplete(d: Disk, start: nat, h: Header, data: seq<Block>)
    requires BatchOk(d, start, h, data)
    ensures InRange(CommitWrites(start, h, data), |d|)
    ensures var r := Apply(d, CommitWrites(start, h, data));
            HeaderOk(r, start) && Decode(r[start]).num == 0 && BatchDone(d, r, start, h, data)
  {
    hide Apply, InRange, Encode, Decode, HomeWrites, LoggingWrites, SameHome, BatchDone, HeaderOk, Logical;
    CommitInRange(d, start, h, data);
    Logged(d, start, h, data);
    var d1 := Apply(d, LoggingWrites(start, h, data));
    LoggedDone(d, d1, start, h, data);
    var rs := RecoveryWrites(d1, start);
    assert rs[..|rs|] == rs;
    RecoveryPrefix(d1, start, |rs|);
    ApplyConcat(d, LoggingWrites(start, h, data), rs);
    DoneSameHome(d, Logical(d1, start), Apply(d1, rs), start, h, data);
  }

  // Stop the writes ws anywhere, and recover with any interruptions: the home blocks are those of d
  // while at most n writes were made, and those of d' from then on.
  ghost predicate AllOrNothing(d: Disk, ws: seq<Write>, n: nat, d': Disk, start: nat) {
    forall k: nat, crashes: seq<nat> :: k <= |ws| ==> Survives(d, ws, n, d', start, k, crashes)
  }

  ghost predicate Survives(d: Disk, ws: seq<Write>, n: nat, d': Disk, start: nat, k: nat, crashes: seq<nat>)
    requires k <= |ws|
  {
    && InRange(ws[..k], |d|) && HeaderOk(Apply(d, ws[..k]), start)
    && SameHome(Recovered(Apply(d, ws[..k]), start, crashes), if k <= n then d else d', start)
  }

  lemma DoneUnique(d: Disk, r: Disk, r': Disk, start: nat, h: Header, data: seq<Block>)
    requires BatchOk(d, start, h, data) && BatchDone(d, r, start, h, data) && BatchDone(d, r', start, h, data)
    ensures SameHome(r, r', start)
  {
    forall b | 0 <= b < |d| && !InLog(start, b) ensures r[b] == r'[b] {
      if i :| 0 <= i < h.num && h.block_no[i] == b {
        assert r[h.block_no[i]] == r'[h.block_no[i]];
      }
    }
  }

  lemma CommitSurvives(d: Disk, start: nat, h: Header, data: seq<Block>, d': Disk, k: nat, crashes: seq<nat>)
    requires BatchOk(d, start, h, data) && HeaderOk(d, start) && Decode(d[start]).num == 0
    requires BatchDone(d, d', start, h, data)
    requires k <= |CommitWrites(start, h, data)|
    ensures Survives(d, CommitWrites(start, h, data), h.num, d', start, k, crashes)
  {
    hide Apply, Decode, Recovered, CommitWrites, HeaderOk, InRange, SameHome, BatchDone;
    CommitAtomic(d, start, h, data, k, crashes);
    if k > h.num {
      DoneUnique(d, Recovered(Apply(d, CommitWrites(start, h, data)[..k]), start, crashes), d', start, h, data);
    }
  }

  lemma CommitAllOrNothing(d: Disk, start: nat, h: Header, data: seq<Block>)
    requires BatchOk(d, start, h, data) && HeaderOk(d, start) && Decode(d[start]).num == 0
    ensures InRange(CommitWrites(start, h, data), |d|)
    ensures AllOrNothing(d, CommitWrites(start, h, data), h.num, Apply(d, CommitWrites(start, h, data)), start)
  {
    hide Apply, Decode, CommitWrites, HeaderOk, InRange, BatchDone, Survives;
    CommitComplete(d, start, h, data);
    var ws := CommitWrites(start, h, data);
    var d' := Apply(d, ws);
    forall k: nat, crashes: seq<nat> | k <= |ws| ensures Survives(d, ws, h.num, d', start, k, crashes) {
      CommitSurvives(d, start, h, data, d', k, crashes);
    }
  }

  lemma IdleAllOrNothing(d: Disk, start: nat)
    requires HeaderOk(d, start) && Decode(d[start]).num == 0
    ensures AllOrNothing(d, [], 0, d, start)
  {
    forall k: nat, crashes: seq<nat> | k <= 0 ensures Survives(d, [], 0, d, start, k, crashes) {
      CleanLogical(d, start);
      RecoveryConverges(d, start, crashes);
    }
  }
}
