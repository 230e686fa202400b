/** A run of the process table in which a pid is used again (src/kernel/proc.c): kill marks a zombie although a
    living process has the pid. */
module PidReuse {
  import opened Basics
  import opened Sem
  import opened PidPool
  import opened ProcTree
  import PageTable
  import Sections

  // A process as far as this run goes.
  datatype Line = Line(st: State, parent: Ptr, children: seq<Ptr>, pid: nat, killed: bool)
  type Lines = map<Ptr, Line>

  ghost function LineOf(p: Proc): Line { Line(p.st, p.parent, p.children, p.pid, p.killed) }

  ghost function Brief(procs: Procs): Lines { map x | x in procs :: LineOf(procs[x]) }

  lemma BriefAt(procs: Procs, x: Ptr, p: Proc)
    ensures Brief(procs[x := p]) == Brief(procs)[x := LineOf(p)]
  {
  }

  // The table has one container, of which k processes are started; nobody waits, and the next pids to be given out
  // are those in next.
  ghost predicate Stage(t: Tree, lines: Lines, birth: map<Ptr, nat>, next: seq<nat>, k: nat)
    reads t
  {
    && Inv(t.W()) && t.Held() && Brief(t.procs) == lines && t.root == 8 && t.rootproc == map[4 := 8]
    && Quiet(t.procs) && t.birth == birth && birth.Keys == lines.Keys && t.clock == |birth|
    && Next(t.pids, next) && 4 in t.pools && t.pools[4].avail == k
  }

  ghost predicate Quiet(procs: Procs) { forall x :: x in procs ==> Idle(procs[x], x) }

  predicate Idle(p: Proc, x: Ptr) { Away(p.childexit, x) && !p.holds && p.home == 4 }

  ghost predicate Next(p: Pool, next: seq<nat>) {
    && |p.freelist| == PID_NUM && p.avail + |next| <= PID_NUM
    && forall i :: 0 <= i < |next| ==> p.freelist[p.avail + i] == next[i]
  }

  // create_proc: the next pid goes to the new process.
  method Create(t: Tree, p: Ptr, ghost lines: Lines, ghost birth: map<Ptr, nat>, ghost next: seq<nat>, ghost k: nat)
    requires Stage(t, lines, birth, next, k) && p != NULL && p !in lines && next != []
    modifies t
    ensures Stage(t, lines[p := Line(UNUSED, NULL, [], next[0], false)], birth[p := |birth|], next[1..], k)
  {
    hide Inv, PidsOk, LocalsOk, Pids, Locals, Brief, Only, SameFrame, ExitTo, NewIn;
    ghost var procs := t.procs;
    BriefKeys(procs);
    UniquePids(t.procs, t.rootproc, t.pools, t.pids);
    RootKnown(t.W());
    var ok := t.CreateProc(p);
    BriefAt(procs, p, NewRecord(procs[8].home, next[0]));
  }

  lemma BriefKeys(procs: Procs)
    ensures Brief(procs).Keys == procs.Keys && forall x :: x in procs ==> Brief(procs)[x] == LineOf(procs[x])
  {
  }

  // start_proc, for a process that has no parent yet.
  method Start(t: Tree, p: Ptr, ghost lines: Lines, ghost birth: map<Ptr, nat>, ghost next: seq<nat>, ghost k: nat)
    requires Stage(t, lines, birth, next, k) && p in lines && p != 8 && 8 in lines && k < PID_NUM
    requires lines[p].st == UNUSED && lines[p].parent == NULL
    modifies t
    ensures Stage(t, Below(lines, 8, p), birth, next, k + 1)
  {
    hide Inv, PidsOk, LocalsOk, Pids, Locals, Brief, Only, SameFrame, ExitTo, NewIn;
    ghost var procs := t.procs;
    BriefKeys(procs);
    UniquePids(t.procs, t.rootproc, t.pools, t.pids);
    HomeKnown(t.W(), p);
    PoolKnown(t.procs, t.rootproc, t.pools, 4);
    var ok, id := t.StartProc(p);
    BelowLines(procs, 8, p, id);
  }

  // set_parent_to_this and start_proc, for a process that x has created.
  method StartChild(t: Tree, x: Ptr, p: Ptr, ghost lines: Lines, ghost birth: map<Ptr, nat>, ghost next: seq<nat>,
                    ghost k: nat)
    requires Stage(t, lines, birth, next, k) && p in lines && x in lines && x != p && p != 8 && x != NULL && k < PID_NUM
    requires lines[x].st == LIVE && lines[p].st == UNUSED && lines[p].parent == NULL && birth[x] < birth[p]
    modifies t
    ensures Stage(t, Below(lines, x, p), birth, next, k + 1)
  {
    hide Inv, PidsOk, LocalsOk, Pids, Locals, Brief, Only, SameFrame, ExitTo, NewIn;
    ghost var procs := t.procs;
    BriefKeys(procs);
    t.SetParentToThis(x, p);
    UniquePids(t.procs, t.rootproc, t.pools, t.pids);
    HomeKnown(t.W(), p);
    PoolKnown(t.procs, t.rootproc, t.pools, 4);
    var ok, id := t.StartProc(p);
    BelowLines(procs, x, p, id);
  }

  ghost function Below(lines: Lines, x: Ptr, p: Ptr): Lines
    requires p in lines && x in lines
  {
    lines[x := lines[x].(children := [p] + lines[x].children)][p := lines[p].(parent := x, st := LIVE)]
  }

  lemma BelowLines(procs: Procs, x: Ptr, p: Ptr, id: nat)
    requires p in procs && x in procs && p != x
    ensures var q, r := procs[p].(parent := x), procs[x].(children := [p] + procs[x].children);
            p in Brief(procs) && x in Brief(procs)
            && Brief(procs[p := q][x := r][p := q.(st := LIVE, localpid := id)]) == Below(Brief(procs), x, p)
  {
    hide Brief;
    BriefKeys(procs);
    var q, r := procs[p].(parent := x), procs[x].(children := [p] + procs[x].children);
    BriefAt(procs, p, q);
    BriefAt(procs[p := q], x, r);
    BriefAt(procs[p := q][x := r], p, q.(st := LIVE, localpid := id));
  }

  // exit: the pid is the next to be given out, and the children go to the root process.
  method Leave(t: Tree, x: Ptr, ghost lines: Lines, ghost birth: map<Ptr, nat>, ghost next: seq<nat>, ghost k: nat)
    requires Stage(t, lines, birth, next, k) && x in lines && x != 8 && 8 in lines && lines[x].st == LIVE
    modifies t
    ensures Stage(t, Left(lines, x), birth, [lines[x].pid] + next, k)
  {
    hide Inv, PidsOk, LocalsOk, Pids, Locals, Brief, Only, SameFrame, ExitTo, NewIn;
    ghost var w := t.W();
    BriefKeys(t.procs);
    var pd := new PageTable.PageDir([]);
    NoPages(pd.D());
    var ok := t.Exit(x, 0, pd, []);
    CodeInv(w, x, 0);
    LeftLines(w, x);
    LeftQuiet(Coded(w, x, 0), x);
  }

  lemma NoPages(d: PageTable.Dir)
    ensures Sections.Pages(d, Sections.AllAddresses([])) == []
  {
  }

  ghost function Left(lines: Lines, x: Ptr): Lines
    requires x in lines && 8 in lines
  {
    map y | y in lines ::
      Line(if y == x then ZOMBIE else lines[y].st, if y in lines[x].children then 8 else lines[y].parent,
           if y == x then [] else if y == 8 then Adopted(lines[8].children, lines[x].children) else lines[y].children,
           lines[y].pid, lines[y].killed)
  }

  lemma LeftLines(w: World, x: Ptr)
    requires x in w.procs && 8 in w.procs && w.rootproc == map[4 := 8] && w.procs[x].home == 4
    ensures x in Brief(w.procs) && 8 in Brief(w.procs)
    ensures Brief(Exited(Coded(w, x, 0), x).procs) == Left(Brief(w.procs), x)
  {
    hide Posts, Zombies, Adopted;
  }

  lemma LeftQuiet(w: World, x: Ptr)
    requires x in w.procs && w.procs[x].home in w.rootproc && Inv(w) && Quiet(w.procs)
    ensures Quiet(Exited(w, x).procs)
  {
    hide Inv, Posts, Zombies, Adopted;
    forall y | y in w.procs ensures Idle(Exited(w, x).procs[y], y) {
      BalancedAt(w, y);
      var n := (if y == w.rootproc[w.procs[x].home] then Zombies(w.procs, w.procs[x].children) else 0)
               + (if y == w.procs[x].parent then 1 else 0);
      PostsOk(w.procs[y].childexit, n);
    }
  }

  // The state of the table before and after the pid is used again.
  ghost function Boot(): Lines { map[8 := Line(LIVE, 8, [], 1, false)] }

  ghost function Half(): Lines {
    map[8 := Line(LIVE, 8, [24, 16], 1, false), 16 := Line(ZOMBIE, 8, [], 2, false),
        24 := Line(LIVE, 8, [], 3, false)]
  }

  ghost function End(): Lines {
    map[8 := Line(LIVE, 8, [24, 16, 32], 1, false), 16 := Line(ZOMBIE, 8, [], 2, false),
        24 := Line(ZOMBIE, 8, [], 3, false), 32 := Line(LIVE, 8, [], 2, false)]
  }

  ghost function Births(n: nat): map<Ptr, nat> {
    if n == 1 then map[8 := 0] else if n == 3 then map[8 := 0, 16 := 1, 24 := 2]
    else map[8 := 0, 16 := 1, 24 := 2, 32 := 3]
  }

  // Two processes start; the first exits.
  method FirstHalf(t: Tree)
    requires Stage(t, Boot(), Births(1), [2, 3, 4], 1)
    modifies t
    ensures Stage(t, Half(), Births(3), [2, 4], 3)
  {
    hide Stage;
    ghost var b, c := Births(1), Births(1)[16 := 1];
    assert |b| == 1 && |c| == 2;
    ghost var l1 := Boot()[16 := Line(UNUSED, NULL, [], 2, false)];
    Create(t, 16, Boot(), b, [2, 3, 4], 1);
    assert [2, 3, 4][1..] == [3, 4];
    ghost var l2 := Below(l1, 8, 16);
    Start(t, 16, l1, c, [3, 4], 1);
    ghost var l3 := l2[24 := Line(UNUSED, NULL, [], 3, false)];
    Create(t, 24, l2, c, [3, 4], 2);
    assert [3, 4][1..] == [4] && c[24 := 2] == Births(3);
    ghost var l4 := Below(l3, 8, 24);
    Start(t, 24, l3, Births(3), [4], 2);
    assert l4[8].children == [24, 16];
    Leave(t, 16, l4, Births(3), [4], 3);
    assert [2] + [4] == [2, 4] && Left(l4, 16) == Half();
  }

  // The second creates a process, which gets the pid of the first, and exits.
  method SecondHalf(t: Tree)
    requires Stage(t, Half(), Births(3), [2, 4], 3)
    modifies t
    ensures Stage(t, End(), Births(4), [3, 4], 4)
  {
    hide Stage, Left;
    ghost var b := Births(3);
    assert |b| == 3;
    ghost var l1 := Half()[32 := Line(UNUSED, NULL, [], 2, false)];
    Create(t, 32, Half(), b, [2, 4], 3);
    assert [2, 4][1..] == [4] && b[32 := 3] == Births(4);
    ghost var l2 := Below(l1, 24, 32);
    StartChild(t, 24, 32, l1, Births(4), [4], 3);
    SecondLeft(l1);
    Leave(t, 24, l2, Births(4), [4], 4);
    assert [3] + [4] == [3, 4];
  }

  lemma SecondLeft(l: Lines)
    requires l == Half()[32 := Line(UNUSED, NULL, [], 2, false)]
    ensures 24 in l && 32 in l && Left(Below(l, 24, 32), 24) == End()
  {
    var m := Below(l, 24, 32);
    assert m[24].children == [32] && m[8].children == [24, 16];
    assert Adopted([24, 16], [32]) == [24, 16, 32];
    assert Left(m, 24).Keys == End().Keys;
  }

  // The search for pid 2 comes to the zombie first.
  lemma FindsZombie(w: World)
    requires Inv(w) && w.root == 8 && Brief(w.procs) == End()
    ensures 8 in w.procs && Find(w, 8, 2) == 16
  {
    hide Inv, Brief;
    BriefKeys(w.procs);
    assert 8 in w.procs && 16 in w.procs && 24 in w.procs;
    assert LineOf(w.procs[8]) == End()[8] && LineOf(w.procs[16]) == End()[16] && LineOf(w.procs[24]) == End()[24];
    ChildYounger(w, 8, 0);
    ChildYounger(w, 8, 1);
    assert Find(w, 24, 2) == FindIn(w, 24, 0, 2) == NULL;
    assert Find(w, 16, 2) == 16;
    assert FindIn(w, 8, 1, 2) == 16;
    assert FindIn(w, 8, 0, 2) == 16;
  }

  lemma NoLines()
    ensures Brief(map[]) == map[]
  {
  }

  // kill(2) marks the zombie 16; the living process 32, whose pid is 2, is not marked.
  method ZombieKilled() returns (t: Tree, r: int)
    ensures Inv(t.W()) && t.Held() && r == 0 && 16 in t.procs && 32 in t.procs
    ensures t.procs[16].st == ZOMBIE && t.procs[16].pid == 2 && t.procs[16].killed
    ensures t.procs[32].st == LIVE && t.procs[32].pid == 2 && !t.procs[32].killed
  {
    hide Inv, PidsOk, LocalsOk, Brief;
    t := new Tree(8, 4);
    BriefAt(map[], 8, t.procs[8]);
    NoLines();
    FirstHalf(t);
    SecondHalf(t);
    BriefKeys(t.procs);
    FindsZombie(t.W());
    r := t.Kill(2);
  }
}
