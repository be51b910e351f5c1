// Publishing two files as one: `atomic_write_pair` and `recover_pending_pair`
// (_keyfiles.py) as the exact sequence of calls they make, cut short anywhere.

module PairPublish {
  import opened Base
  import opened PairDisk

  /** The two published files and the journal; their directories may coincide. */
  datatype Layout = Layout(a: Path, b: Path, journal: Path)

  datatype Temps = Temps(a: Path, b: Path, j: Path)

  /** What the two files hold. */
  datatype Pair = Pair(a: Option<Content>, b: Option<Content>)

  predicate Apart(l: Layout) { l.a != l.b && l.a != l.journal && l.b != l.journal }

  /** `mkstemp` names: in the right directories, distinct, never a published name. */
  predicate Named(l: Layout, t: Temps) {
    && t.a.dir == l.a.dir && t.b.dir == l.b.dir && t.j.dir == l.journal.dir
    && t.a != t.b && t.a != t.j && t.b != t.j
    && {t.a, t.b, t.j} !! {l.a, l.b, l.journal}
  }

  function JournalOf(l: Layout, t: Temps): Content { Journal([Item(t.a, l.a), Item(t.b, l.b)]) }

  // ---- The calls ----

  /** `_fsync_dir(parent_a)`, then `parent_b` when it is another directory. */
  function Parents(l: Layout): seq<DirId> { if l.b.dir == l.a.dir then [l.a.dir] else [l.a.dir, l.b.dir] }

  /** Exactly the directories of the two files, each of them once. */
  lemma ParentsOnce(l: Layout)
    ensures forall d :: d in Parents(l) <==> d == l.a.dir || d == l.b.dir
    ensures forall i, j | 0 <= i < j < |Parents(l)| :: Parents(l)[i] != Parents(l)[j]
  {
  }

  function SyncCalls(dirs: seq<DirId>): (r: seq<Call>)
    ensures |r| == |dirs| && forall i | 0 <= i < |r| :: r[i] == SyncDir(dirs[i])
  {
    if dirs == [] then [] else [SyncDir(dirs[0])] + SyncCalls(dirs[1..])
  }

  /** Up to and including the commit point: temps durable, then the journal. */
  function PrepareCalls(l: Layout, t: Temps, x: nat, y: nat): seq<Call> {
    [Make(t.a), Fill(t.a, Bytes(x)), Make(t.b), Fill(t.b, Bytes(y))] + SyncCalls(Parents(l))
    + [Make(t.j), Fill(t.j, JournalOf(l, t)), Rename(t.j, l.journal), SyncDir(l.journal.dir)]
  }

  /** What follows the commit point, and what recovery does with the journal it
      reads: renames of the temps that still exist, fsyncs, and the journal removed. */
  function FinishCalls(l: Layout, t: Temps, dirs: seq<DirId>): seq<Call> {
    [Rename(t.a, l.a), Rename(t.b, l.b)] + SyncCalls(dirs) + [Remove(l.journal), SyncDir(l.journal.dir)]
  }

  function PublishCalls(l: Layout, t: Temps, x: nat, y: nat): seq<Call> {
    PrepareCalls(l, t, x, y) + FinishCalls(l, t, Parents(l))
  }

  /** Recovery fsyncs the targets' directories in some order. */
  predicate Covers(l: Layout, dirs: seq<DirId>) { l.a.dir in dirs && l.b.dir in dirs }

  // ---- What a disk can hold ----

  predicate Holds(r: Files, l: Layout, p: Pair) { At(r, l.a) == p.a && At(r, l.b) == p.b }

  predicate Arrives(r: Files, tmp: Path, target: Path, c: Option<Content>) {
    (c.Some? && At(r, tmp) == c) || (tmp !in r && At(r, target) == c)
  }

  /** The journal is there and every file of `p` is in place or still in its temp. */
  predicate Pending(r: Files, l: Layout, t: Temps, p: Pair) {
    && At(r, l.journal) == Some(JournalOf(l, t))
    && Arrives(r, t.a, l.a, p.a) && Arrives(r, t.b, l.b, p.b)
  }

  /** `p` is published; a journal left over names only temps that are gone for good. */
  ghost predicate Quiet(r: Files, l: Layout, p: Pair, gone: set<Path>) {
    && Holds(r, l, p)
    && (l.journal !in r || exists t: Temps :: Stale(r, l, t, gone))
  }

  predicate Stale(r: Files, l: Layout, t: Temps, gone: set<Path>) {
    At(r, l.journal) == Some(JournalOf(l, t)) && Named(l, t) && t.a in gone && t.b in gone
  }

  predicate Absent(r: Files, gone: set<Path>) { forall p | p in gone :: p !in r }

  ghost predicate Sound(disk: Disk, l: Layout, gone: set<Path>) {
    && Local(disk) && Apart(l) && gone !! {l.a, l.b, l.journal}
    && forall r :: Outcome(disk, r) ==> Absent(r, gone)
  }

  /** No journal is in sight, and whatever a power loss leaves has `p` published. */
  ghost predicate AllQuiet(disk: Disk, l: Layout, p: Pair, gone: set<Path>) {
    && Sound(disk, l, gone) && l.journal !in View(disk)
    && forall r :: Outcome(disk, r) ==> Quiet(r, l, p, gone)
  }

  ghost predicate AllPending(disk: Disk, l: Layout, t: Temps, p: Pair, gone: set<Path>) {
    && Sound(disk, l, gone) && Named(l, t)
    && forall r :: Outcome(disk, r) ==> Pending(r, l, t, p)
  }

  // ---- One operation ----

  predicate Adds(op: DirOp, p: Path) {
    match op
    case Link(at, _) => at == p
    case Replace(_, onto, _) => onto == p
    case Unlink(_) => false
  }

  lemma PushSound(disk: Disk, op: DirOp, l: Layout, gone: set<Path>)
    requires Sound(disk, l, gone) && OneDir(op) && forall p | p in gone :: !Adds(op, p)
    ensures Sound(Push(disk, op), l, gone)
  {
    var d := Push(disk, op);
    forall r | Outcome(d, r) ensures Absent(r, gone) {
      var r0 := PushOutcome(disk, op, r);
    }
  }

  lemma SyncSound(disk: Disk, d: DirId, l: Layout, gone: set<Path>)
    requires Sound(disk, l, gone)
    ensures Sound(Sync(disk, d), l, gone)
  {
    SyncKeepsView(disk, d);
    forall r | Outcome(Sync(disk, d), r) ensures Absent(r, gone) { SyncOutcome(disk, d, r); }
  }

  /** An operation on other names keeps what is published. */
  lemma PushQuiet(disk: Disk, op: DirOp, l: Layout, p: Pair, gone: set<Path>)
    requires AllQuiet(disk, l, p, gone) && OneDir(op) && forall q | q in gone :: !Adds(op, q)
    requires !Touches(op, l.a) && !Touches(op, l.b) && !Touches(op, l.journal)
    ensures AllQuiet(Push(disk, op), l, p, gone)
  {
    var d := Push(disk, op);
    PushSound(disk, op, l, gone);
    PushView(disk, op);
    forall r | Outcome(d, r) ensures Quiet(r, l, p, gone) {
      var r0 := PushOutcome(disk, op, r);
      assert Quiet(r0, l, p, gone);
      if t: Temps :| Stale(r0, l, t, gone) { assert Stale(r, l, t, gone); }
    }
  }

  lemma SyncQuiet(disk: Disk, d: DirId, l: Layout, p: Pair, gone: set<Path>)
    requires AllQuiet(disk, l, p, gone)
    ensures AllQuiet(Sync(disk, d), l, p, gone)
  {
    SyncSound(disk, d, l, gone);
    SyncKeepsView(disk, d);
    forall r | Outcome(Sync(disk, d), r) ensures Quiet(r, l, p, gone) { SyncOutcome(disk, d, r); }
  }

  // ---- Staging a temp file ----

  /** Making and filling a temp, stopped before or after its data is fsynced. */
  lemma StageQuiet(disk: Disk, at: Path, c: Content, l: Layout, p: Pair, gone: set<Path>)
    requires AllQuiet(disk, l, p, gone) && at !in gone && at !in {l.a, l.b, l.journal}
    ensures var d1 := Exec(disk, Make(at));
            && AllQuiet(d1, l, p, gone) && AllQuiet(Exec(d1, Fill(at, c)), l, p, gone)
            && Exec(d1, Fill(at, c)) == Push(disk, Link(at, c))
  {
    PushQuiet(disk, Link(at, Torn), l, p, gone);
    PushQuiet(disk, Link(at, c), l, p, gone);
    var d1 := Exec(disk, Make(at));
    assert d1.pending[..|d1.pending| - 1] == disk.pending;
  }

  /** In every outcome this name holds this content. */
  ghost predicate Fixed(disk: Disk, at: Path, c: Option<Content>) {
    forall r :: Outcome(disk, r) ==> At(r, at) == c
  }

  lemma SyncFixes(disk: Disk, d: DirId, at: Path)
    requires Local(disk) && at.dir == d
    ensures Fixed(Sync(disk, d), at, At(View(disk), at))
  {
    forall r | Outcome(Sync(disk, d), r) ensures At(r, at) == At(View(disk), at) { SyncOutcome(disk, d, r); }
  }

  lemma SyncKeepsFixed(disk: Disk, d: DirId, at: Path, c: Option<Content>)
    requires Local(disk) && Fixed(disk, at, c)
    ensures Fixed(Sync(disk, d), at, c)
  {
    forall r | Outcome(Sync(disk, d), r) ensures At(r, at) == c { SyncOutcome(disk, d, r); }
  }

  lemma PushKeepsFixed(disk: Disk, op: DirOp, at: Path, c: Option<Content>)
    requires Fixed(disk, at, c) && !Touches(op, at)
    ensures Fixed(Push(disk, op), at, c)
  {
    forall r | Outcome(Push(disk, op), r) ensures At(r, at) == c {
      var r0 := PushOutcome(disk, op, r);
    }
  }

  // ---- Runs of calls ----

  lemma ExecPrefix(disk: Disk, calls: seq<Call>, i: nat)
    requires i < |calls|
    ensures ExecAll(disk, calls[..i + 1]) == Exec(ExecAll(disk, calls[..i]), calls[i])
  {
    assert calls[..i + 1][..i] == calls[..i];
  }

  lemma {:induction false} ExecAppend(disk: Disk, first: seq<Call>, more: seq<Call>)
    ensures ExecAll(disk, first + more) == ExecAll(ExecAll(disk, first), more)
    decreases |more|
  {
    if more == [] {
      assert first + more == first;
    } else {
      var k := |more| - 1;
      assert (first + more)[..|first + more| - 1] == first + more[..k] && (first + more)[|first + more| - 1] == more[k];
      ExecAppend(disk, first, more[..k]);
    }
  }

  // ---- Before the commit point ----

  /** Two staged temps and their directories synced. */
  ghost predicate Staged(disk: Disk, t: Temps, x: nat, y: nat) {
    Fixed(disk, t.a, Some(Bytes(x))) && Fixed(disk, t.b, Some(Bytes(y)))
  }

  ghost predicate NewTemps(l: Layout, t: Temps, gone: set<Path>) {
    Named(l, t) && {t.a, t.b, t.j} !! gone
  }

  /** After `i` of the first calls: the old pair is untouched; once the parents
      are synced, both temps are durable. */
  ghost predicate StagePoint(disk: Disk, l: Layout, t: Temps, x: nat, y: nat, p: Pair, gone: set<Path>, i: nat) {
    && AllQuiet(disk, l, p, gone)
    && (2 <= i ==> At(View(disk), t.a) == Some(Bytes(x)))
    && (4 <= i ==> At(View(disk), t.b) == Some(Bytes(y)))
    && (i == 1 ==> disk.pending != [] && disk.pending[|disk.pending| - 1] == Link(t.a, Torn) && AllQuiet(disk.(pending := disk.pending[..|disk.pending| - 1]), l, p, gone))
    && (i == 3 ==> disk.pending != [] && disk.pending[|disk.pending| - 1] == Link(t.b, Torn)
                   && AllQuiet(disk.(pending := disk.pending[..|disk.pending| - 1]), l, p, gone)
                   && At(View(disk.(pending := disk.pending[..|disk.pending| - 1])), t.a) == Some(Bytes(x)))
    && (5 <= i ==> Fixed(disk, t.a, Some(Bytes(x))))
    && (i == 4 + |Parents(l)| ==> Fixed(disk, t.b, Some(Bytes(y))))
  }

  lemma StageStep(disk: Disk, l: Layout, t: Temps, x: nat, y: nat, p: Pair, gone: set<Path>, i: nat)
    requires NewTemps(l, t, gone) && i < 4
    requires StagePoint(disk, l, t, x, y, p, gone, i)
    ensures StagePoint(Exec(disk, PrepareCalls(l, t, x, y)[i]), l, t, x, y, p, gone, i + 1)
  {
    var call := PrepareCalls(l, t, x, y)[i];
    var d := Exec(disk, call);
    if i == 0 || i == 2 {
      var at := if i == 0 then t.a else t.b;
      PushQuiet(disk, Link(at, Torn), l, p, gone);
      PushView(disk, Link(at, Torn));
      assert d.pending[..|d.pending| - 1] == disk.pending;
    } else {
      var before := disk.(pending := disk.pending[..|disk.pending| - 1]);
      var op := if i == 1 then Link(t.a, Bytes(x)) else Link(t.b, Bytes(y));
      assert d == Push(before, op);
      PushQuiet(before, op, l, p, gone);
      PushView(before, op);
    }
  }

  lemma ParentStep(disk: Disk, l: Layout, t: Temps, x: nat, y: nat, p: Pair, gone: set<Path>, i: nat)
    requires NewTemps(l, t, gone) && 4 <= i < 4 + |Parents(l)|
    requires StagePoint(disk, l, t, x, y, p, gone, i)
    ensures PrepareCalls(l, t, x, y)[i] == SyncDir(Parents(l)[i - 4])
    ensures StagePoint(Exec(disk, PrepareCalls(l, t, x, y)[i]), l, t, x, y, p, gone, i + 1)
  {
    var dir := Parents(l)[i - 4];
    SyncQuiet(disk, dir, l, p, gone);
    SyncKeepsView(disk, dir);
    if i == 4 { SyncFixes(disk, dir, t.a); } else { SyncKeepsFixed(disk, dir, t.a, Some(Bytes(x))); }
    if dir == l.b.dir { SyncFixes(disk, dir, t.b); }
  }

  lemma {:induction false} StagePrefix(disk: Disk, l: Layout, t: Temps, x: nat, y: nat, p: Pair, gone: set<Path>, i: nat)
    requires AllQuiet(disk, l, p, gone) && NewTemps(l, t, gone) && i <= 4 + |Parents(l)|
    ensures StagePoint(ExecAll(disk, PrepareCalls(l, t, x, y)[..i]), l, t, x, y, p, gone, i)
    decreases i
  {
    var calls := PrepareCalls(l, t, x, y);
    if i == 0 {
      StageStart(disk, l, t, x, y, p, gone);
    } else {
      StagePrefix(disk, l, t, x, y, p, gone, i - 1);
      ExecPrefix(disk, calls, i - 1);
      StageNext(ExecAll(disk, calls[..i - 1]), l, t, x, y, p, gone, i - 1);
    }
  }

  lemma StageStart(disk: Disk, l: Layout, t: Temps, x: nat, y: nat, p: Pair, gone: set<Path>)
    requires AllQuiet(disk, l, p, gone)
    ensures StagePoint(disk, l, t, x, y, p, gone, 0) && ExecAll(disk, PrepareCalls(l, t, x, y)[..0]) == disk
  {
  }

  lemma StageNext(disk: Disk, l: Layout, t: Temps, x: nat, y: nat, p: Pair, gone: set<Path>, i: nat)
    requires NewTemps(l, t, gone) && i < 4 + |Parents(l)| && StagePoint(disk, l, t, x, y, p, gone, i)
    ensures StagePoint(Exec(disk, PrepareCalls(l, t, x, y)[i]), l, t, x, y, p, gone, i + 1)
  {
    if i < 4 { StageStep(disk, l, t, x, y, p, gone, i); } else { ParentStep(disk, l, t, x, y, p, gone, i); }
  }

  function New(x: nat, y: nat): Pair { Pair(Some(Bytes(x)), Some(Bytes(y))) }

  /** The journal's own staging leaves the old pair published and the temps durable. */
  lemma JournalStaged(disk: Disk, l: Layout, t: Temps, x: nat, y: nat, p: Pair, gone: set<Path>)
    requires NewTemps(l, t, gone) && AllQuiet(disk, l, p, gone) && Staged(disk, t, x, y)
    ensures var d1 := Exec(disk, Make(t.j)); var d2 := Exec(d1, Fill(t.j, JournalOf(l, t)));
            && AllQuiet(d1, l, p, gone) && AllQuiet(d2, l, p, gone) && Staged(d2, t, x, y)
            && At(View(d2), t.j) == Some(JournalOf(l, t))
  {
    StageQuiet(disk, t.j, JournalOf(l, t), l, p, gone);
    var op := Link(t.j, JournalOf(l, t));
    PushKeepsFixed(disk, op, t.a, Some(Bytes(x)));
    PushKeepsFixed(disk, op, t.b, Some(Bytes(y)));
    PushView(disk, op);
  }

  /** Until its directory is synced the journal may or may not survive; with it the
      new pair is pending, without it the old one is published. */
  lemma JournalRenamed(disk: Disk, l: Layout, t: Temps, x: nat, y: nat, p: Pair, gone: set<Path>)
    requires NewTemps(l, t, gone) && AllQuiet(disk, l, p, gone) && Staged(disk, t, x, y)
    requires At(View(disk), t.j) == Some(JournalOf(l, t))
    ensures var d := Exec(disk, Rename(t.j, l.journal));
            && Sound(d, l, gone) && Staged(d, t, x, y) && At(View(d), l.journal) == Some(JournalOf(l, t))
            && forall r :: Outcome(d, r) ==> Quiet(r, l, p, gone) || Pending(r, l, t, New(x, y))
  {
    var op := Replace(t.j, l.journal, JournalOf(l, t));
    var d := Push(disk, op);
    PushSound(disk, op, l, gone);
    PushView(disk, op);
    PushKeepsFixed(disk, op, t.a, Some(Bytes(x)));
    PushKeepsFixed(disk, op, t.b, Some(Bytes(y)));
    forall r | Outcome(d, r) ensures Quiet(r, l, p, gone) || Pending(r, l, t, New(x, y)) {
      var r0 := PushOutcome(disk, op, r);
    }
  }

  /** The commit point. */
  lemma JournalSynced(disk: Disk, l: Layout, t: Temps, x: nat, y: nat, gone: set<Path>)
    requires Sound(disk, l, gone) && Named(l, t) && Staged(disk, t, x, y) && At(View(disk), l.journal) == Some(JournalOf(l, t))
    ensures AllPending(Exec(disk, SyncDir(l.journal.dir)), l, t, New(x, y), gone)
  {
    var d := l.journal.dir;
    SyncSound(disk, d, l, gone);
    SyncFixes(disk, d, l.journal);
    SyncKeepsFixed(disk, d, t.a, Some(Bytes(x)));
    SyncKeepsFixed(disk, d, t.b, Some(Bytes(y)));
  }

  /** How many calls have been made when the journal is renamed but not yet synced. */
  function Window(l: Layout): nat { 7 + |Parents(l)| }

  /** The last four calls before the commit point. */
  lemma JournalCalls(disk: Disk, l: Layout, t: Temps, x: nat, y: nat, d0: Disk)
    requires d0 == ExecAll(disk, PrepareCalls(l, t, x, y)[..4 + |Parents(l)|])
    ensures var calls := PrepareCalls(l, t, x, y); var k := 4 + |Parents(l)|;
            var d1 := Exec(d0, Make(t.j)); var d2 := Exec(d1, Fill(t.j, JournalOf(l, t)));
            && |calls| == k + 4
            && ExecAll(disk, calls[..k + 1]) == d1 && ExecAll(disk, calls[..k + 2]) == d2
            && ExecAll(disk, calls[..k + 3]) == Exec(d2, Rename(t.j, l.journal))
            && ExecAll(disk, calls[..k + 4]) == Exec(Exec(d2, Rename(t.j, l.journal)), SyncDir(l.journal.dir))
  {
    var calls := PrepareCalls(l, t, x, y);
    var k := 4 + |Parents(l)|;
    ExecPrefix(disk, calls, k);
    ExecPrefix(disk, calls, k + 1);
    ExecPrefix(disk, calls, k + 2);
    ExecPrefix(disk, calls, k + 3);
  }

  /** A publish stopped before its journal is durable leaves the old pair. */
  lemma BeforeJournal(disk: Disk, l: Layout, t: Temps, x: nat, y: nat, p: Pair, gone: set<Path>, i: nat)
    requires AllQuiet(disk, l, p, gone) && NewTemps(l, t, gone) && i < Window(l)
    ensures AllQuiet(ExecAll(disk, PrepareCalls(l, t, x, y)[..i]), l, p, gone)
  {
    var k := 4 + |Parents(l)|;
    if i <= k {
      StagePrefix(disk, l, t, x, y, p, gone, i);
    } else {
      StagePrefix(disk, l, t, x, y, p, gone, k);
      JournalMade(disk, l, t, x, y, p, gone);
    }
  }

  lemma JournalMade(disk: Disk, l: Layout, t: Temps, x: nat, y: nat, p: Pair, gone: set<Path>)
    requires NewTemps(l, t, gone)
    requires StagePoint(ExecAll(disk, PrepareCalls(l, t, x, y)[..4 + |Parents(l)|]), l, t, x, y, p, gone, 4 + |Parents(l)|)
    ensures AllQuiet(ExecAll(disk, PrepareCalls(l, t, x, y)[..5 + |Parents(l)|]), l, p, gone)
    ensures AllQuiet(ExecAll(disk, PrepareCalls(l, t, x, y)[..6 + |Parents(l)|]), l, p, gone)
  {
    var d0 := ExecAll(disk, PrepareCalls(l, t, x, y)[..4 + |Parents(l)|]);
    JournalCalls(disk, l, t, x, y, d0);
    JournalStaged(d0, l, t, x, y, p, gone);
  }

  /** At the one point where the journal is renamed but not synced, a power loss
      leaves either pair; one call later only the new one. */
  lemma AtJournal(disk: Disk, l: Layout, t: Temps, x: nat, y: nat, p: Pair, gone: set<Path>)
    requires AllQuiet(disk, l, p, gone) && NewTemps(l, t, gone)
    ensures var d := ExecAll(disk, PrepareCalls(l, t, x, y)[..Window(l)]);
            && Sound(d, l, gone) && At(View(d), l.journal) == Some(JournalOf(l, t)) && Staged(d, t, x, y)
            && forall r :: Outcome(d, r) ==> Quiet(r, l, p, gone) || Pending(r, l, t, New(x, y))
    ensures AllPending(ExecAll(disk, PrepareCalls(l, t, x, y)), l, t, New(x, y), gone)
  {
    var calls := PrepareCalls(l, t, x, y);
    var k := 4 + |Parents(l)|;
    StagePrefix(disk, l, t, x, y, p, gone, k);
    var d0 := ExecAll(disk, calls[..k]);
    JournalCalls(disk, l, t, x, y, d0);
    JournalStaged(d0, l, t, x, y, p, gone);
    var d2 := Exec(Exec(d0, Make(t.j)), Fill(t.j, JournalOf(l, t)));
    JournalRenamed(d2, l, t, x, y, p, gone);
    JournalSynced(Exec(d2, Rename(t.j, l.journal)), l, t, x, y, gone);
    assert calls[..k + 4] == calls;
  }

  // ---- From the commit point on, and recovery ----

  lemma ViewPending(disk: Disk, l: Layout, t: Temps, p: Pair, gone: set<Path>)
    requires AllPending(disk, l, t, p, gone)
    ensures Pending(View(disk), l, t, p)
  {
    ViewIsOutcome(disk);
  }

  /** Renaming a temp that still exists keeps the pair pending and puts the file in place. */
  lemma FinishRename(disk: Disk, l: Layout, t: Temps, p: Pair, gone: set<Path>, first: bool)
    requires AllPending(disk, l, t, p, gone)
    ensures var (tmp, target) := if first then (t.a, l.a) else (t.b, l.b);
            var d := Exec(disk, Rename(tmp, target));
            && AllPending(d, l, t, p, gone) && tmp !in View(d)
            && (first ==> At(View(d), l.a) == p.a && (t.b !in View(disk) ==> t.b !in View(d)))
            && (!first ==> At(View(d), l.b) == p.b && (t.a !in View(disk) ==> t.a !in View(d)) && At(View(d), l.a) == At(View(disk), l.a))
  {
    var (tmp, target) := if first then (t.a, l.a) else (t.b, l.b);
    ViewPending(disk, l, t, p, gone);
    if tmp in View(disk) {
      var op := Replace(tmp, target, View(disk)[tmp]);
      var d := Push(disk, op);
      PushView(disk, op);
      PushSound(disk, op, l, gone);
      forall r | Outcome(d, r) ensures Pending(r, l, t, p) {
        var r0 := PushOutcome(disk, op, r);
      }
    }
  }

  /** Both files are in place and both temps gone, durably for the synced directories. */
  ghost predicate Placed(disk: Disk, l: Layout, t: Temps, p: Pair, gone: set<Path>, synced: seq<DirId>) {
    && AllPending(disk, l, t, p, gone)
    && t.a !in View(disk) && t.b !in View(disk) && Holds(View(disk), l, p)
    && (l.a.dir in synced ==> Fixed(disk, t.a, None) && Fixed(disk, l.a, p.a))
    && (l.b.dir in synced ==> Fixed(disk, t.b, None) && Fixed(disk, l.b, p.b))
  }

  lemma FinishSync(disk: Disk, l: Layout, t: Temps, p: Pair, gone: set<Path>, synced: seq<DirId>, d: DirId)
    requires Placed(disk, l, t, p, gone, synced)
    ensures Placed(Sync(disk, d), l, t, p, gone, synced + [d])
  {
    SyncSound(disk, d, l, gone);
    SyncKeepsView(disk, d);
    forall r | Outcome(Sync(disk, d), r) ensures Pending(r, l, t, p) { SyncOutcome(disk, d, r); }
    if d == l.a.dir {
      SyncFixes(disk, d, t.a);
      SyncFixes(disk, d, l.a);
    } else if l.a.dir in synced {
      SyncKeepsFixed(disk, d, t.a, None);
      SyncKeepsFixed(disk, d, l.a, p.a);
    }
    if d == l.b.dir {
      SyncFixes(disk, d, t.b);
      SyncFixes(disk, d, l.b);
    } else if l.b.dir in synced {
      SyncKeepsFixed(disk, d, t.b, None);
      SyncKeepsFixed(disk, d, l.b, p.b);
    }
  }

  function Retired(t: Temps, gone: set<Path>): set<Path> { gone + {t.a, t.b} }

  /** Removing the journal: with or without it, the pair is published. */
  lemma FinishRemove(disk: Disk, l: Layout, t: Temps, p: Pair, gone: set<Path>, synced: seq<DirId>)
    requires Placed(disk, l, t, p, gone, synced) && Covers(l, synced)
    ensures AllQuiet(Exec(disk, Remove(l.journal)), l, p, Retired(t, gone))
  {
    var op := Unlink(l.journal);
    var d := Push(disk, op);
    PushView(disk, op);
    PushSound(disk, op, l, gone);
    forall r | Outcome(d, r) ensures Quiet(r, l, p, Retired(t, gone)) && Absent(r, Retired(t, gone)) {
      var r0 := PushOutcome(disk, op, r);
      assert At(r0, t.a) == None && At(r0, t.b) == None;
      assert Absent(r, gone);
      if l.journal in r { assert Stale(r, l, t, Retired(t, gone)); }
    }
  }

  ghost predicate FinishPoint(disk: Disk, l: Layout, t: Temps, p: Pair, gone: set<Path>, dirs: seq<DirId>, i: nat)
    requires i <= 4 + |dirs|
  {
    if i <= 2 + |dirs| then
      && AllPending(disk, l, t, p, gone)
      && (1 <= i ==> t.a !in View(disk) && At(View(disk), l.a) == p.a)
      && (2 <= i ==> Placed(disk, l, t, p, gone, dirs[..i - 2]))
    else AllQuiet(disk, l, p, Retired(t, gone))
  }

  lemma {:induction false} FinishPrefix(disk: Disk, l: Layout, t: Temps, p: Pair, gone: set<Path>, dirs: seq<DirId>, i: nat)
    requires AllPending(disk, l, t, p, gone) && Covers(l, dirs) && i <= 4 + |dirs|
    ensures |FinishCalls(l, t, dirs)| == 4 + |dirs|
    ensures FinishPoint(ExecAll(disk, FinishCalls(l, t, dirs)[..i]), l, t, p, gone, dirs, i)
    decreases i
  {
    var calls := FinishCalls(l, t, dirs);
    if i > 0 {
      FinishPrefix(disk, l, t, p, gone, dirs, i - 1);
      ExecPrefix(disk, calls, i - 1);
      FinishStep(ExecAll(disk, calls[..i - 1]), l, t, p, gone, dirs, i - 1);
    }
  }

  lemma FinishStep(disk: Disk, l: Layout, t: Temps, p: Pair, gone: set<Path>, dirs: seq<DirId>, i: nat)
    requires Covers(l, dirs) && i < 4 + |dirs| && FinishPoint(disk, l, t, p, gone, dirs, i)
    ensures FinishPoint(Exec(disk, FinishCalls(l, t, dirs)[i]), l, t, p, gone, dirs, i + 1)
  {
    if i == 0 {
      FinishRename(disk, l, t, p, gone, true);
    } else if i == 1 {
      FinishRename(disk, l, t, p, gone, false);
    } else if i < 2 + |dirs| {
      assert FinishCalls(l, t, dirs)[i] == SyncDir(dirs[i - 2]);
      FinishSync(disk, l, t, p, gone, dirs[..i - 2], dirs[i - 2]);
      assert dirs[..i - 1] == dirs[..i - 2] + [dirs[i - 2]];
    } else if i == 2 + |dirs| {
      assert dirs[..|dirs|] == dirs;
      FinishRemove(disk, l, t, p, gone, dirs);
    } else {
      SyncQuiet(disk, l.journal.dir, l, p, Retired(t, gone));
      SyncKeepsView(disk, l.journal.dir);
    }
  }
}
