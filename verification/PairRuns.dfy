// Unbounded runs of publishes and recoveries, each stopped after any number of
// calls by a power loss or a kill, or completed.

module PairRuns {
  import opened Base
  import opened PairDisk
  import opened PairPublish

  /** A kill ends the process and leaves volatile operations volatile; a power loss
      also drops any subset of them. */
  datatype End = Returned | Killed | PowerLoss(left: Files)

  datatype Episode =
    | Publish(t: Temps, x: nat, y: nat, stop: nat, end: End)
    | Recover(dirs: seq<DirId>, stop: nat, end: End)

  /** `up` while nothing interrupted awaits recovery; `used` are the temp names drawn so far. */
  datatype Sys = Sys(disk: Disk, up: bool, used: set<Path>)

  function RenameCalls(files: seq<Item>): seq<Call> {
    if files == [] then [] else [Rename(files[0].tmp, files[0].target)] + RenameCalls(files[1..])
  }

  /** The calls of `recover_pending_pair` for the entries it read. */
  function RecoverCalls(files: seq<Item>, dirs: seq<DirId>, journal: Path): seq<Call> {
    RenameCalls(files) + SyncCalls(dirs) + [Remove(journal), SyncDir(journal.dir)]
  }

  /** No journal: nothing to do.  An unreadable journal is refused before any call. */
  function Plan(m: Files, l: Layout, dirs: seq<DirId>): seq<Call> {
    if l.journal in m && m[l.journal].Journal? then RecoverCalls(m[l.journal].files, dirs, l.journal) else []
  }

  function Calls(s: Sys, l: Layout, e: Episode): seq<Call> {
    match e
    case Publish(t, x, y, _, _) => PublishCalls(l, t, x, y)
    case Recover(dirs, _, _) => Plan(View(s.disk), l, dirs)
  }

  /** A publish runs only after a completed recovery and draws new temp names.  The
      one stop excluded is a kill between the journal's rename and its fsync. */
  ghost predicate Legal(s: Sys, l: Layout, e: Episode) {
    && e.stop <= |Calls(s, l, e)|
    && (e.end == Returned ==> e.stop == |Calls(s, l, e)|)
    && (e.end.PowerLoss? ==> Outcome(ExecAll(s.disk, Calls(s, l, e)[..e.stop]), e.end.left))
    && (e.Publish? ==>
          && s.up && Named(l, e.t) && {e.t.a, e.t.b, e.t.j} !! s.used
          && (e.end == Killed ==> e.stop != Window(l)))
    && (e.Recover? ==> Covers(l, e.dirs))
  }

  function After(s: Sys, l: Layout, e: Episode): Sys
    requires e.stop <= |Calls(s, l, e)|
  {
    Ended(ExecAll(s.disk, Calls(s, l, e)[..e.stop]), e.end, if e.Publish? then s.used + {e.t.a, e.t.b, e.t.j} else s.used)
  }

  function Ended(d: Disk, end: End, used: set<Path>): Sys {
    match end
    case Returned => Sys(d, true, used)
    case Killed => Sys(d, false, used)
    case PowerLoss(left) => Sys(Disk(left, []), false, used)
  }

  /** Whether this episode commits its pair: its journal became durable. */
  predicate Commits(l: Layout, e: Episode) {
    && e.Publish?
    && (e.stop > Window(l)
        || (e.stop == Window(l) && e.end.PowerLoss? && At(e.end.left, l.journal) == Some(JournalOf(l, e.t))))
  }

  /** The pair that counts as published. */
  function Published(l: Layout, p: Pair, e: Episode): Pair { if Commits(l, e) then New(e.x, e.y) else p }

  // ---- The invariant ----

  ghost predicate SysOk(s: Sys, l: Layout, p: Pair, gone: set<Path>) {
    && gone <= s.used
    && (AllQuiet(s.disk, l, p, gone) || (!s.up && exists t: Temps :: Unfinished(s, l, t, p, gone)))
  }

  ghost predicate Unfinished(s: Sys, l: Layout, t: Temps, p: Pair, gone: set<Path>) {
    AllPending(s.disk, l, t, p, gone) && t.a in s.used && t.b in s.used
  }

  lemma OnlyOutcome(left: Files)
    ensures forall r :: Outcome(Disk(left, []), r) <==> r == left
    ensures View(Disk(left, [])) == left && Local(Disk(left, []))
  {
  }

  lemma LossQuiet(d: Disk, l: Layout, p: Pair, gone: set<Path>, left: Files, used: set<Path>)
    requires Sound(d, l, gone) && Outcome(d, left) && Quiet(left, l, p, gone) && gone <= used
    ensures SysOk(Sys(Disk(left, []), false, used), l, p, gone)
  {
    OnlyOutcome(left);
    if l.journal in left {
      var t: Temps :| Stale(left, l, t, gone);
      assert Unfinished(Sys(Disk(left, []), false, used), l, t, p, gone);
    }
  }

  lemma LossPending(d: Disk, l: Layout, t: Temps, p: Pair, gone: set<Path>, left: Files, used: set<Path>)
    requires Sound(d, l, gone) && Named(l, t) && Outcome(d, left) && Pending(left, l, t, p) && gone <= used && t.a in used && t.b in used
    ensures SysOk(Sys(Disk(left, []), false, used), l, p, gone)
  {
    OnlyOutcome(left);
    assert Unfinished(Sys(Disk(left, []), false, used), l, t, p, gone);
  }

  // ---- Stopping the second half anywhere ----

  lemma FinishStopped(d0: Disk, l: Layout, t: Temps, p: Pair, gone: set<Path>, dirs: seq<DirId>, i: nat, end: End, used: set<Path>) returns (gone': set<Path>)
    requires AllPending(d0, l, t, p, gone) && Covers(l, dirs) && i <= |FinishCalls(l, t, dirs)|
    requires end == Returned ==> i == |FinishCalls(l, t, dirs)|
    requires end.PowerLoss? ==> Outcome(ExecAll(d0, FinishCalls(l, t, dirs)[..i]), end.left)
    requires gone <= used && t.a in used && t.b in used
    ensures SysOk(Ended(ExecAll(d0, FinishCalls(l, t, dirs)[..i]), end, used), l, p, gone')
  {
    FinishPrefix(d0, l, t, p, gone, dirs, if i <= 4 + |dirs| then i else 0);
    var d := ExecAll(d0, FinishCalls(l, t, dirs)[..i]);
    if i <= 2 + |dirs| {
      gone' := gone;
      if end.PowerLoss? {
        LossPending(d, l, t, p, gone, end.left, used);
      } else if end == Killed {
        assert Unfinished(Sys(d, false, used), l, t, p, gone);
      }
    } else {
      gone' := Retired(t, gone);
      if end.PowerLoss? { LossQuiet(d, l, p, gone', end.left, used); }
    }
  }

  lemma PublishSplit(l: Layout, t: Temps, x: nat, y: nat, i: nat)
    requires i <= |PublishCalls(l, t, x, y)|
    ensures |PrepareCalls(l, t, x, y)| == Window(l) + 1
    ensures i <= Window(l) + 1 ==> PublishCalls(l, t, x, y)[..i] == PrepareCalls(l, t, x, y)[..i]
    ensures i > Window(l) ==> i - (Window(l) + 1) <= |FinishCalls(l, t, Parents(l))|
                              && PublishCalls(l, t, x, y)[..i] == PrepareCalls(l, t, x, y) + FinishCalls(l, t, Parents(l))[..i - (Window(l) + 1)]
  {
  }

  lemma PublishStep(s: Sys, l: Layout, p: Pair, gone: set<Path>, e: Episode) returns (gone': set<Path>)
    requires SysOk(s, l, p, gone) && e.Publish? && Legal(s, l, e)
    ensures SysOk(After(s, l, e), l, Published(l, p, e), gone')
  {
    PublishSplit(l, e.t, e.x, e.y, e.stop);
    assert NewTemps(l, e.t, gone);
    if e.stop < Window(l) {
      StoppedEarly(s, l, p, gone, e);
      gone' := gone;
    } else if e.stop == Window(l) {
      AtJournal(s.disk, l, e.t, e.x, e.y, p, gone);
      InWindowLost(s, l, p, gone, e);
      gone' := gone;
    } else {
      gone' := StoppedLate(s, l, p, gone, e);
    }
  }

  lemma StoppedEarly(s: Sys, l: Layout, p: Pair, gone: set<Path>, e: Episode)
    requires SysOk(s, l, p, gone) && e.Publish? && Legal(s, l, e) && NewTemps(l, e.t, gone) && e.stop < Window(l)
    ensures SysOk(After(s, l, e), l, Published(l, p, e), gone)
  {
    PublishSplit(l, e.t, e.x, e.y, e.stop);
    BeforeJournal(s.disk, l, e.t, e.x, e.y, p, gone, e.stop);
    if e.end.PowerLoss? { LossQuiet(ExecAll(s.disk, Calls(s, l, e)[..e.stop]), l, p, gone, e.end.left, After(s, l, e).used); }
  }

  lemma StoppedLate(s: Sys, l: Layout, p: Pair, gone: set<Path>, e: Episode) returns (gone': set<Path>)
    requires SysOk(s, l, p, gone) && e.Publish? && Legal(s, l, e) && NewTemps(l, e.t, gone) && e.stop > Window(l)
    ensures SysOk(After(s, l, e), l, New(e.x, e.y), gone')
  {
    AtJournal(s.disk, l, e.t, e.x, e.y, p, gone);
    LatePrefix(s.disk, l, e.t, e.x, e.y, e.stop);
    var d0 := ExecAll(s.disk, PrepareCalls(l, e.t, e.x, e.y));
    gone' := FinishStopped(d0, l, e.t, New(e.x, e.y), gone, Parents(l), e.stop - (Window(l) + 1), e.end, After(s, l, e).used);
  }

  lemma LatePrefix(disk: Disk, l: Layout, t: Temps, x: nat, y: nat, i: nat)
    requires Window(l) < i <= |PublishCalls(l, t, x, y)|
    ensures i == |PublishCalls(l, t, x, y)| <==> i - (Window(l) + 1) == |FinishCalls(l, t, Parents(l))|
    ensures i - (Window(l) + 1) <= |FinishCalls(l, t, Parents(l))|
    ensures ExecAll(disk, PublishCalls(l, t, x, y)[..i])
            == ExecAll(ExecAll(disk, PrepareCalls(l, t, x, y)), FinishCalls(l, t, Parents(l))[..i - (Window(l) + 1)])
  {
    PublishSplit(l, t, x, y, i);
    ExecAppend(disk, PrepareCalls(l, t, x, y), FinishCalls(l, t, Parents(l))[..i - (Window(l) + 1)]);
  }

  lemma InWindowLost(s: Sys, l: Layout, p: Pair, gone: set<Path>, e: Episode)
    requires SysOk(s, l, p, gone) && e.Publish? && Legal(s, l, e) && e.stop == Window(l)
    requires var d := ExecAll(s.disk, Calls(s, l, e)[..e.stop]);
             Sound(d, l, gone) && forall r :: Outcome(d, r) ==> Quiet(r, l, p, gone) || Pending(r, l, e.t, New(e.x, e.y))
    ensures SysOk(After(s, l, e), l, Published(l, p, e), gone)
  {
    PublishSplit(l, e.t, e.x, e.y, e.stop);
    assert |PublishCalls(l, e.t, e.x, e.y)| > Window(l);
    assert e.end.PowerLoss?;
    var d := ExecAll(s.disk, Calls(s, l, e)[..e.stop]);
    var left := e.end.left;
    var used := After(s, l, e).used;
    if Commits(l, e) {
      LossPending(d, l, e.t, New(e.x, e.y), gone, left, used);
    } else {
      LossQuiet(d, l, p, gone, left, used);
    }
  }

  lemma RecoverIsFinish(l: Layout, t: Temps, dirs: seq<DirId>)
    ensures RecoverCalls(JournalOf(l, t).files, dirs, l.journal) == FinishCalls(l, t, dirs)
  {
    var files := JournalOf(l, t).files;
    assert files[1..] == [Item(t.b, l.b)] && files[1..][1..] == [];
    assert RenameCalls(files[1..]) == [Rename(t.b, l.b)];
  }

  lemma RecoverStep(s: Sys, l: Layout, p: Pair, gone: set<Path>, e: Episode) returns (gone': set<Path>)
    requires SysOk(s, l, p, gone) && e.Recover? && Legal(s, l, e)
    ensures SysOk(After(s, l, e), l, p, gone')
  {
    if AllQuiet(s.disk, l, p, gone) {
      assert Calls(s, l, e) == [] && ExecAll(s.disk, []) == s.disk;
      gone' := gone;
      if e.end.PowerLoss? { LossQuiet(s.disk, l, p, gone, e.end.left, s.used); }
    } else {
      var t: Temps :| Unfinished(s, l, t, p, gone);
      ViewPending(s.disk, l, t, p, gone);
      RecoverIsFinish(l, t, e.dirs);
      gone' := FinishStopped(s.disk, l, t, p, gone, e.dirs, e.stop, e.end, s.used);
    }
  }

  // ---- Whole runs ----

  ghost predicate LegalRun(s: Sys, l: Layout, run: seq<Episode>)
    decreases |run|
  {
    run == [] || (Legal(s, l, run[0]) && LegalRun(After(s, l, run[0]), l, run[1..]))
  }

  ghost function RunAll(s: Sys, l: Layout, run: seq<Episode>): Sys
    requires LegalRun(s, l, run)
    decreases |run|
  {
    if run == [] then s else RunAll(After(s, l, run[0]), l, run[1..])
  }

  function Current(l: Layout, p: Pair, run: seq<Episode>): Pair
    decreases |run|
  {
    if run == [] then p else Current(l, Published(l, p, run[0]), run[1..])
  }

  lemma {:induction false} RunKeepsOk(s: Sys, l: Layout, p: Pair, gone: set<Path>, run: seq<Episode>) returns (gone': set<Path>)
    requires SysOk(s, l, p, gone) && LegalRun(s, l, run)
    ensures SysOk(RunAll(s, l, run), l, Current(l, p, run), gone')
    decreases |run|
  {
    if run == [] {
      gone' := gone;
    } else {
      var g: set<Path>;
      if run[0].Publish? { g := PublishStep(s, l, p, gone, run[0]); } else { g := RecoverStep(s, l, p, gone, run[0]); }
      gone' := RunKeepsOk(After(s, l, run[0]), l, Published(l, p, run[0]), g, run[1..]);
    }
  }

  /** Atomic publish.  After any run of publishes and recoveries, stopped anywhere
      by power losses and kills: whenever recovery or a publish has completed, both
      files come from the same publish, and stay so whatever a power loss keeps. */
  lemma PairAlwaysWhole(files: Files, l: Layout, p: Pair, used: set<Path>, run: seq<Episode>)
    requires Apart(l) && l.journal !in files && Holds(files, l, p)
    requires LegalRun(Sys(Disk(files, []), true, used), l, run)
    ensures var s := RunAll(Sys(Disk(files, []), true, used), l, run);
            s.up ==> Holds(View(s.disk), l, Current(l, p, run)) && l.journal !in View(s.disk)
                     && forall r :: Outcome(s.disk, r) ==> Holds(r, l, Current(l, p, run))
  {
    OnlyOutcome(files);
    var start := Sys(Disk(files, []), true, used);
    assert AllQuiet(start.disk, l, p, {});
    var gone := RunKeepsOk(start, l, p, {}, run);
    ViewIsOutcome(RunAll(start, l, run).disk);
  }

  /** The last publish to commit, and the pair that counts. */
  predicate LastOne(l: Layout, p: Pair, run: seq<Episode>, j: nat)
    requires j < |run|
  {
    && Commits(l, run[j]) && Current(l, p, run) == New(run[j].x, run[j].y)
    && forall k | j < k < |run| :: !Commits(l, run[k])
  }

  /** Nothing but a later commit changes the published pair: it is the pair of the
      last committing publish, so a returned publish is never undone. */
  lemma {:induction false} NeverUndone(l: Layout, p: Pair, run: seq<Episode>, i: nat)
    requires i < |run| && run[i].Publish? && run[i].end == Returned && run[i].stop == |PublishCalls(l, run[i].t, run[i].x, run[i].y)|
    ensures exists j :: i <= j < |run| && LastOne(l, p, run, j)
    decreases |run|
  {
    var rest := run[1..];
    if i > 0 { assert rest[i - 1] == run[i]; }
    PublishSplit(l, run[i].t, run[i].x, run[i].y, run[i].stop);
    assert Commits(l, run[i]);
    if exists j :: 0 <= j < |rest| && Commits(l, rest[j]) {
      var from :| 0 <= from < |rest| && Commits(l, rest[from]);
      var j := LastCommit(l, Published(l, p, run[0]), rest, from);
      assert run[j + 1] == rest[j];
      assert forall k | j + 1 < k < |run| :: run[k] == rest[k - 1];
      assert LastOne(l, p, run, j + 1);
    } else {
      NoCommit(l, Published(l, p, run[0]), rest);
      assert forall k | 0 < k < |run| :: run[k] == rest[k - 1];
      assert LastOne(l, p, run, 0);
    }
  }

  lemma {:induction false} NoCommit(l: Layout, p: Pair, run: seq<Episode>)
    requires forall j | 0 <= j < |run| :: !Commits(l, run[j])
    ensures Current(l, p, run) == p
    decreases |run|
  {
    if run != [] { NoCommit(l, Published(l, p, run[0]), run[1..]); }
  }

  lemma {:induction false} LastCommit(l: Layout, p: Pair, run: seq<Episode>, from: nat) returns (j: nat)
    requires from < |run| && Commits(l, run[from])
    ensures j < |run| && Commits(l, run[j]) && Current(l, p, run) == New(run[j].x, run[j].y)
    ensures forall k | j < k < |run| :: !Commits(l, run[k])
    decreases |run|
  {
    var rest := run[1..];
    if from > 0 { assert rest[from - 1] == run[from]; }
    if next :| 0 <= next < |rest| && Commits(l, rest[next]) {
      var j0 := LastCommit(l, Published(l, p, run[0]), rest, next);
      j := j0 + 1;
      assert forall k | j < k < |run| :: run[k] == rest[k - 1];
    } else {
      j := 0;
      NoCommit(l, Published(l, p, run[0]), rest);
      assert forall k | 0 < k < |run| :: run[k] == rest[k - 1];
    }
  }

  /** Recovery is idempotent: once completed it finds no journal and makes no call. */
  lemma RecoveryIdempotent(s: Sys, l: Layout, p: Pair, gone: set<Path>, e: Episode, again: seq<DirId>)
    requires SysOk(s, l, p, gone) && e.Recover? && Legal(s, l, e) && e.end == Returned
    ensures Plan(View(After(s, l, e).disk), l, again) == []
  {
    var g := RecoverStep(s, l, p, gone, e);
  }

  /** The excluded stop is a real one.  A kill between the journal's rename and its
      fsync lets recovery rename the first file while the journal is still volatile;
      a power loss then leaves one new file, one old file and no journal. */
  lemma KilledInWindowTears(disk: Disk, l: Layout, t: Temps, x: nat, y: nat, p: Pair, gone: set<Path>) returns (torn: Files)
    requires AllQuiet(disk, l, p, gone) && NewTemps(l, t, gone)
    ensures var d := ExecAll(disk, PublishCalls(l, t, x, y)[..Window(l)]);
            && Plan(View(d), l, Parents(l)) == FinishCalls(l, t, Parents(l))
            && Outcome(ExecAll(d, FinishCalls(l, t, Parents(l))[..1]), torn)
    ensures At(torn, l.a) == Some(Bytes(x)) && At(torn, l.b) == p.b && l.journal !in torn
  {
    var calls := PrepareCalls(l, t, x, y);
    var w := Window(l) - 1;
    PublishSplit(l, t, x, y, Window(l));
    AtJournal(disk, l, t, x, y, p, gone);
    BeforeJournal(disk, l, t, x, y, p, gone, w);
    var before := ExecAll(disk, calls[..w]);
    var d := ExecAll(disk, calls[..w + 1]);
    ExecPrefix(disk, calls, w);
    RecoverIsFinish(l, t, Parents(l));
    var without := View(before);
    ViewIsOutcome(before);
    assert calls[w] == Rename(t.j, l.journal);
    assert d != before ==> d == Push(before, Replace(t.j, l.journal, View(before)[t.j]));
    if d != before { SurvivesAfter(before.durable, before.pending, Replace(t.j, l.journal, View(before)[t.j]), without); }
    assert Outcome(d, without);
    ViewIsOutcome(d);
    var first := FinishCalls(l, t, Parents(l));
    assert first[..1] == [Rename(t.a, l.a)] && [Rename(t.a, l.a)][..0] == [];
    ExecPrefix(d, first, 0);
    var op := Replace(t.a, l.a, Bytes(x));
    SurvivesAfter(d.durable, d.pending, op, without);
    torn := Do(without, op);
    assert Quiet(without, l, p, gone);
  }
}
