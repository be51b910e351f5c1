// `atomic_write_pair` and `recover_pending_pair` (_keyfiles.py), call by call.
// The ghost log lists the calls made, so a crash after any of them is a prefix.

module PairFiles {
  import opened Base
  import opened PairDisk
  import opened PairPublish
  import opened PairRuns

  class FileSystem {
    var durable: Files
    var pending: seq<DirOp>
    ghost var log: seq<Call>

    function TheDisk(): Disk
      reads this
    {
      Disk(durable, pending)
    }

    constructor (files: Files)
      ensures TheDisk() == Disk(files, []) && log == []
    {
      durable, pending, log := files, [], [];
    }

    method MakeTemp(at: Path)
      modifies this
      ensures TheDisk() == Exec(old(TheDisk()), Make(at)) && log == old(log) + [Make(at)]
    {
      pending := pending + [Link(at, Torn)];
      log := log + [Make(at)];
    }

    /** Write, flush and fsync of the file just made. */
    method WriteSynced(at: Path, content: Content)
      modifies this
      ensures TheDisk() == Exec(old(TheDisk()), Fill(at, content)) && log == old(log) + [Fill(at, content)]
    {
      if pending != [] && pending[|pending| - 1] == Link(at, Torn) {
        pending := pending[..|pending| - 1] + [Link(at, content)];
      }
      log := log + [Fill(at, content)];
    }

    method StageTemp(at: Path, content: Content)
      modifies this
      ensures TheDisk() == Exec(Exec(old(TheDisk()), Make(at)), Fill(at, content))
      ensures log == old(log) + [Make(at), Fill(at, content)]
    {
      MakeTemp(at);
      WriteSynced(at, content);
    }

    /** `os.replace`, when the source exists. */
    method ReplaceIfPresent(from: Path, onto: Path)
      modifies this
      ensures TheDisk() == Exec(old(TheDisk()), Rename(from, onto)) && log == old(log) + [Rename(from, onto)]
    {
      if from in View(TheDisk()) {
        pending := pending + [Replace(from, onto, View(TheDisk())[from])];
      }
      log := log + [Rename(from, onto)];
    }

    method UnlinkFile(at: Path)
      modifies this
      ensures TheDisk() == Exec(old(TheDisk()), Remove(at)) && log == old(log) + [Remove(at)]
    {
      pending := pending + [Unlink(at)];
      log := log + [Remove(at)];
    }

    method FsyncDir(d: DirId)
      modifies this
      ensures TheDisk() == Exec(old(TheDisk()), SyncDir(d)) && log == old(log) + [SyncDir(d)]
    {
      durable, pending := DoAll(durable, Of(pending, d, true)), Of(pending, d, false);
      log := log + [SyncDir(d)];
    }

    method FsyncParents(l: Layout)
      modifies this
      ensures TheDisk() == ExecAll(old(TheDisk()), SyncCalls(Parents(l))) && log == old(log) + SyncCalls(Parents(l))
    {
      FsyncDir(l.a.dir);
      if l.b.dir != l.a.dir { FsyncDir(l.b.dir); }
      Two(old(TheDisk()), SyncDir(l.a.dir), SyncDir(l.b.dir));
      assert Parents(l)[1..] == [] || Parents(l)[1..][1..] == [];
    }

    /** Publishes the pair; an interruption after any number of the logged calls
        leaves what that prefix of `PublishCalls` leaves. */
    method AtomicWritePair(l: Layout, t: Temps, x: nat, y: nat)
      modifies this
      ensures TheDisk() == ExecAll(old(TheDisk()), PublishCalls(l, t, x, y))
      ensures log == old(log) + PublishCalls(l, t, x, y)
      ensures forall p: Pair, gone: set<Path> :: AllQuiet(old(TheDisk()), l, p, gone) && NewTemps(l, t, gone) ==>
                AllQuiet(TheDisk(), l, New(x, y), Retired(t, gone)) && Holds(View(TheDisk()), l, New(x, y))
    {
      Prepare(l, t, x, y);
      Finish(l, t);
      ExecAppend(old(TheDisk()), PrepareCalls(l, t, x, y), FinishCalls(l, t, Parents(l)));
      forall p: Pair, gone: set<Path> | AllQuiet(old(TheDisk()), l, p, gone) && NewTemps(l, t, gone)
        ensures AllQuiet(TheDisk(), l, New(x, y), Retired(t, gone)) && Holds(View(TheDisk()), l, New(x, y))
      {
        CompletePublish(old(TheDisk()), l, t, x, y, p, gone);
      }
    }

    method Prepare(l: Layout, t: Temps, x: nat, y: nat)
      modifies this
      ensures TheDisk() == ExecAll(old(TheDisk()), PrepareCalls(l, t, x, y))
      ensures log == old(log) + PrepareCalls(l, t, x, y)
    {
      ghost var d0, log0 := TheDisk(), log;
      StageBoth(t, x, y);
      FsyncParents(l);
      PublishJournal(l, t);
      Thirds(d0, log0, [Make(t.a), Fill(t.a, Bytes(x)), Make(t.b), Fill(t.b, Bytes(y))], SyncCalls(Parents(l)),
             [Make(t.j), Fill(t.j, JournalOf(l, t)), Rename(t.j, l.journal), SyncDir(l.journal.dir)]);
    }

    method StageBoth(t: Temps, x: nat, y: nat)
      modifies this
      ensures TheDisk() == ExecAll(old(TheDisk()), [Make(t.a), Fill(t.a, Bytes(x)), Make(t.b), Fill(t.b, Bytes(y))])
      ensures log == old(log) + [Make(t.a), Fill(t.a, Bytes(x)), Make(t.b), Fill(t.b, Bytes(y))]
    {
      StageTemp(t.a, Bytes(x));
      StageTemp(t.b, Bytes(y));
      Four(old(TheDisk()), Make(t.a), Fill(t.a, Bytes(x)), Make(t.b), Fill(t.b, Bytes(y)));
    }

    /** The journal becomes durable: the commit point. */
    method PublishJournal(l: Layout, t: Temps)
      modifies this
      ensures TheDisk() == ExecAll(old(TheDisk()), [Make(t.j), Fill(t.j, JournalOf(l, t)), Rename(t.j, l.journal), SyncDir(l.journal.dir)])
      ensures log == old(log) + [Make(t.j), Fill(t.j, JournalOf(l, t)), Rename(t.j, l.journal), SyncDir(l.journal.dir)]
    {
      StageTemp(t.j, JournalOf(l, t));
      ReplaceIfPresent(t.j, l.journal);
      FsyncDir(l.journal.dir);
      Four(old(TheDisk()), Make(t.j), Fill(t.j, JournalOf(l, t)), Rename(t.j, l.journal), SyncDir(l.journal.dir));
    }

    method Finish(l: Layout, t: Temps)
      modifies this
      ensures TheDisk() == ExecAll(old(TheDisk()), FinishCalls(l, t, Parents(l)))
      ensures log == old(log) + FinishCalls(l, t, Parents(l))
    {
      ghost var d0, log0 := TheDisk(), log;
      ReplaceIfPresent(t.a, l.a);
      ReplaceIfPresent(t.b, l.b);
      Two(d0, Rename(t.a, l.a), Rename(t.b, l.b));
      FsyncParents(l);
      DropJournal(l.journal);
      Thirds(d0, log0, [Rename(t.a, l.a), Rename(t.b, l.b)], SyncCalls(Parents(l)), [Remove(l.journal), SyncDir(l.journal.dir)]);
    }

    /** Completes an interrupted publish: the loop over the journal's entries, then
        over the set of their directories, in whatever order that set yields them. */
    method RecoverPendingPair(l: Layout) returns (outcome: RecoverOutcome, ghost dirs: seq<DirId>)
      modifies this
      ensures outcome.NothingPending? <==> l.journal !in old(View(TheDisk()))
      ensures outcome.Unreadable? <==> l.journal in old(View(TheDisk())) && !old(View(TheDisk()))[l.journal].Journal?
      ensures TheDisk() == ExecAll(old(TheDisk()), Plan(old(View(TheDisk())), l, dirs))
      ensures log == old(log) + Plan(old(View(TheDisk())), l, dirs)
      ensures outcome == Recovered ==> forall d :: d in dirs <==> d in TargetDirs(old(View(TheDisk()))[l.journal].files)
    {
      var m := View(TheDisk());
      if l.journal !in m {
        outcome, dirs := NothingPending, [];
      } else if !m[l.journal].Journal? {
        outcome, dirs := Unreadable, [];
      } else {
        outcome := Recovered;
        dirs := Redrive(m[l.journal].files, l.journal);
      }
    }

    method Redrive(files: seq<Item>, journal: Path) returns (ghost dirs: seq<DirId>)
      modifies this
      ensures TheDisk() == ExecAll(old(TheDisk()), RecoverCalls(files, dirs, journal))
      ensures log == old(log) + RecoverCalls(files, dirs, journal)
      ensures forall d :: d in dirs <==> d in TargetDirs(files)
    {
      ghost var d0, log0 := TheDisk(), log;
      var parents := RenameAll(files);
      dirs := SyncAll(parents);
      DropJournal(journal);
      Thirds(d0, log0, RenameCalls(files), SyncCalls(dirs), [Remove(journal), SyncDir(journal.dir)]);
    }

    method SyncAll(parents: set<DirId>) returns (ghost dirs: seq<DirId>)
      modifies this
      ensures TheDisk() == ExecAll(old(TheDisk()), SyncCalls(dirs)) && log == old(log) + SyncCalls(dirs)
      ensures forall d :: d in dirs <==> d in parents
    {
      dirs := [];
      var rest := parents;
      while rest != {}
        invariant TheDisk() == ExecAll(old(TheDisk()), SyncCalls(dirs)) && log == old(log) + SyncCalls(dirs)
        invariant forall d :: d in parents <==> d in rest || d in dirs
      {
        var d :| d in rest;
        rest := rest - {d};
        FsyncDir(d);
        SyncCallsAppend(dirs, d);
        ExecAppend(old(TheDisk()), SyncCalls(dirs), [SyncDir(d)]);
        One(ExecAll(old(TheDisk()), SyncCalls(dirs)), SyncDir(d));
        dirs := dirs + [d];
      }
    }

    method DropJournal(journal: Path)
      modifies this
      ensures TheDisk() == ExecAll(old(TheDisk()), [Remove(journal), SyncDir(journal.dir)])
      ensures log == old(log) + [Remove(journal), SyncDir(journal.dir)]
    {
      UnlinkFile(journal);
      FsyncDir(journal.dir);
      Two(old(TheDisk()), Remove(journal), SyncDir(journal.dir));
    }

    method RenameAll(files: seq<Item>) returns (parents: set<DirId>)
      modifies this
      ensures TheDisk() == ExecAll(old(TheDisk()), RenameCalls(files)) && log == old(log) + RenameCalls(files)
      ensures parents == TargetDirs(files)
    {
      parents := {};
      var i := 0;
      assert files[..0] == [];
      while i < |files|
        invariant 0 <= i <= |files|
        invariant TheDisk() == ExecAll(old(TheDisk()), RenameCalls(files[..i])) && log == old(log) + RenameCalls(files[..i])
        invariant parents == TargetDirs(files[..i])
      {
        var item := files[i];
        parents := parents + {item.target.dir};
        ReplaceIfPresent(item.tmp, item.target);
        RenameCallsAppend(files[..i], item);
        assert files[..i + 1] == files[..i] + [item];
        ExecAppend(old(TheDisk()), RenameCalls(files[..i]), [Rename(item.tmp, item.target)]);
        One(ExecAll(old(TheDisk()), RenameCalls(files[..i])), Rename(item.tmp, item.target));
        i := i + 1;
      }
      assert files[..|files|] == files;
    }
  }

  datatype RecoverOutcome = NothingPending | Unreadable | Recovered

  function TargetDirs(files: seq<Item>): set<DirId> { set i | 0 <= i < |files| :: files[i].target.dir }

  lemma One(d: Disk, c: Call)
    ensures ExecAll(d, [c]) == Exec(d, c)
  {
    assert [c][..0] == [];
  }

  lemma Two(d: Disk, a: Call, b: Call)
    ensures ExecAll(d, [a, b]) == Exec(Exec(d, a), b) && ExecAll(d, [a]) == Exec(d, a)
  {
    One(d, a);
    assert [a, b][..1] == [a];
  }

  lemma Four(d: Disk, a: Call, b: Call, c: Call, e: Call)
    ensures ExecAll(d, [a, b, c, e]) == Exec(Exec(Exec(Exec(d, a), b), c), e)
  {
    Two(d, a, b);
    assert [a, b, c][..2] == [a, b] && [a, b, c, e][..3] == [a, b, c];
  }

  lemma Regroup(log: seq<Call>, a: seq<Call>, b: seq<Call>, c: seq<Call>)
    ensures log + a + b + c == log + (a + b + c)
  {
  }

  lemma Thirds(d: Disk, log: seq<Call>, a: seq<Call>, b: seq<Call>, c: seq<Call>)
    ensures ExecAll(ExecAll(ExecAll(d, a), b), c) == ExecAll(d, a + b + c)
    ensures log + a + b + c == log + (a + b + c)
  {
    Regroup(log, a, b, c);
    ExecAppend(d, a, b);
    ExecAppend(d, a + b, c);
  }

  lemma {:induction false} SyncCallsAppend(dirs: seq<DirId>, d: DirId)
    ensures SyncCalls(dirs + [d]) == SyncCalls(dirs) + [SyncDir(d)]
  {
  }

  lemma {:induction false} RenameCallsAppend(files: seq<Item>, item: Item)
    ensures RenameCalls(files + [item]) == RenameCalls(files) + [Rename(item.tmp, item.target)]
    decreases |files|
  {
    if files == [] {
      assert files + [item] == [item] && [item][1..] == [];
    } else {
      assert (files + [item])[0] == files[0] && (files + [item])[1..] == files[1..] + [item];
      RenameCallsAppend(files[1..], item);
    }
  }

  lemma CompletePublish(disk: Disk, l: Layout, t: Temps, x: nat, y: nat, p: Pair, gone: set<Path>)
    requires AllQuiet(disk, l, p, gone) && NewTemps(l, t, gone)
    ensures var d := ExecAll(disk, PublishCalls(l, t, x, y));
            AllQuiet(d, l, New(x, y), Retired(t, gone)) && Holds(View(d), l, New(x, y))
  {
    AtJournal(disk, l, t, x, y, p, gone);
    var d0 := ExecAll(disk, PrepareCalls(l, t, x, y));
    var calls := FinishCalls(l, t, Parents(l));
    ExecAppend(disk, PrepareCalls(l, t, x, y), calls);
    FinishPrefix(d0, l, t, New(x, y), gone, Parents(l), 4 + |Parents(l)|);
    assert calls[..|calls|] == calls;
    ViewIsOutcome(ExecAll(d0, calls));
  }
}
