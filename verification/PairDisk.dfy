// Directory operations that stay volatile until their directory is fsynced,
// under the calls `_keyfiles.py` makes.  A power loss keeps any subset of the
// operations still pending, in order.

module PairDisk {
  import opened Base

  type DirId = nat

  datatype Path = Path(dir: DirId, name: nat)

  /** One journal entry: rename `tmp` onto `target`. */
  datatype Item = Item(tmp: Path, target: Path)

  datatype Content = Torn | Bytes(data: nat) | Journal(files: seq<Item>)

  type Files = map<Path, Content>

  /** A directory operation; a rename carries the file that it moves. */
  datatype DirOp =
    | Link(at: Path, content: Content)
    | Replace(from: Path, onto: Path, content: Content)
    | Unlink(at: Path)

  predicate InDir(op: DirOp, d: DirId) {
    match op
    case Link(at, _) => at.dir == d
    case Replace(from, onto, _) => onto.dir == d
    case Unlink(at) => at.dir == d
  }

  /** A rename stays inside one directory. */
  predicate OneDir(op: DirOp) { op.Replace? ==> op.from.dir == op.onto.dir }

  predicate Touches(op: DirOp, p: Path) {
    match op
    case Link(at, _) => at == p
    case Replace(from, onto, _) => from == p || onto == p
    case Unlink(at) => at == p
  }

  function Do(m: Files, op: DirOp): Files {
    match op
    case Link(at, content) => m[at := content]
    case Replace(from, onto, content) => (m - {from})[onto := content]
    case Unlink(at) => m - {at}
  }

  function DoAll(m: Files, ops: seq<DirOp>): Files
    decreases |ops|
  {
    if ops == [] then m else DoAll(Do(m, ops[0]), ops[1..])
  }

  datatype Disk = Disk(durable: Files, pending: seq<DirOp>)

  /** What a running process sees. */
  function View(disk: Disk): Files { DoAll(disk.durable, disk.pending) }

  function Of(ops: seq<DirOp>, d: DirId, inside: bool): (r: seq<DirOp>)
    decreases |ops|
  {
    if ops == [] then []
    else if InDir(ops[0], d) == inside then [ops[0]] + Of(ops[1..], d, inside)
    else Of(ops[1..], d, inside)
  }

  function Push(disk: Disk, op: DirOp): Disk { disk.(pending := disk.pending + [op]) }

  function Sync(disk: Disk, d: DirId): Disk {
    Disk(DoAll(disk.durable, Of(disk.pending, d, true)), Of(disk.pending, d, false))
  }

  /** `r` is what a power loss can leave of `m` followed by `ops`. */
  ghost predicate Survives(m: Files, ops: seq<DirOp>, r: Files)
    decreases |ops|
  {
    if ops == [] then r == m else Survives(m, ops[1..], r) || Survives(Do(m, ops[0]), ops[1..], r)
  }

  ghost predicate Outcome(disk: Disk, r: Files) { Survives(disk.durable, disk.pending, r) }

  ghost predicate Local(disk: Disk) { forall i | 0 <= i < |disk.pending| :: OneDir(disk.pending[i]) }

  function At(m: Files, p: Path): Option<Content> { if p in m then Some(m[p]) else None }

  // ---- Appending an operation ----

  lemma {:induction false} DoAllAppend(m: Files, ops: seq<DirOp>, op: DirOp)
    ensures DoAll(m, ops + [op]) == Do(DoAll(m, ops), op)
    decreases |ops|
  {
    if ops == [] {
      assert [] + [op] == [op] && [op][1..] == [];
    } else {
      assert (ops + [op])[0] == ops[0] && (ops + [op])[1..] == ops[1..] + [op];
      DoAllAppend(Do(m, ops[0]), ops[1..], op);
    }
  }

  lemma {:induction false} SurvivedBefore(m: Files, ops: seq<DirOp>, op: DirOp, r: Files) returns (r0: Files)
    requires Survives(m, ops + [op], r)
    ensures Survives(m, ops, r0) && (r == r0 || r == Do(r0, op))
    decreases |ops|
  {
    if ops == [] {
      assert ops + [op] == [op] && [op][1..] == [];
      assert Survives(m, [], r) || Survives(Do(m, op), [], r);
      r0 := m;
    } else {
      assert (ops + [op])[0] == ops[0] && (ops + [op])[1..] == ops[1..] + [op];
      if Survives(m, ops[1..] + [op], r) {
        r0 := SurvivedBefore(m, ops[1..], op, r);
      } else {
        r0 := SurvivedBefore(Do(m, ops[0]), ops[1..], op, r);
      }
    }
  }

  lemma {:induction false} SurvivesAfter(m: Files, ops: seq<DirOp>, op: DirOp, r0: Files)
    requires Survives(m, ops, r0)
    ensures Survives(m, ops + [op], r0) && Survives(m, ops + [op], Do(r0, op))
    decreases |ops|
  {
    if ops == [] {
      assert [] + [op] == [op] && [op][1..] == [];
      assert Survives(Do(m, op), [], Do(m, op)) && Survives(m, [], m);
    } else {
      assert (ops + [op])[0] == ops[0] && (ops + [op])[1..] == ops[1..] + [op];
      if Survives(m, ops[1..], r0) {
        SurvivesAfter(m, ops[1..], op, r0);
      } else {
        SurvivesAfter(Do(m, ops[0]), ops[1..], op, r0);
      }
    }
  }

  /** An outcome after one more operation is an earlier one, with or without it. */
  lemma PushOutcome(disk: Disk, op: DirOp, r: Files) returns (r0: Files)
    requires Outcome(Push(disk, op), r)
    ensures Outcome(disk, r0) && (r == r0 || r == Do(r0, op))
  {
    r0 := SurvivedBefore(disk.durable, disk.pending, op, r);
  }

  lemma PushView(disk: Disk, op: DirOp)
    ensures View(Push(disk, op)) == Do(View(disk), op)
  {
    DoAllAppend(disk.durable, disk.pending, op);
  }

  lemma {:induction false} ViewSurvives(m: Files, ops: seq<DirOp>)
    ensures Survives(m, ops, DoAll(m, ops))
    decreases |ops|
  {
    if ops != [] { ViewSurvives(Do(m, ops[0]), ops[1..]); }
  }

  lemma ViewIsOutcome(disk: Disk)
    ensures Outcome(disk, View(disk))
  {
    ViewSurvives(disk.durable, disk.pending);
  }

  // ---- Syncing a directory ----

  lemma Commute(m: Files, a: DirOp, b: DirOp, d: DirId)
    requires OneDir(a) && OneDir(b) && InDir(a, d) && !InDir(b, d)
    ensures Do(Do(m, a), b) == Do(Do(m, b), a)
  {
  }

  lemma {:induction false} CommuteAll(m: Files, op: DirOp, ops: seq<DirOp>, d: DirId)
    requires OneDir(op) && !InDir(op, d) && forall i | 0 <= i < |ops| :: OneDir(ops[i])
    ensures DoAll(Do(m, op), Of(ops, d, true)) == Do(DoAll(m, Of(ops, d, true)), op)
    decreases |ops|
  {
    if ops != [] {
      if InDir(ops[0], d) {
        assert ([ops[0]] + Of(ops[1..], d, true))[1..] == Of(ops[1..], d, true);
        Commute(m, ops[0], op, d);
        CommuteAll(Do(m, ops[0]), op, ops[1..], d);
      } else {
        CommuteAll(m, op, ops[1..], d);
      }
    }
  }

  /** A sync only rules outcomes out. */
  lemma {:induction false} SyncNarrows(m: Files, ops: seq<DirOp>, d: DirId, r: Files)
    requires forall i | 0 <= i < |ops| :: OneDir(ops[i])
    requires Survives(DoAll(m, Of(ops, d, true)), Of(ops, d, false), r)
    ensures Survives(m, ops, r)
    decreases |ops|
  {
    if ops != [] {
      var rest := ops[1..];
      if InDir(ops[0], d) {
        assert ([ops[0]] + Of(rest, d, true))[1..] == Of(rest, d, true);
        SyncNarrows(Do(m, ops[0]), rest, d, r);
      } else {
        assert ([ops[0]] + Of(rest, d, false))[1..] == Of(rest, d, false);
        CommuteAll(m, ops[0], rest, d);
        if Survives(DoAll(m, Of(rest, d, true)), Of(rest, d, false), r) {
          SyncNarrows(m, rest, d, r);
        } else {
          SyncNarrows(Do(m, ops[0]), rest, d, r);
        }
      }
    }
  }

  lemma {:induction false} OutsideUntouched(m: Files, ops: seq<DirOp>, d: DirId, p: Path, r: Files)
    requires p.dir == d && (forall i | 0 <= i < |ops| :: OneDir(ops[i])) && Survives(m, Of(ops, d, false), r)
    ensures At(r, p) == At(m, p)
    decreases |ops|
  {
    if ops != [] {
      var rest := ops[1..];
      if InDir(ops[0], d) {
        OutsideUntouched(m, rest, d, p, r);
      } else {
        assert ([ops[0]] + Of(rest, d, false))[1..] == Of(rest, d, false);
        assert At(Do(m, ops[0]), p) == At(m, p);
        if Survives(m, Of(rest, d, false), r) {
          OutsideUntouched(m, rest, d, p, r);
        } else {
          OutsideUntouched(Do(m, ops[0]), rest, d, p, r);
        }
      }
    }
  }

  lemma {:induction false} ViewUnchanged(m: Files, ops: seq<DirOp>, d: DirId)
    requires forall i | 0 <= i < |ops| :: OneDir(ops[i])
    ensures DoAll(DoAll(m, Of(ops, d, true)), Of(ops, d, false)) == DoAll(m, ops)
    decreases |ops|
  {
    if ops != [] {
      var rest := ops[1..];
      if InDir(ops[0], d) {
        assert ([ops[0]] + Of(rest, d, true))[1..] == Of(rest, d, true);
      } else {
        assert ([ops[0]] + Of(rest, d, false))[1..] == Of(rest, d, false);
        CommuteAll(m, ops[0], rest, d);
      }
      ViewUnchanged(Do(m, ops[0]), rest, d);
    }
  }

  lemma {:induction false} OfLocal(ops: seq<DirOp>, d: DirId, inside: bool)
    requires forall i | 0 <= i < |ops| :: OneDir(ops[i])
    ensures forall i | 0 <= i < |Of(ops, d, inside)| :: OneDir(Of(ops, d, inside)[i])
    decreases |ops|
  {
    if ops != [] { OfLocal(ops[1..], d, inside); }
  }

  /** After `fsync(d)` every outcome was possible before, what a process sees is
      unchanged, and the entries of `d` are exactly what it sees. */
  lemma SyncOutcome(disk: Disk, d: DirId, r: Files)
    requires Local(disk) && Outcome(Sync(disk, d), r)
    ensures Outcome(disk, r)
    ensures forall p: Path | p.dir == d :: At(r, p) == At(View(disk), p)
  {
    SyncNarrows(disk.durable, disk.pending, d, r);
    SyncKeepsView(disk, d);
    forall p: Path | p.dir == d ensures At(r, p) == At(View(disk), p) {
      OutsideUntouched(Sync(disk, d).durable, disk.pending, d, p, r);
      ViewSurvives(Sync(disk, d).durable, Sync(disk, d).pending);
      OutsideUntouched(Sync(disk, d).durable, disk.pending, d, p, View(Sync(disk, d)));
    }
  }

  lemma SyncKeepsView(disk: Disk, d: DirId)
    requires Local(disk)
    ensures View(Sync(disk, d)) == View(disk) && Local(Sync(disk, d))
  {
    ViewUnchanged(disk.durable, disk.pending, d);
    OfLocal(disk.pending, d, false);
  }

  // ---- The calls a process makes ----

  datatype Call =
    | Make(at: Path)
    | Fill(at: Path, content: Content)
    | Rename(from: Path, onto: Path)
    | Remove(at: Path)
    | SyncDir(dir: DirId)

  /** `Fill` is the write and fsync of a file just made: its data becomes durable,
      its directory entry does not.  A rename of a missing file fails. */
  function Exec(disk: Disk, call: Call): Disk {
    match call
    case Make(at) => Push(disk, Link(at, Torn))
    case Fill(at, content) =>
      if disk.pending != [] && disk.pending[|disk.pending| - 1] == Link(at, Torn)
      then disk.(pending := disk.pending[..|disk.pending| - 1] + [Link(at, content)]) else disk
    case Rename(from, onto) =>
      if from in View(disk) then Push(disk, Replace(from, onto, View(disk)[from])) else disk
    case Remove(at) => Push(disk, Unlink(at))
    case SyncDir(d) => Sync(disk, d)
  }

  function ExecAll(disk: Disk, calls: seq<Call>): Disk
    decreases |calls|
  {
    if calls == [] then disk else Exec(ExecAll(disk, calls[..|calls| - 1]), calls[|calls| - 1])
  }
}
