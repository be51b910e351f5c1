// When the retirement loop of `sweep` deletes an old private key, and when it
// never will.

module RotationRetention {
  import opened Base
  import opened RotationCore
  import opened RotationInvariant
  import opened RotationSweep

  // ---- An ascending scan ----

  predicate Ascending(order: seq<Epoch>) { forall i, j | 0 <= i < j < |order| :: order[i] < order[j] }

  /** The scan lists every committed row once, oldest epoch first. */
  ghost predicate Scans(order: seq<Epoch>, s: Store) {
    Ascending(order) && forall e :: e in order <==> e in CommittedIn(s.rotating)
  }

  lemma EarlierRow(s: Store, d: Epoch, now: int, e: Epoch)
    requires Valid(s) && d < e && e in s.rotating
    ensures var t := RetireOne(s, d, now);
            e in t.rotating && t.rotating[e] == s.rotating[e] && (OwnRow(t.keys, e) <==> OwnRow(s.keys, e))
  {
    assert d in s.rotating && s.rotating[d].phase == Committed ==> s.rotating[d].prior < d;
  }

  /** `e`'s turn changes nothing about rows after it, or about their keys. */
  lemma {:induction false} LaterRowsUntouched(s: Store, order: seq<Epoch>, now: int, e: Epoch)
    requires Valid(s) && (forall d | d in order :: d < e) && e in s.rotating && s.rotating[e].phase == Committed
    ensures var t := RetireAll(s, order, now);
            e in t.rotating && t.rotating[e] == s.rotating[e] && (OwnRow(t.keys, e) <==> OwnRow(s.keys, e))
    decreases |order|
  {
    if order != [] {
      assert order[0] in order && forall d | d in order[1..] :: d in order;
      EarlierRow(s, order[0], now, e);
      RetireOneKeepsValid(s, order[0], now);
      LaterRowsUntouched(RetireOne(s, order[0], now), order[1..], now, e);
    }
  }

  lemma {:induction false} GoneStaysGone(s: Store, order: seq<Epoch>, now: int, e: Epoch)
    ensures !OwnRow(s.keys, e) ==> !OwnRow(RetireAll(s, order, now).keys, e)
    ensures e !in s.rotating ==> e !in RetireAll(s, order, now).rotating
    ensures e in s.rotating && e !in order ==> e in RetireAll(s, order, now).rotating && RetireAll(s, order, now).rotating[e] == s.rotating[e]
    decreases |order|
  {
    if order != [] { GoneStaysGone(RetireOne(s, order[0], now), order[1..], now, e); }
  }

  lemma {:induction false} RetireAllSplit(s: Store, a: seq<Epoch>, b: seq<Epoch>, now: int)
    ensures RetireAll(s, a + b, now) == RetireAll(RetireAll(s, a, now), b, now)
    decreases |a|
  {
    if a == [] {
      assert a + b == b;
    } else {
      assert (a + b)[0] == a[0] && (a + b)[1..] == a[1..] + b;
      RetireAllSplit(RetireOne(s, a[0], now), a[1..], b, now);
    }
  }

  /** Exactly when a finished row is retired by an ascending scan: it and its prior key
      are gone afterwards if and only if a day or a hundred events have passed and its
      new key is still held. */
  lemma RetiredIff(s: Store, order: seq<Epoch>, now: int, e: Epoch)
    requires Valid(s) && Scans(order, s) && e in s.rotating && s.rotating[e].phase == Committed
    ensures var t := RetireAll(s, order, now);
            && (e !in t.rotating <==> Overdue(s.rotating[e], now) && OwnRow(s.keys, e))
            && (e !in t.rotating ==> !OwnRow(t.keys, s.rotating[e].prior))
            && (e in t.rotating ==> t.rotating[e] == s.rotating[e])
  {
    assert e in CommittedIn(s.rotating);
    var i :| 0 <= i < |order| && order[i] == e;
    var before, after := order[..i], order[i + 1..];
    var s1 := RetireAll(s, before, now);
    InTurn(s, order, now, i);
    LaterRowsUntouched(s, before, now, e);
    assert e !in after by { assert forall j | 0 <= j < |after| :: after[j] == order[i + 1 + j]; }
    GoneStaysGone(RetireOne(s1, e, now), after, now, s.rotating[e].prior);
    GoneStaysGone(RetireOne(s1, e, now), after, now, e);
  }

  lemma InTurn(s: Store, order: seq<Epoch>, now: int, i: nat)
    requires i < |order|
    ensures RetireAll(s, order, now) == RetireAll(RetireOne(RetireAll(s, order[..i], now), order[i], now), order[i + 1..], now)
  {
    assert order == order[..i] + order[i..];
    RetireAllSplit(s, order[..i], order[i..], now);
    assert order[i..][0] == order[i] && order[i..][1..] == order[i + 1..];
  }

  // ---- Keys that no sweep will ever delete ----

  /** The only rotations away from `x` have lost their own new key. */
  ghost predicate Stranded(s: Store, x: Epoch) {
    && OwnRow(s.keys, x)
    && (exists y: Epoch :: OwnRow(s.keys, y) && x < y <= s.keyEpoch)
    && (forall e | e in s.rotating && s.rotating[e].prior == x && s.rotating[e].phase != Discarded ::
          e <= s.keyEpoch && !OwnRow(s.keys, e))
  }

  lemma StrandedFrame(s: Store, t: Store, x: Epoch)
    requires Stranded(s, x) && s.keyEpoch <= t.keyEpoch
    requires forall e: Epoch :: OwnRow(s.keys, e) ==> OwnRow(t.keys, e)
    requires forall e: Epoch :: e <= s.keyEpoch && OwnRow(t.keys, e) ==> OwnRow(s.keys, e)
    requires forall e | e in t.rotating && t.rotating[e].phase != Discarded ::
               e in s.rotating && s.rotating[e].phase != Discarded && t.rotating[e].prior == s.rotating[e].prior
    ensures Stranded(t, x)
  {
  }

  lemma RetireOneStranded(s: Store, e: Epoch, now: int, x: Epoch)
    requires Valid(s) && Stranded(s, x)
    ensures Stranded(RetireOne(s, e, now), x)
  {
    var t := RetireOne(s, e, now);
    if t != s {
      var y: Epoch :| OwnRow(s.keys, y) && x < y <= s.keyEpoch;
      assert s.rotating[e].prior != x;
      assert OwnRow(t.keys, e) && e <= t.keyEpoch && s.rotating[e].prior < e;
      if s.rotating[e].prior == y { assert OwnRow(t.keys, e) && x < e <= t.keyEpoch; } else { assert OwnRow(t.keys, y); }
    }
  }

  lemma {:induction false} RetireAllStranded(s: Store, order: seq<Epoch>, now: int, x: Epoch)
    requires Valid(s) && Stranded(s, x)
    ensures Stranded(RetireAll(s, order, now), x)
    decreases |order|
  {
    if order != [] {
      RetireOneStranded(s, order[0], now, x);
      RetireOneKeepsValid(s, order[0], now);
      RetireAllStranded(RetireOne(s, order[0], now), order[1..], now, x);
    }
  }

  lemma DiscardStranded(s: Store, e: Epoch, x: Epoch)
    requires Valid(s) && Stranded(s, x)
    ensures Stranded(DiscardRotating(s, e), x)
  {
    var t := DiscardRotating(s, e);
    if t != s {
      assert IsLive(s.rotating, e) && RotatingRowOk(s, e, s.rotating[e]);
      var y: Epoch :| OwnRow(s.keys, y) && x < y <= s.keyEpoch;
      assert OwnRow(t.keys, y);
    }
  }

  lemma PrepareStranded(s: Store, p: Prepare, id: EventId, now: int, x: Epoch)
    requires Valid(s) && Stranded(s, x)
    ensures Stranded(OnPrepare(s, p, id, now).0, x)
  {
    if OnPrepare(s, p, id, now).0 != s {
      FreshPrepareShape(s, p, id, now);
      StrandedFrame(s, TakenUp(s, p, id), x);
    }
  }

  lemma BeginStranded(s: Store, key: Key, id: Option<EventId>, now: int, x: Epoch)
    requires Valid(s) && Stranded(s, x)
    ensures Stranded(Begin(s, key, id, now).0, x)
  {
    BeginKeepsValid(s, key, id, now);
    if !InFlight(s) {
      assert BeginShape(s, key, id, now);
      var prior: Epoch :| NewestOwn(s, prior) && Begin(s, key, id, now) == BeginAt(s, prior, key, id, now);
      var y: Epoch :| OwnRow(s.keys, y) && x < y <= s.keyEpoch;
      var t := Begin(s, key, id, now).0;
      assert OwnRow(t.keys, y) && OwnRow(t.keys, x);
      assert prior != x;
    }
  }

  lemma SweepStranded(s: Store, order: seq<Epoch>, stopped: bool, now: int, x: Epoch)
    requires Valid(s) && Stranded(s, x)
    ensures Stranded(Sweep(s, order, stopped, now), x)
  {
    CompactKeepsValid(s, now);
    var s1 := Compact(s, now);
    StrandedFrame(s, s1, x);
    if stopped {
    } else if TimedOut(s1, now) != {} {
      DiscardStranded(s1, Min(TimedOut(s1, now)), x);
    } else {
      RetireAllStranded(s1, order, now, x);
    }
  }

  lemma ApplyStranded(s: Store, op: Op, now: int, x: Epoch)
    requires Valid(s) && Stranded(s, x)
    ensures Stranded(Apply(s, op, now), x)
  {
    match op
    case BeginOp(key, id) => BeginStranded(s, key, id, now, x);
    case SweepOp(order, stopped) => SweepStranded(s, order, stopped, now, x);
    case PrepareOp(p, id) => PrepareStranded(s, p, id, now, x);
    case TheirsOp(e, p, id) => TheirsStranded(s, e, p, id, now, x);
    case DataOp(e) => DataStranded(s, e, now, x);
    case AckOp(e, id) => AckStranded(s, e, id, now, x);
    case CommitOp(e) => CommitStranded(s, e, now, x);
    case _ => PhaseStranded(s, op, now, x);
  }

  lemma TheirsStranded(s: Store, e: Epoch, p: Prepare, id: EventId, now: int, x: Epoch)
    requires Valid(s) && Stranded(s, x)
    ensures Stranded(ResolveTheirs(s, e, p, id, now).0, x)
  {
    DiscardKeepsValid(s, e);
    DiscardStranded(s, e, x);
    PrepareStranded(DiscardRotating(s, e), p, id, now, x);
  }

  lemma AckStranded(s: Store, e: Epoch, id: EventId, now: int, x: Epoch)
    requires Stranded(s, x)
    ensures Stranded(OnAck(s, e, id, now).0, x)
  {
    StrandedFrame(s, OnAck(s, e, id, now).0, x);
  }

  lemma CommitStranded(s: Store, e: Epoch, now: int, x: Epoch)
    requires Valid(s) && Stranded(s, x)
    ensures Stranded(OnCommit(s, e, now).0, x)
  {
    OnCommitKeepsValid(s, e, now);
    StrandedFrame(s, OnCommit(s, e, now).0, x);
  }

  lemma PhaseStranded(s: Store, op: Op, now: int, x: Epoch)
    requires Valid(s) && Stranded(s, x)
    requires op.ConfirmOp? || op.PeerConfirmOp? || op.MarkCommittedOp?
    ensures Stranded(Apply(s, op, now), x)
  {
    match op
    case ConfirmOp => StrandedFrame(s, MarkConfirmed(s).0, x);
    case PeerConfirmOp(e) => StrandedFrame(s, OnConfirm(s, e).0, x);
    case MarkCommittedOp =>
      MarkCommittedKeepsValid(s, now);
      StrandedFrame(s, MarkCommitted(s, now).0, x);
  }

  lemma DataStranded(s: Store, e: Epoch, now: int, x: Epoch)
    requires Stranded(s, x)
    ensures Stranded(NoteAcceptedEvent(NoteDecryptedNewWrap(s, e, now)), x)
  {
    StrandedFrame(s, NoteDecryptedNewWrap(s, e, now), x);
    StrandedFrame(NoteDecryptedNewWrap(s, e, now), NoteAcceptedEvent(NoteDecryptedNewWrap(s, e, now)), x);
  }

  /** A stranded old private key is never deleted: not by any later run of
      rotations, sweeps, resolutions and traffic, at any times. */
  lemma {:induction false} StrandedForever(s: Store, ops: seq<(Op, int)>, x: Epoch)
    requires Valid(s) && Stranded(s, x)
    ensures OwnRow(RunOps(s, ops).keys, x)
    decreases |ops|
  {
    if ops != [] {
      ApplyKeepsValid(s, ops[0].0, ops[0].1);
      ApplyStranded(s, ops[0].0, ops[0].1, x);
      StrandedForever(Apply(s, ops[0].0, ops[0].1), ops[1..], x);
    }
  }

  /** A row that is skipped because its new key is gone strands its prior key,
      unless another rotation away from that key is still able to retire it. */
  lemma SkippedStrands(s: Store, e: Epoch)
    requires Valid(s) && e in s.rotating && s.rotating[e].phase == Committed
    requires !OwnRow(s.keys, e) && OwnRow(s.keys, s.rotating[e].prior)
    requires exists y: Epoch :: OwnRow(s.keys, y) && s.rotating[e].prior < y <= s.keyEpoch
    requires forall d | d in s.rotating && s.rotating[d].prior == s.rotating[e].prior && s.rotating[d].phase != Discarded :: d == e
    ensures Stranded(s, s.rotating[e].prior)
  {
  }

  // ---- A run that strands a key ----

  const HOUR: int := 3600

  /** Between the two commits of a pair of rotations within one day, the newer row
      falls due by its event count while the older one is not due at all. */
  lemma OvertakenStrands(s: Store, older: Epoch, newer: Epoch, now: int)
    requires Valid(s) && {older, newer} <= CommittedIn(s.rotating) && s.rotating[newer].prior == older
    requires OwnRow(s.keys, newer) && OwnRow(s.keys, older) && OwnRow(s.keys, s.rotating[older].prior)
    requires Overdue(s.rotating[newer], now)
    requires forall d | d in s.rotating && s.rotating[d].prior == s.rotating[older].prior && s.rotating[d].phase != Discarded :: d == older
    ensures Stranded(RetireOne(s, newer, now), s.rotating[older].prior)
  {
    var t := RetireOne(s, newer, now);
    assert OwnRow(t.keys, newer) && OwnRow(t.keys, s.rotating[older].prior);
    RetireOneKeepsValid(s, newer, now);
    SkippedStrands(t, older);
  }

  function FirstDone(accepted: nat): Row { Row(Committed, 1, 11, Some(1), 24 * HOUR, Some(0), true, accepted) }

  function SecondRow(phase: Phase, at: Option<int>, seen: bool, accepted: nat): Row {
    Row(phase, 2, 12, Some(2), 25 * HOUR, at, seen, accepted)
  }

  function OneKeyMore(phase: Phase, seen: bool): Store {
    Store(1, 20, map[1 := KeyRow(10, true), 2 := KeyRow(11, true)],
          map[2 := Row(phase, 1, 11, Some(1), 24 * HOUR, None, seen, 0)], map[], map[])
  }

  function OneDone(): Store {
    Store(2, 20, map[1 := KeyRow(10, true), 2 := KeyRow(11, true)], map[2 := FirstDone(0)], map[], map[])
  }

  function ThreeKeys(): map<Epoch, KeyRow> { map[1 := KeyRow(10, true), 2 := KeyRow(11, true), 3 := KeyRow(12, true)] }

  function TwoKeysMore(phase: Phase, seen: bool): Store {
    Store(2, 20, ThreeKeys(), map[2 := FirstDone(if seen then 1 else 0), 3 := SecondRow(phase, None, seen, 0)], map[], map[])
  }

  function BothDone(accepted: nat): Store {
    Store(3, 20, ThreeKeys(), map[2 := FirstDone(1), 3 := SecondRow(Committed, Some(HOUR), true, accepted)], map[],
          if accepted == 0 then map[] else map[3 := HOUR])
  }

  lemma OwnIs(s: Store, own: set<Epoch>)
    requires forall e: Epoch :: OwnRow(s.keys, e) <==> e in own
    ensures Own(s) == own
  {
  }

  lemma FirstRotation()
    ensures Apply(Paired(10, 20), BeginOp(11, Some(1)), 0) == OneKeyMore(Candidate, false)
    ensures Apply(OneKeyMore(Candidate, false), AckOp(2, 1), 0) == OneKeyMore(Acknowledged, false)
    ensures Apply(OneKeyMore(Acknowledged, false), DataOp(2), 0) == OneKeyMore(Acknowledged, true)
  {
    var s := Paired(10, 20);
    OwnIs(s, {1});
    assert PeerEpochs(s) == {1} && Own(s) + PeerEpochs(s) == {1};
    assert LiveIn(s.rotating) == {} && LiveIn(s.acking) == {};
    assert Begin(s, 11, Some(1), 0).0.keys == OneKeyMore(Candidate, false).keys;
    assert Begin(s, 11, Some(1), 0).0.rotating == OneKeyMore(Candidate, false).rotating;
    assert OnAck(OneKeyMore(Candidate, false), 2, 1, 0).0.rotating == OneKeyMore(Acknowledged, false).rotating;
    assert NoteDecryptedNewWrap(OneKeyMore(Acknowledged, false), 2, 0).rotating == OneKeyMore(Acknowledged, true).rotating;
  }

  lemma FirstCommit()
    ensures Apply(Apply(OneKeyMore(Acknowledged, true), ConfirmOp, 0), CommitOp(2), 0) == OneDone()
  {
    var s := OneKeyMore(Acknowledged, true);
    assert 2 in LiveIn(s.rotating) && LiveIn(s.rotating) == {2};
    var t := Apply(s, ConfirmOp, 0);
    assert t.rotating == OneKeyMore(Confirmed, true).rotating;
    assert OnCommit(t, 2, 0).0.rotating == OneDone().rotating;
  }

  lemma SecondRotation()
    ensures Apply(OneDone(), BeginOp(12, Some(2)), HOUR) == TwoKeysMore(Candidate, false)
    ensures Apply(TwoKeysMore(Candidate, false), AckOp(3, 2), HOUR) == TwoKeysMore(Acknowledged, false)
    ensures Apply(TwoKeysMore(Acknowledged, false), DataOp(3), HOUR) == TwoKeysMore(Acknowledged, true)
  {
    var s := OneDone();
    OwnIs(s, {1, 2});
    assert PeerEpochs(s) == {2} && Own(s) + PeerEpochs(s) == {1, 2};
    assert LiveIn(s.rotating) == {} && LiveIn(s.acking) == {};
    assert Max(Own(s)) == 2 && CurrentEpoch(s) == 2;
    assert Begin(s, 12, Some(2), HOUR).0.keys == ThreeKeys();
    assert Begin(s, 12, Some(2), HOUR).0.rotating == TwoKeysMore(Candidate, false).rotating;
    assert OnAck(TwoKeysMore(Candidate, false), 3, 2, HOUR).0.rotating == TwoKeysMore(Acknowledged, false).rotating;
    var n := NoteDecryptedNewWrap(TwoKeysMore(Acknowledged, false), 3, HOUR);
    assert NoteAcceptedEvent(n).rotating == TwoKeysMore(Acknowledged, true).rotating;
  }

  lemma SecondCommit()
    ensures Apply(Apply(TwoKeysMore(Acknowledged, true), ConfirmOp, HOUR), CommitOp(3), HOUR) == BothDone(0)
  {
    var s := TwoKeysMore(Acknowledged, true);
    assert 3 in LiveIn(s.rotating) && LiveIn(s.rotating) == {3};
    var t := Apply(s, ConfirmOp, HOUR);
    assert t.rotating == TwoKeysMore(Confirmed, true).rotating;
    assert OnCommit(t, 3, HOUR).0.rotating == BothDone(0).rotating;
  }

  lemma OneMoreEvent(n: nat)
    ensures Apply(BothDone(n), DataOp(3), HOUR) == BothDone(n + 1)
  {
    var s1 := NoteDecryptedNewWrap(BothDone(n), 3, HOUR);
    assert s1.parked == BothDone(n + 1).parked;
    assert NoteAcceptedEvent(s1).rotating == BothDone(n + 1).rotating;
  }

  function Traffic(n: nat): (ops: seq<(Op, int)>)
    ensures |ops| == n
  {
    if n == 0 then [] else Traffic(n - 1) + [(DataOp(3), HOUR)]
  }

  lemma {:induction false} RunAppend(s: Store, ops: seq<(Op, int)>, more: seq<(Op, int)>)
    ensures RunOps(s, ops + more) == RunOps(RunOps(s, ops), more)
    decreases |ops|
  {
    if ops == [] {
      assert ops + more == more;
    } else {
      assert (ops + more)[0] == ops[0] && (ops + more)[1..] == ops[1..] + more;
      RunAppend(Apply(s, ops[0].0, ops[0].1), ops[1..], more);
    }
  }

  lemma RunOne(s: Store, op: Op, now: int)
    ensures RunOps(s, [(op, now)]) == Apply(s, op, now)
  {
    assert [(op, now)][1..] == [];
  }

  lemma {:induction false} TrafficCounts(n: nat)
    ensures RunOps(BothDone(0), Traffic(n)) == BothDone(n)
  {
    if n > 0 {
      TrafficCounts(n - 1);
      RunAppend(BothDone(0), Traffic(n - 1), [(DataOp(3), HOUR)]);
      RunOne(BothDone(n - 1), DataOp(3), HOUR);
      OneMoreEvent(n - 1);
    }
  }

  function Rotations(): seq<(Op, int)> {
    [(BeginOp(11, Some(1)), 0), (AckOp(2, 1), 0), (DataOp(2), 0), (ConfirmOp, 0), (CommitOp(2), 0)]
    + [(BeginOp(12, Some(2)), HOUR), (AckOp(3, 2), HOUR), (DataOp(3), HOUR), (ConfirmOp, HOUR), (CommitOp(3), HOUR)]
  }

  lemma RunFive(s: Store, a: (Op, int), b: (Op, int), c: (Op, int), d: (Op, int), e: (Op, int))
    ensures RunOps(s, [a, b, c, d, e])
            == Apply(Apply(Apply(Apply(Apply(s, a.0, a.1), b.0, b.1), c.0, c.1), d.0, d.1), e.0, e.1)
  {
    RunAppend(s, [a], [b, c, d, e]);
    RunAppend(Apply(s, a.0, a.1), [b], [c, d, e]);
    RunAppend(Apply(Apply(s, a.0, a.1), b.0, b.1), [c], [d, e]);
    RunAppend(Apply(Apply(Apply(s, a.0, a.1), b.0, b.1), c.0, c.1), [d], [e]);
    assert [a] + [b, c, d, e] == [a, b, c, d, e] && [b] + [c, d, e] == [b, c, d, e] && [c] + [d, e] == [c, d, e] && [d] + [e] == [d, e];
    RunOne(s, a.0, a.1);
    RunOne(Apply(s, a.0, a.1), b.0, b.1);
    RunOne(Apply(Apply(s, a.0, a.1), b.0, b.1), c.0, c.1);
    RunOne(Apply(Apply(Apply(s, a.0, a.1), b.0, b.1), c.0, c.1), d.0, d.1);
    RunOne(Apply(Apply(Apply(Apply(s, a.0, a.1), b.0, b.1), c.0, c.1), d.0, d.1), e.0, e.1);
  }

  lemma RotationsEnd()
    ensures RunOps(Paired(10, 20), Rotations()) == BothDone(0)
  {
    var ops := Rotations();
    RunAppend(Paired(10, 20), ops[..5], ops[5..]);
    assert ops == ops[..5] + ops[5..];
    RunFive(Paired(10, 20), ops[0], ops[1], ops[2], ops[3], ops[4]);
    FirstRotation();
    FirstCommit();
    RunFive(OneDone(), ops[5], ops[6], ops[7], ops[8], ops[9]);
    SecondRotation();
    SecondCommit();
  }

  lemma SweepStrands()
    ensures Stranded(Apply(BothDone(100), SweepOp([2, 3], false), 2 * HOUR), 1)
  {
    var s := BothDone(100);
    var now := 2 * HOUR;
    assert CompactPeers(s.keys) == s.keys;
    assert CompactCommitted(s.rotating, now - COMMITTED_RETENTION) == s.rotating;
    assert Compact(s, now) == s;
    assert TimedOut(s, now) == {};
    assert [2, 3][1..] == [3] && [3][1..] == [];
    assert RetireAll(s, [2, 3], now) == RetireOne(RetireOne(s, 2, now), 3, now);
    assert RetireOne(s, 2, now) == s;
    OwnIs(s, {1, 2, 3});
    var t := RetireOne(s, 3, now);
    assert OwnRow(t.keys, 1) && OwnRow(t.keys, 3);
  }

  /** Two rotations an hour apart, then a hundred events: the sweep retires the
      newer one and drops the middle key, so the oldest private key outlives every
      later sweep although its own rotation committed long ago. */
  lemma OldKeyKeptForever(later: seq<(Op, int)>) returns (ops: seq<(Op, int)>)
    ensures ops == Rotations() + Traffic(100) + [(SweepOp([2, 3], false), 2 * HOUR)]
    ensures OwnRow(RunOps(Paired(10, 20), ops + later).keys, 1)
  {
    RotationsEnd();
    TrafficCounts(100);
    SweepStrands();
    PairedValid(10, 20);
    ops := KeptAfter(Paired(10, 20), Rotations(), Traffic(100), BothDone(0), BothDone(100), (SweepOp([2, 3], false), 2 * HOUR), later);
  }

  lemma KeptAfter(s: Store, first: seq<(Op, int)>, events: seq<(Op, int)>, mid: Store, end: Store, sweep: (Op, int), later: seq<(Op, int)>)
    returns (ops: seq<(Op, int)>)
    requires Valid(s) && RunOps(s, first) == mid && RunOps(mid, events) == end && Stranded(Apply(end, sweep.0, sweep.1), 1)
    ensures ops == first + events + [sweep]
    ensures OwnRow(RunOps(s, ops + later).keys, 1)
  {
    ops := first + events + [sweep];
    RunAppend(s, first, events);
    RunAppend(s, first + events, [sweep]);
    RunOne(end, sweep.0, sweep.1);
    OneSideSafety(s, ops);
    StrandedForever(RunOps(s, ops), later, 1);
    RunAppend(s, ops, later);
  }
}
