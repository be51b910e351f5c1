// Where re-driven hooks end up: in the state of a run that applies each accepted
// rotation event once.

module RotationEndState {
  import opened Base
  import opened RotationCore
  import opened RotationInvariant
  import opened RotationAgents
  import opened RotationReconcile

  /** Own operations in place, and of each event only the drive that changed the
      tables, run to its end. */
  function Kept(d: Desk, run: seq<(Move, int)>): seq<(Move, int)>
    decreases |run|
  {
    if run == [] then []
    else
      var before := RunDesk(d, run[..|run| - 1]);
      var last := run[|run| - 1];
      Kept(d, run[..|run| - 1])
      + if last.0.Own? then [last] else if ChangesTables(before, last.0, last.1) then [(Drive(last.0.ev, Complete, false), last.1)] else []
  }

  /** The marker and the answer of an event that was taken up. */
  ghost predicate TookId(took: set<Event>, id: EventId) { exists ev :: ev in took && ev.eid == id }

  ghost predicate TookUp(took: set<Event>, id: EventId) { exists ev :: ev in took && ev.eid == id && ev.msg.PrepareMsg? }

  lemma OnlyPreparesAck(s: Store, msg: Msg, now: int)
    requires HookTables(s, msg, now).1.AckFor?
    ensures msg.PrepareMsg?
  {
  }

  /** What was driven under one id was one event. */
  lemma OneId(d: Desk, k0: Key, run: seq<(Move, int)>, ev: Event)
    requires run != [] && Fresh(k0, run) && run[|run| - 1].0.Drive? && run[|run| - 1].0.ev == ev
    ensures forall x | x in Took(d, run[..|run| - 1]) && x.eid == ev.eid :: x == ev
    ensures TookId(Took(d, run[..|run| - 1]), ev.eid) <==> ev in Took(d, run[..|run| - 1])
  {
    var init := run[..|run| - 1];
    forall x | x in Took(d, init) && x.eid == ev.eid ensures x == ev {
      TookWasDriven(d, init, x);
      var i :| 0 <= i < |init| && init[i].0.Drive? && init[i].0.ev == x;
      assert PairOk(run[i].0, run[|run| - 1].0);
    }
  }

  // ---- The run that applies each event once ----

  ghost predicate Matches(o: Desk, d: Desk, took: set<Event>) {
    && o.store == d.store
    && (forall id :: id in o.marked <==> TookId(took, id))
    && (forall id :: id in o.acks <==> TookUp(took, id))
  }

  lemma {:induction false} KeptReaches(d: Desk, k0: Key, run: seq<(Move, int)>)
    requires DeskOk(d, k0, {}) && d.marked == {} && d.acks == [] && Fresh(k0, run)
    ensures Matches(RunDesk(d, Kept(d, run)), RunDesk(d, run), Took(d, run))
    decreases |run|
  {
    if run != [] {
      var init := run[..|run| - 1];
      FreshPrefix(k0, run);
      KeptReaches(d, k0, init);
      RunKeepsDesk(d, k0, init);
      KeptStep(d, k0, run, RunDesk(d, Kept(d, init)), RunDesk(d, init), Took(d, init));
    }
  }

  lemma KeptStep(d: Desk, k0: Key, run: seq<(Move, int)>, o: Desk, before: Desk, took: set<Event>)
    requires run != [] && Fresh(k0, run)
    requires var init := run[..|run| - 1]; o == RunDesk(d, Kept(d, init)) && before == RunDesk(d, init) && took == Took(d, init)
    requires DeskOk(before, k0, took) && Matches(o, before, took)
    ensures Matches(RunDesk(d, Kept(d, run)), RunDesk(d, run), Took(d, run))
  {
    var w := Kept(d, run[..|run| - 1]);
    var (m, now) := run[|run| - 1];
    LastMove(d, run, before);
    if m.Own? {
      RunMore(d, w, (m, now));
      OwnMatches(o, before, took, m.op, now);
    } else if ChangesTables(before, m, now) {
      RunMore(d, w, (Drive(m.ev, Complete, false), now));
      NewlyTaken(d, k0, run, before, took);
      TakenOnce(o, before, took, m.ev, m.stop, m.manual, now);
    } else {
      QuietMatches(o, before, took, m, now);
    }
  }

  lemma LastMove(d: Desk, run: seq<(Move, int)>, before: Desk)
    requires run != [] && before == RunDesk(d, run[..|run| - 1])
    ensures var init := run[..|run| - 1]; var (m, now) := run[|run| - 1];
            && RunDesk(d, run) == RotationReconcile.Moved(before, m, now)
            && (ChangesTables(before, m, now) ==>
                  Took(d, run) == Took(d, init) + {m.ev} && Kept(d, run) == Kept(d, init) + [(Drive(m.ev, Complete, false), now)])
            && (!ChangesTables(before, m, now) ==>
                  Took(d, run) == Took(d, init) && Kept(d, run) == if m.Own? then Kept(d, init) + [(m, now)] else Kept(d, init))
  {
  }

  lemma NewlyTaken(d: Desk, k0: Key, run: seq<(Move, int)>, before: Desk, took: set<Event>)
    requires run != [] && Fresh(k0, run) && before == RunDesk(d, run[..|run| - 1]) && took == Took(d, run[..|run| - 1])
    requires DeskOk(before, k0, took) && ChangesTables(before, run[|run| - 1].0, run[|run| - 1].1)
    ensures !TookId(took, run[|run| - 1].0.ev.eid)
  {
    var (m, now) := run[|run| - 1];
    if m.ev in took { SettledMeansQuiet(before.store, m.ev.msg, now); }
    OneId(d, k0, run, m.ev);
  }

  lemma OwnMatches(o: Desk, d: Desk, took: set<Event>, op: Op, now: int)
    requires Matches(o, d, took)
    ensures Matches(RotationReconcile.Moved(o, Own(op), now), RotationReconcile.Moved(d, Own(op), now), took)
  {
  }

  lemma QuietMatches(o: Desk, d: Desk, took: set<Event>, m: Move, now: int)
    requires Matches(o, d, took) && m.Drive? && !ChangesTables(d, m, now)
    ensures Matches(o, RotationReconcile.Moved(d, m, now), took)
  {
  }

  lemma RunMore(d: Desk, w: seq<(Move, int)>, x: (Move, int))
    ensures RunDesk(d, w + [x]) == RotationReconcile.Moved(RunDesk(d, w), x.0, x.1)
  {
    assert (w + [x])[..|w + [x]| - 1] == w;
  }

  lemma TakenOnce(o: Desk, d: Desk, took: set<Event>, ev: Event, stop: Stop, manual: bool, now: int)
    requires Matches(o, d, took) && Valid(d.store) && !TookId(took, ev.eid)
    requires Driven(d, ev, stop, manual, now).store != d.store
    ensures Matches(Driven(o, ev, Complete, false, now), Driven(d, ev, stop, manual, now), took + {ev})
  {
    var grown := took + {ev};
    forall id ensures TookId(grown, id) <==> TookId(took, id) || id == ev.eid {
      if TookId(took, id) { var x :| x in took && x.eid == id; assert x in grown; }
      if id == ev.eid { assert ev in grown; }
    }
    forall id ensures TookUp(grown, id) <==> TookUp(took, id) || (id == ev.eid && ev.msg.PrepareMsg?) {
      if TookUp(took, id) { var x :| x in took && x.eid == id && x.msg.PrepareMsg?; assert x in grown; }
      if id == ev.eid && ev.msg.PrepareMsg? { assert ev in grown; }
    }
    if ev.msg.PrepareMsg? {
      FreshPrepareShape(d.store, ev.msg.p, ev.msg.id, now);
    } else if HookTables(o.store, ev.msg, now).1.AckFor? {
      OnlyPreparesAck(o.store, ev.msg, now);
    }
    assert TookUp(took, ev.eid) ==> TookId(took, ev.eid);
  }

  /** No event is driven twice, and none is cut short. */
  ghost predicate EachOnce(w: seq<(Move, int)>) {
    && (forall i | 0 <= i < |w| && w[i].0.Drive? :: w[i].0.stop == Complete && !w[i].0.manual)
    && (forall i, j | 0 <= i < j < |w| && w[i].0.Drive? && w[j].0.Drive? :: w[i].0.ev != w[j].0.ev)
  }

  lemma {:induction false} KeptOnce(d: Desk, k0: Key, run: seq<(Move, int)>)
    requires DeskOk(d, k0, {}) && Fresh(k0, run)
    ensures EachOnce(Kept(d, run))
    ensures forall i | 0 <= i < |Kept(d, run)| && Kept(d, run)[i].0.Drive? :: Kept(d, run)[i].0.ev in Took(d, run)
    decreases |run|
  {
    if run != [] {
      var init := run[..|run| - 1];
      FreshPrefix(k0, run);
      KeptOnce(d, k0, init);
      RunKeepsDesk(d, k0, init);
      var (m, now) := run[|run| - 1];
      if m.Drive? && m.ev in Took(d, init) { SettledMeansQuiet(RunDesk(d, init).store, m.ev.msg, now); }
    }
  }

  // ---- Every taken-up prepare is answered by the time it is marked ----

  /** The prepare's rotation waits for its ack. */
  predicate PendingRow(s: Store, e: Epoch, ev: Event)
    requires ev.msg.PrepareMsg?
  {
    && IsLive(s.acking, e) && s.acking[e].phase == Acknowledged && e == s.keyEpoch + 1
    && s.acking[e].newKey == ev.msg.p.newKey && s.acking[e].prepareId == Some(ev.eid)
  }

  ghost predicate Pending(s: Store, ev: Event) {
    ev.msg.PrepareMsg? && s.peerKey == ev.msg.p.prior && exists e: Epoch :: PendingRow(s, e, ev)
  }

  ghost predicate Waiting(d: Desk, took: set<Event>) {
    forall ev | ev in took && ev.msg.PrepareMsg? && ev.eid !in d.acks :: ev.eid !in d.marked && Pending(d.store, ev)
  }

  ghost predicate AcksTaken(d: Desk, took: set<Event>) { forall id | id in d.acks :: TookUp(took, id) }

  /** Nothing about live acking rows changes. */
  ghost predicate LiveSame(s: Store, t: Store) {
    && t.peerKey == s.peerKey && t.keyEpoch == s.keyEpoch
    && (forall e: Epoch :: IsLive(s.acking, e) ==> IsLive(t.acking, e) && t.acking[e] == s.acking[e])
  }

  lemma PendingKept(s: Store, t: Store, ev: Event)
    requires Pending(s, ev) && LiveSame(s, t)
    ensures Pending(t, ev)
  {
    var e: Epoch :| PendingRow(s, e, ev);
    assert PendingRow(t, e, ev);
  }

  lemma PendingAcks(s: Store, ev: Event, now: int)
    requires Valid(s) && Pending(s, ev)
    ensures HookTables(s, ev.msg, now) == (s, AckFor(s.keyEpoch + 1))
  {
    var e: Epoch :| PendingRow(s, e, ev);
    assert AckingRowOk(s, e, s.acking[e]);
    assert FindPrior(s, ev.msg.p.prior) == Some(s.keyEpoch);
  }

  lemma SweepLive(s: Store, order: seq<Epoch>, stopped: bool, now: int)
    requires Valid(s)
    ensures LiveSame(s, Sweep(s, order, stopped, now))
  {
    CompactKeepsValid(s, now);
    var s1 := Compact(s, now);
    assert forall e: Epoch :: IsLive(s.acking, e) ==> IsLive(s1.acking, e) && s1.acking[e] == s.acking[e];
    if !stopped && TimedOut(s1, now) == {} { RetireAllTables(s1, order, now); }
  }

  lemma OwnPending(s: Store, op: Op, now: int, ev: Event)
    requires Valid(s) && OwnOp(op) && Pending(s, ev)
    ensures Pending(Apply(s, op, now), ev)
  {
    var e: Epoch :| PendingRow(s, e, ev);
    match op
    case SweepOp(order, stopped) => SweepLive(s, order, stopped, now); PendingKept(s, Sweep(s, order, stopped, now), ev);
    case MarkCommittedOp => assert IsLive(s.acking, Min(LiveIn(s.acking))) by { assert e in LiveIn(s.acking); }
    case _ =>
      SamePeers(s, op, now);
      OwnKeyEpoch(s, op, now);
      PendingKept(s, Apply(s, op, now), ev);
  }

  lemma OwnKeyEpoch(s: Store, op: Op, now: int)
    requires op.BeginOp? || op.DataOp? || op.ConfirmOp?
    ensures Apply(s, op, now).keyEpoch == s.keyEpoch
  {
  }

  lemma HookPending(s: Store, msg: Msg, now: int, ev: Event)
    requires Valid(s) && Pending(s, ev)
    requires msg.ConfirmMsg? && IsLive(s.acking, msg.confirmEpoch) ==> s.acking[msg.confirmEpoch].prepareId != Some(ev.eid)
    ensures Pending(HookTables(s, msg, now).0, ev)
  {
    var e: Epoch :| PendingRow(s, e, ev);
    var t := HookTables(s, msg, now).0;
    match msg
    case PrepareMsg(id, p) =>
      if t != s { FreshPrepareShape(s, p, id, now); NothingLive(s); }
    case AckMsg(a, id) => assert t.acking == s.acking && t.keyEpoch == s.keyEpoch; PendingKept(s, t, ev);
    case ConfirmMsg(c) => assert c in s.acking && s.acking[c].phase == Acknowledged ==> IsLive(s.acking, c);
    case CommitMsg(c) => assert c in s.rotating && s.rotating[c].phase == Confirmed ==> IsLive(s.rotating, c);
    case DataMsg =>
  }

  /** The peer confirms a rotation only after this side has answered its prepare: the
      peer's own row leaves the candidate phase on that ack (`RotationCore.OnAck`). */
  ghost predicate StepAnswered(d: Desk, m: Move) {
    m.Drive? && m.ev.msg.ConfirmMsg? && IsLive(d.store.acking, m.ev.msg.confirmEpoch) ==>
      var r := d.store.acking[m.ev.msg.confirmEpoch]; r.prepareId.Some? && r.prepareId.value in d.acks
  }

  ghost predicate Answered(d: Desk, run: seq<(Move, int)>)
    decreases |run|
  {
    run == [] || (Answered(d, run[..|run| - 1]) && StepAnswered(RunDesk(d, run[..|run| - 1]), run[|run| - 1].0))
  }

  predicate Automatic(run: seq<(Move, int)>) { forall i | 0 <= i < |run| && run[i].0.Drive? :: !run[i].0.manual }

  lemma {:induction false} RunWaits(d: Desk, k0: Key, run: seq<(Move, int)>)
    requires DeskOk(d, k0, {}) && d.acks == [] && Fresh(k0, run) && Automatic(run) && Answered(d, run)
    ensures Waiting(RunDesk(d, run), Took(d, run)) && AcksTaken(RunDesk(d, run), Took(d, run))
    decreases |run|
  {
    if run != [] {
      var init := run[..|run| - 1];
      FreshPrefix(k0, run);
      assert Automatic(init) by { assert forall i | 0 <= i < |init| :: init[i] == run[i]; }
      RunWaits(d, k0, init);
      RunKeepsDesk(d, k0, init);
      StepWaits(d, k0, run);
      StepAcks(d, k0, run);
    }
  }

  lemma StepWaits(d: Desk, k0: Key, run: seq<(Move, int)>)
    requires run != [] && Fresh(k0, run) && Automatic(run) && Answered(d, run)
    requires var init := run[..|run| - 1]; DeskOk(RunDesk(d, init), k0, Took(d, init)) && Waiting(RunDesk(d, init), Took(d, init))
    ensures Waiting(RunDesk(d, run), Took(d, run))
  {
    var init := run[..|run| - 1];
    var before, took := RunDesk(d, init), Took(d, init);
    var (m, now) := run[|run| - 1];
    match m
    case Own(op) =>
      forall ev | ev in took && ev.msg.PrepareMsg? && ev.eid !in before.acks ensures Pending(Apply(before.store, op, now), ev) {
        OwnPending(before.store, op, now, ev);
      }
    case Drive(x, stop, _) =>
      OneId(d, k0, run, x);
      DriveWaits(before, took, x, stop, now, k0);
  }

  lemma DriveWaits(d: Desk, took: set<Event>, x: Event, stop: Stop, now: int, k0: Key)
    requires DeskOk(d, k0, took) && Waiting(d, took) && MoveOk(k0, Drive(x, stop, false))
    requires StepAnswered(d, Drive(x, stop, false)) && forall y | y in took && y.eid == x.eid :: y == x
    ensures var t := Driven(d, x, stop, false, now); Waiting(t, if t.store != d.store then took + {x} else took)
  {
    var t := Driven(d, x, stop, false, now);
    if stop != BeforeTables && x.eid !in d.marked {
      assert t.store == HookTables(d.store, x.msg, now).0;
      forall ev | ev in took && ev.msg.PrepareMsg? && ev.eid !in t.acks ensures ev.eid !in t.marked && Pending(t.store, ev) {
        StillWaits(d, took, x, stop, now, ev);
      }
      if t.store != d.store && x.msg.PrepareMsg? { NewWaits(d, x, stop, now, k0); }
    }
  }

  lemma NewWaits(d: Desk, x: Event, stop: Stop, now: int, k0: Key)
    requires Valid(d.store) && x.msg.PrepareMsg? && MoveOk(k0, Drive(x, stop, false))
    requires Driven(d, x, stop, false, now).store != d.store
    ensures var t := Driven(d, x, stop, false, now); x.eid !in t.acks ==> x.eid !in t.marked && Pending(t.store, x)
  {
    var t := Driven(d, x, stop, false, now);
    FreshPrepareShape(d.store, x.msg.p, x.msg.id, now);
    assert PendingRow(t.store, d.store.keyEpoch + 1, x);
  }

  lemma StillWaits(d: Desk, took: set<Event>, x: Event, stop: Stop, now: int, ev: Event)
    requires Valid(d.store) && Waiting(d, took) && StepAnswered(d, Drive(x, stop, false)) && forall y | y in took && y.eid == x.eid :: y == x
    requires ev in took && ev.msg.PrepareMsg? && ev.eid !in Driven(d, x, stop, false, now).acks
    ensures ev.eid !in Driven(d, x, stop, false, now).marked && Pending(Driven(d, x, stop, false, now).store, ev)
  {
    assert Pending(d.store, ev);
    HookPending(d.store, x.msg, now, ev);
    if ev.eid == x.eid { PendingAcks(d.store, x, now); }
  }

  /** An ack is sent only for a prepare that was taken up: an unchanged table that
      answers `AckFor` already holds that prepare's key. */
  lemma StepAcks(d: Desk, k0: Key, run: seq<(Move, int)>)
    requires run != [] && Fresh(k0, run)
    requires var init := run[..|run| - 1]; DeskOk(RunDesk(d, init), k0, Took(d, init)) && AcksTaken(RunDesk(d, init), Took(d, init))
    ensures AcksTaken(RunDesk(d, run), Took(d, run))
  {
    var init := run[..|run| - 1];
    var before, took := RunDesk(d, init), Took(d, init);
    var (m, now) := run[|run| - 1];
    forall id | TookUp(took, id) ensures TookUp(Took(d, run), id) {
      var x :| x in took && x.eid == id && x.msg.PrepareMsg?;
      assert x in Took(d, run);
    }
    if m.Drive? && m.ev.eid !in before.acks && m.ev.eid in RunDesk(d, run).acks {
      OnlyPreparesAck(before.store, m.ev.msg, now);
      if ChangesTables(before, m, now) {
        assert m.ev in Took(d, run);
      } else {
        KnownPrepare(d, k0, run);
        assert m.ev in Took(d, run);
      }
    }
  }

  lemma KnownKey(s: Store, msg: Msg, now: int)
    requires msg.PrepareMsg? && HookTables(s, msg, now).0 == s && HookTables(s, msg, now).1.AckFor?
    ensures var e := HookTables(s, msg, now).1.ackEpoch; PeerRow(s.keys, e) && s.keys[e].pub == msg.p.newKey
  {
  }

  lemma KnownPrepare(d: Desk, k0: Key, run: seq<(Move, int)>)
    requires run != [] && Fresh(k0, run) && DrivesPrepare(run[|run| - 1].0)
    requires var before := RunDesk(d, run[..|run| - 1]); var (m, now) := run[|run| - 1];
             && DeskOk(before, k0, Took(d, run[..|run| - 1]))
             && HookTables(before.store, m.ev.msg, now).0 == before.store && HookTables(before.store, m.ev.msg, now).1.AckFor?
    ensures run[|run| - 1].0.ev in Took(d, run[..|run| - 1])
  {
    var init := run[..|run| - 1];
    var before, took := RunDesk(d, init), Took(d, init);
    var (m, now) := run[|run| - 1];
    KnownKey(before.store, m.ev.msg, now);
    assert TookPrepare(took, m.ev.msg.p.newKey);
    var x :| x in took && x.msg.PrepareMsg? && x.msg.p.newKey == m.ev.msg.p.newKey;
    TookWasDriven(d, init, x);
    var i :| 0 <= i < |init| && init[i].0.Drive? && init[i].0.ev == x;
    assert PairOk(run[i].0, m);
  }

  // ---- The end state ----

  /** From pairing, over any deliveries, re-drives and crashes, with own operations
      between them: the tables are those of the run that applies, once and whole,
      each event whose drive changed them; no prepare is answered that this run does
      not answer; and an event that is marked as processed is answered exactly when
      this run answers it, that is, when its prepare was taken up. */
  lemma ReconciliationReaches(own: Key, peer: Key, run: seq<(Move, int)>)
    requires Fresh(peer, run) && Automatic(run) && Answered(NewDesk(own, peer), run)
    ensures var d0 := NewDesk(own, peer); var d := RunDesk(d0, run); var w := Kept(d0, run); var once := RunDesk(d0, w);
            && EachOnce(w)
            && d.store == once.store
            && (forall id | id in d.acks :: id in once.acks)
            && (forall id | id in d.marked :: id in d.acks <==> id in once.acks)
            && (forall id :: id in once.acks <==> TookUp(Took(d0, run), id))
  {
    var d0 := NewDesk(own, peer);
    PairedValid(own, peer);
    KeptReaches(d0, peer, run);
    KeptOnce(d0, peer, run);
    RunWaits(d0, peer, run);
    var d := RunDesk(d0, run);
    forall id | id in d.marked && TookUp(Took(d0, run), id) ensures id in d.acks {
      var ev :| ev in Took(d0, run) && ev.eid == id && ev.msg.PrepareMsg?;
    }
  }
}
