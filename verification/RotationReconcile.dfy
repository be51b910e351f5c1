// Re-driving the post-receive hooks of accepted rotation events after crashes
// (cli.py: _run_rotation_hooks, _converge_rotation_hooks,
// _reconcile_rotation_events, _ack_already_sent).

module RotationReconcile {
  import opened Base
  import opened RotationCore
  import opened RotationInvariant
  import opened RotationAgents

  /** An accepted `security.key.*` event; a prepare's message repeats its event id. */
  datatype Event = Event(eid: EventId, msg: Msg)

  /** The rotation tables, the prepares whose ack is persisted (in order), and
      `rotation_processed_events`. */
  datatype Desk = Desk(store: Store, acks: seq<EventId>, marked: set<EventId>)

  /** How far a drive of the hooks got before the process died or the send failed. */
  datatype Stop = BeforeTables | AfterTables | AfterAck | Complete

  /** `manual` is `rotate --ack`, which neither reads nor sets the marker. */
  datatype Move =
    | Drive(ev: Event, stop: Stop, manual: bool)
    | Own(op: Op)

  function HookTables(s: Store, msg: Msg, now: int): (Store, Reply) {
    match msg
    case PrepareMsg(id, p) => OnPrepare(s, p, id, now)
    case AckMsg(e, id) => OnAck(s, e, id, now)
    case ConfirmMsg(e) => OnConfirm(s, e)
    case CommitMsg(e) => OnCommit(s, e, now)
    case DataMsg => (s, Done)
  }

  /** One `_run_rotation_hooks`: the tables, then the ack unless one is already
      persisted, then the marker; a refusal goes straight to the marker, and a
      marked event is not driven again. */
  function Driven(d: Desk, ev: Event, stop: Stop, manual: bool, now: int): Desk {
    if stop == BeforeTables || (!manual && ev.eid in d.marked) then d
    else
      var r := HookTables(d.store, ev.msg, now);
      var d1 := d.(store := r.0);
      if stop == AfterTables then d1
      else
        var d2 := if r.1.AckFor? && ev.eid !in d.acks then d1.(acks := d.acks + [ev.eid]) else d1;
        if stop == AfterAck || manual then d2 else d2.(marked := d.marked + {ev.eid})
  }

  /** `rotate --ack` neither reads the marker nor sets it. */
  lemma ManualIgnoresMarker(d: Desk, ev: Event, stop: Stop, now: int, others: set<EventId>)
    ensures Driven(d, ev, stop, true, now).marked == d.marked
    ensures Driven(d.(marked := others), ev, stop, true, now) == Driven(d, ev, stop, true, now).(marked := others)
  {
  }

  function Moved(d: Desk, m: Move, now: int): Desk {
    match m
    case Drive(ev, stop, manual) => Driven(d, ev, stop, manual, now)
    case Own(op) => d.(store := Apply(d.store, op, now))
  }

  /** What only this side starts: its own rotation steps, data events and sweeps. */
  predicate OwnOp(op: Op) {
    op.BeginOp? || op.DataOp? || op.ConfirmOp? || op.MarkCommittedOp? || op.SweepOp?
  }

  // ---- Convergence of one event ----

  /** Drives of one event, each cut short somewhere. */
  function Drives(d: Desk, ev: Event, tries: seq<(Stop, int)>): Desk
    decreases |tries|
  {
    if tries == [] then d else Drives(Driven(d, ev, tries[0].0, false, tries[0].1), ev, tries[1..])
  }

  /** The first drive that reached the tables. */
  function FirstReach(tries: seq<(Stop, int)>): (i: nat)
    requires exists k :: 0 <= k < |tries| && tries[k].0 == Complete
    ensures i < |tries| && tries[i].0 != BeforeTables
    decreases |tries|
  {
    if tries[0].0 != BeforeTables then 0 else
      assert exists k :: 0 <= k < |tries[1..]| && tries[1..][k].0 == Complete by {
        var k :| 0 <= k < |tries| && tries[k].0 == Complete;
        assert tries[1..][k - 1] == tries[k];
      }
      1 + FirstReach(tries[1..])
  }

  ghost predicate InTime(tries: seq<(Stop, int)>) { forall i, j | 0 <= i < j < |tries| :: tries[i].1 <= tries[j].1 }

  /** Any number of drives cut short anywhere, one of them complete, give what one
      crash-free drive gives at the time of the first that reached the tables: same
      tables, same acks, same markers. */
  lemma {:induction false} CrashConverges(d: Desk, ev: Event, tries: seq<(Stop, int)>)
    requires Valid(d.store) && ev.eid !in d.marked && InTime(tries)
    requires exists k :: 0 <= k < |tries| && tries[k].0 == Complete
    ensures Drives(d, ev, tries) == Driven(d, ev, Complete, false, tries[FirstReach(tries)].1)
    decreases |tries|
  {
    var (stop, now) := tries[0];
    var rest := tries[1..];
    assert forall i | 0 <= i < |rest| :: rest[i] == tries[i + 1];
    if stop == Complete {
      MarkedStays(Driven(d, ev, Complete, false, now), ev, rest);
    } else {
      var d1 := Driven(d, ev, stop, false, now);
      var k :| 0 <= k < |tries| && tries[k].0 == Complete;
      assert rest[k - 1].0 == Complete;
      if stop != BeforeTables { HookKeepsValid(d.store, ev.msg, now); }
      CrashConverges(d1, ev, rest);
      if stop != BeforeTables { OneMoreDrive(d, ev, stop, now, rest[FirstReach(rest)].1); }
    }
  }

  lemma {:induction false} MarkedStays(d: Desk, ev: Event, tries: seq<(Stop, int)>)
    requires ev.eid in d.marked
    ensures Drives(d, ev, tries) == d
    decreases |tries|
  {
    if tries != [] { MarkedStays(d, ev, tries[1..]); }
  }

  lemma OneMoreDrive(d: Desk, ev: Event, stop: Stop, now: int, later: int)
    requires Valid(d.store) && stop != BeforeTables && stop != Complete && now <= later && ev.eid !in d.marked
    ensures Driven(Driven(d, ev, stop, false, now), ev, Complete, false, later) == Driven(d, ev, Complete, false, now)
  {
    HookTwice(d.store, ev.msg, now, later);
  }

  lemma HookTwice(s: Store, msg: Msg, now: int, later: int)
    requires Valid(s) && now <= later
    ensures var r := HookTables(s, msg, now);
            HookTables(r.0, msg, later).0 == r.0 && HookTables(r.0, msg, later).1.AckFor? == r.1.AckFor?
  {
    match msg
    case PrepareMsg(id, p) => PrepareTwice(s, p, id, now, later);
    case AckMsg(e, id) => AckTwice(s, e, id, now, later);
    case ConfirmMsg(e) =>
    case CommitMsg(e) =>
    case DataMsg =>
  }

  lemma AckTwice(s: Store, e: Epoch, id: EventId, now: int, later: int)
    requires now <= later
    ensures OnAck(OnAck(s, e, id, now).0, e, id, later).0 == OnAck(s, e, id, now).0
    ensures !OnAck(OnAck(s, e, id, now).0, e, id, later).1.AckFor? && !OnAck(s, e, id, now).1.AckFor?
  {
    var t := OnAck(s, e, id, now).0;
    if OnAck(s, e, id, now).1.Done? {
      assert e in t.rotating && t.rotating[e].phase == Acknowledged && e !in t.parked;
    } else {
      assert t == s;
    }
  }

  lemma PrepareTwice(s: Store, p: Prepare, id: EventId, now: int, later: int)
    requires Valid(s) && now <= later
    ensures OnPrepare(OnPrepare(s, p, id, now).0, p, id, later).0 == OnPrepare(s, p, id, now).0
    ensures OnPrepare(OnPrepare(s, p, id, now).0, p, id, later).1.AckFor? == OnPrepare(s, p, id, now).1.AckFor?
  {
    var r := OnPrepare(s, p, id, now);
    if r.0 != s {
      FreshPrepareShape(s, p, id, now);
      TakenUpAgain(s, p, id, later);
    } else if r.1.AckFor? {
      var prior := FindPrior(s, p.prior).value;
      assert PeerRow(s.keys, prior + 1);
      RedeliveryNeverReopens(s, prior + 1, prior, p, id);
    } else {
      assert OnPrepare(s, p, id, later) == r || r.1 == Refused(PrepareExpired) || OnPrepare(s, p, id, later).1 == Refused(PrepareExpired);
    }
  }

  lemma TakenUpAgain(s: Store, p: Prepare, id: EventId, later: int)
    requires Valid(s) && p.prior == s.peerKey && s.keyEpoch + 1 !in s.keys
    ensures OnPrepare(TakenUp(s, p, id), p, id, later) == (TakenUp(s, p, id), AckFor(s.keyEpoch + 1))
  {
    var t := TakenUp(s, p, id);
    assert PeerKeyAt(s, s.keyEpoch) == s.peerKey;
    assert PeerKeyAt(t, t.keyEpoch) == p.prior;
    assert FindPrior(t, p.prior) == Some(s.keyEpoch);
  }

  // ---- Settled events ----

  /** The event has changed the tables and can never change them again. */
  ghost predicate Settled(s: Store, msg: Msg) {
    match msg
    case AckMsg(e, id) =>
      e in s.rotating ==>
        || (s.rotating[e].prepareId.Some? && s.rotating[e].prepareId.value != id)
        || (s.rotating[e].phase != Candidate && (s.rotating[e].phase == Acknowledged ==> e !in s.parked))
    case ConfirmMsg(e) => e <= s.keyEpoch || (e in s.acking && s.acking[e].phase == Confirmed)
    case CommitMsg(e) => e <= s.keyEpoch
    case PrepareMsg(id, p) => Superseding(s, p.prior)
    case DataMsg => true
  }

  /** Nothing new can continue `prior`: a rotation away from it is in flight or done. */
  ghost predicate Superseding(s: Store, prior: Key) {
    && (forall e: Epoch :: IsLive(s.acking, e) ==> s.acking[e].newKey != prior)
    && ((exists e: Epoch :: IsLive(s.acking, e)) || s.peerKey != prior)
  }

  lemma SettledMeansQuiet(s: Store, msg: Msg, now: int)
    requires Valid(s) && Settled(s, msg)
    ensures HookTables(s, msg, now).0 == s
  {
    match msg
    case PrepareMsg(id, p) =>
      if OnPrepare(s, p, id, now).0 != s {
        FreshPrepareShape(s, p, id, now);
        NothingLive(s);
      }
    case ConfirmMsg(e) =>
    case CommitMsg(e) => assert e in s.rotating && s.rotating[e].phase == Confirmed ==> IsLive(s.rotating, e);
    case AckMsg(e, id) =>
    case DataMsg =>
  }

  lemma ChangedMeansSettled(s: Store, msg: Msg, now: int)
    requires Valid(s) && HookTables(s, msg, now).0 != s
    requires msg.PrepareMsg? ==> msg.p.newKey != msg.p.prior
    ensures Settled(HookTables(s, msg, now).0, msg)
  {
    match msg
    case PrepareMsg(id, p) =>
      FreshPrepareShape(s, p, id, now);
      NothingLive(s);
      assert IsLive(TakenUp(s, p, id).acking, s.keyEpoch + 1);
    case ConfirmMsg(e) =>
    case CommitMsg(e) => OnCommitKeepsValid(s, e, now);
    case AckMsg(e, id) =>
    case DataMsg =>
  }

  // ---- Other moves keep an event settled ----

  /** Acking rows only go forward, and only by these two operations. */
  ghost predicate AckingSame(s: Store, t: Store) {
    && t.peerKey == s.peerKey && s.keyEpoch <= t.keyEpoch
    && (forall e: Epoch :: IsLive(t.acking, e) <==> IsLive(s.acking, e))
    && (forall e: Epoch :: IsLive(s.acking, e) ==>
          t.acking[e].newKey == s.acking[e].newKey && (s.acking[e].phase == Confirmed ==> t.acking[e].phase == Confirmed))
  }

  lemma AckingSameSettled(s: Store, t: Store, msg: Msg)
    requires AckingSame(s, t) && Settled(s, msg) && !msg.AckMsg?
    ensures Settled(t, msg)
  {
    match msg
    case PrepareMsg(id, p) =>
      if e: Epoch :| IsLive(s.acking, e) { assert IsLive(t.acking, e); }
    case ConfirmMsg(e) => assert e in s.acking && s.acking[e].phase == Confirmed ==> IsLive(s.acking, e);
    case CommitMsg(e) =>
    case DataMsg =>
  }

  lemma MarkCommittedSettled(s: Store, msg: Msg, now: int)
    requires Valid(s) && Settled(s, msg)
    ensures Settled(MarkCommitted(s, now).0, msg)
  {
    var t := MarkCommitted(s, now).0;
    MarkCommittedKeepsValid(s, now);
    if t != s {
      var e := Min(LiveIn(s.acking));
      assert IsLive(s.acking, e);
      assert forall d: Epoch :: IsLive(t.acking, d) ==> IsLive(s.acking, d);
      match msg
      case ConfirmMsg(c) => assert c in s.acking && s.acking[c].phase == Confirmed ==> IsLive(s.acking, c);
      case PrepareMsg(id, p) =>
      case AckMsg(c, id) =>
      case CommitMsg(c) =>
      case DataMsg =>
    }
  }

  lemma {:induction false} RetireAllTables(s: Store, order: seq<Epoch>, now: int)
    ensures var t := RetireAll(s, order, now);
            t.acking == s.acking && t.peerKey == s.peerKey && t.keyEpoch == s.keyEpoch && t.parked == s.parked && FewerPeers(s, t)
            && forall e | e in t.rotating :: e in s.rotating && t.rotating[e] == s.rotating[e]
    decreases |order|
  {
    if order != [] { RetireAllTables(RetireOne(s, order[0], now), order[1..], now); }
  }

  lemma SweepTables(s: Store, order: seq<Epoch>, stopped: bool, now: int)
    requires Valid(s)
    ensures AckingSame(s, Sweep(s, order, stopped, now))
    ensures var t := Sweep(s, order, stopped, now);
            t.parked.Keys <= s.parked.Keys
            && forall e | e in t.rotating :: e in s.rotating && (t.rotating[e] == s.rotating[e] || t.rotating[e].phase == Discarded)
  {
    CompactKeepsValid(s, now);
    var s1 := Compact(s, now);
    if !stopped && TimedOut(s1, now) == {} { RetireAllTables(s1, order, now); }
  }

  lemma SweepPeers(s: Store, order: seq<Epoch>, stopped: bool, now: int)
    ensures FewerPeers(s, Sweep(s, order, stopped, now))
  {
    var s1 := Compact(s, now);
    if !stopped && TimedOut(s1, now) == {} { RetireAllTables(s1, order, now); }
  }

  lemma SweepSettled(s: Store, order: seq<Epoch>, stopped: bool, now: int, msg: Msg)
    requires Valid(s) && Settled(s, msg)
    ensures Settled(Sweep(s, order, stopped, now), msg)
  {
    SweepTables(s, order, stopped, now);
    if !msg.AckMsg? { AckingSameSettled(s, Sweep(s, order, stopped, now), msg); }
  }

  /** A `Begin` in a later step draws an event id no earlier ack refers to. */
  lemma BeginSettled(s: Store, key: Key, id: EventId, now: int, msg: Msg)
    requires Valid(s) && Settled(s, msg) && (msg.AckMsg? ==> msg.prepareId != id)
    ensures Settled(Begin(s, key, Some(id), now).0, msg)
  {
    var t := Begin(s, key, Some(id), now).0;
    assert t.acking == s.acking && t.parked == s.parked;
    if !msg.AckMsg? { AckingSameSettled(s, t, msg); }
  }

  lemma NotesSettled(s: Store, e: Epoch, now: int, msg: Msg)
    requires Valid(s) && Settled(s, msg)
    ensures Settled(NoteAcceptedEvent(NoteDecryptedNewWrap(s, e, now)), msg)
  {
    var s1 := NoteDecryptedNewWrap(s, e, now);
    var t := NoteAcceptedEvent(s1);
    assert s1.acking == s.acking && t.acking == s.acking;
    if !msg.AckMsg? { AckingSameSettled(s, t, msg); }
  }

  lemma OwnOpSettled(s: Store, op: Op, now: int, msg: Msg)
    requires Valid(s) && OwnOp(op) && Settled(s, msg)
    requires op.BeginOp? ==> op.id.Some? && (msg.AckMsg? ==> msg.prepareId != op.id.value)
    ensures Settled(Apply(s, op, now), msg)
  {
    match op
    case BeginOp(key, id) => BeginSettled(s, key, id.value, now, msg);
    case DataOp(e) => NotesSettled(s, e, now, msg);
    case ConfirmOp =>
      if !msg.AckMsg? { AckingSameSettled(s, MarkConfirmed(s).0, msg); }
    case MarkCommittedOp => MarkCommittedSettled(s, msg, now);
    case SweepOp(order, stopped) => SweepSettled(s, order, stopped, now, msg);
  }

  lemma HookSettled(s: Store, other: Msg, now: int, msg: Msg)
    requires Valid(s) && Settled(s, msg)
    requires other.PrepareMsg? && msg.PrepareMsg? && HookTables(s, other, now).0 != s ==> other.p.newKey != msg.p.prior
    ensures Settled(HookTables(s, other, now).0, msg)
  {
    match other
    case PrepareMsg(id, p) => PrepareSettled(s, p, id, now, msg);
    case AckMsg(e, id) => AckHeardSettled(s, e, id, now, msg);
    case ConfirmMsg(e) => ConfirmSettled(s, e, msg);
    case CommitMsg(e) => CommitSettled(s, e, now, msg);
    case DataMsg =>
  }

  lemma AckHeardSettled(s: Store, e: Epoch, id: EventId, now: int, msg: Msg)
    requires Settled(s, msg)
    ensures Settled(OnAck(s, e, id, now).0, msg)
  {
    var t := OnAck(s, e, id, now).0;
    assert t.acking == s.acking && t.peerKey == s.peerKey && t.keyEpoch == s.keyEpoch;
    if !msg.AckMsg? { AckingSameSettled(s, t, msg); }
  }

  lemma ConfirmSettled(s: Store, e: Epoch, msg: Msg)
    requires Settled(s, msg)
    ensures Settled(OnConfirm(s, e).0, msg)
  {
    var t := OnConfirm(s, e).0;
    assert forall d: Epoch :: IsLive(t.acking, d) <==> IsLive(s.acking, d);
    if !msg.AckMsg? { AckingSameSettled(s, t, msg); }
  }

  lemma CommitSettled(s: Store, e: Epoch, now: int, msg: Msg)
    requires Valid(s) && Settled(s, msg)
    ensures Settled(OnCommit(s, e, now).0, msg)
  {
    OnCommitKeepsValid(s, e, now);
    if !msg.AckMsg? { AckingSameSettled(s, OnCommit(s, e, now).0, msg); }
  }

  lemma PrepareSettled(s: Store, p: Prepare, id: EventId, now: int, msg: Msg)
    requires Valid(s) && Settled(s, msg)
    requires msg.PrepareMsg? && OnPrepare(s, p, id, now).0 != s ==> p.newKey != msg.p.prior
    ensures Settled(OnPrepare(s, p, id, now).0, msg)
  {
    if OnPrepare(s, p, id, now).0 != s {
      FreshPrepareShape(s, p, id, now);
      NothingLive(s);
      var t := TakenUp(s, p, id);
      assert forall e: Epoch :: IsLive(t.acking, e) <==> e == s.keyEpoch + 1;
      assert msg.ConfirmMsg? ==> (msg.confirmEpoch in s.acking && s.acking[msg.confirmEpoch].phase == Confirmed ==> IsLive(s.acking, msg.confirmEpoch));
    }
  }

  // ---- Whole runs ----

  function RunDesk(d: Desk, run: seq<(Move, int)>): Desk
    decreases |run|
  {
    if run == [] then d
    else
      var last := run[|run| - 1];
      Moved(RunDesk(d, run[..|run| - 1]), last.0, last.1)
  }

  predicate ChangesTables(d: Desk, m: Move, now: int) { m.Drive? && Driven(d, m.ev, m.stop, m.manual, now).store != d.store }

  /** The events that have changed the tables so far. */
  function Took(d: Desk, run: seq<(Move, int)>): set<Event>
    decreases |run|
  {
    if run == [] then {}
    else
      var before := RunDesk(d, run[..|run| - 1]);
      var last := run[|run| - 1];
      Took(d, run[..|run| - 1]) + if ChangesTables(before, last.0, last.1) then {last.0.ev} else {}
  }

  /** How often driving `ev` has changed the tables. */
  function Changes(d: Desk, run: seq<(Move, int)>, ev: Event): nat
    decreases |run|
  {
    if run == [] then 0
    else
      var before := RunDesk(d, run[..|run| - 1]);
      var last := run[|run| - 1];
      Changes(d, run[..|run| - 1], ev)
      + if ChangesTables(before, last.0, last.1) && last.0.ev == ev then 1 else 0
  }

  predicate DrivesPrepare(m: Move) { m.Drive? && m.ev.msg.PrepareMsg? }

  /** Keys and event ids are drawn once: distinct prepares carry distinct new keys,
      none is the paired key, and no ack precedes the prepare it names. */
  ghost predicate Fresh(k0: Key, run: seq<(Move, int)>) {
    && (forall i | 0 <= i < |run| :: MoveOk(k0, run[i].0))
    && (forall i, j | 0 <= i < |run| && 0 <= j < |run| :: PairOk(run[i].0, run[j].0))
    && (forall i, j | 0 <= i < j < |run| :: OrderOk(run[i].0, run[j].0))
  }

  predicate MoveOk(k0: Key, m: Move) {
    && (m.Own? ==> OwnOp(m.op) && (m.op.BeginOp? ==> m.op.id.Some?))
    && (DrivesPrepare(m) ==> m.ev.msg.p.newKey != k0 && m.ev.msg.p.newKey != m.ev.msg.p.prior && m.ev.msg.id == m.ev.eid)
    && (m.Drive? && m.manual ==> m.ev.msg.PrepareMsg?)
  }

  predicate PairOk(m: Move, n: Move) {
    m.Drive? && n.Drive? && m.ev != n.ev ==>
      m.ev.eid != n.ev.eid && (DrivesPrepare(m) && DrivesPrepare(n) ==> m.ev.msg.p.newKey != n.ev.msg.p.newKey)
  }

  predicate OrderOk(m: Move, n: Move) {
    m.Drive? && m.ev.msg.AckMsg? && n.Own? && n.op.BeginOp? ==> n.op.id != Some(m.ev.msg.prepareId)
  }

  ghost predicate TookPrepare(took: set<Event>, key: Key) {
    exists ev :: ev in took && ev.msg.PrepareMsg? && ev.msg.p.newKey == key
  }

  /** Where every peer key the tables or the settled prepares mention came from. */
  ghost predicate KeyHistory(s: Store, k0: Key, took: set<Event>) {
    && (s.peerKey == k0 || TookPrepare(took, s.peerKey))
    && (forall e: Epoch :: IsLive(s.acking, e) ==> TookPrepare(took, s.acking[e].newKey))
    && (forall e: Epoch :: PeerRow(s.keys, e) ==> TookPrepare(took, s.keys[e].pub))
    && (forall ev | ev in took && ev.msg.PrepareMsg? :: ev.msg.p.prior == k0 || TookPrepare(took, ev.msg.p.prior))
  }

  ghost predicate DeskOk(d: Desk, k0: Key, took: set<Event>) {
    && Valid(d.store) && KeyHistory(d.store, k0, took)
    && (forall ev | ev in took :: Settled(d.store, ev.msg))
  }

  ghost predicate FewerPeers(s: Store, t: Store) {
    forall e: Epoch :: PeerRow(t.keys, e) ==> PeerRow(s.keys, e) && t.keys[e].pub == s.keys[e].pub
  }

  lemma HistoryKept(s: Store, t: Store, k0: Key, took: set<Event>)
    requires KeyHistory(s, k0, took)
    requires t.peerKey == s.peerKey || exists e: Epoch :: IsLive(s.acking, e) && t.peerKey == s.acking[e].newKey
    requires forall e: Epoch :: IsLive(t.acking, e) ==> IsLive(s.acking, e) && t.acking[e].newKey == s.acking[e].newKey
    requires FewerPeers(s, t)
    ensures KeyHistory(t, k0, took)
  {
  }

  lemma OwnHistory(s: Store, op: Op, now: int, k0: Key, took: set<Event>)
    requires Valid(s) && OwnOp(op) && KeyHistory(s, k0, took)
    ensures KeyHistory(Apply(s, op, now), k0, took)
  {
    match op
    case MarkCommittedOp => MarkedHistory(s, now, k0, took);
    case SweepOp(order, stopped) =>
      SweepTables(s, order, stopped, now);
      SweepPeers(s, order, stopped, now);
      HistoryKept(s, Sweep(s, order, stopped, now), k0, took);
    case _ =>
      SamePeers(s, op, now);
      HistoryKept(s, Apply(s, op, now), k0, took);
  }

  lemma SamePeers(s: Store, op: Op, now: int)
    requires op.BeginOp? || op.DataOp? || op.ConfirmOp?
    ensures Apply(s, op, now).acking == s.acking && Apply(s, op, now).peerKey == s.peerKey
    ensures FewerPeers(s, Apply(s, op, now))
  {
  }

  lemma MarkedHistory(s: Store, now: int, k0: Key, took: set<Event>)
    requires Valid(s) && KeyHistory(s, k0, took)
    ensures KeyHistory(MarkCommitted(s, now).0, k0, took)
  {
    if LiveIn(s.acking) != {} { assert IsLive(s.acking, Min(LiveIn(s.acking))); }
    HistoryKept(s, MarkCommitted(s, now).0, k0, took);
  }

  lemma HookAckingKept(s: Store, msg: Msg, now: int)
    requires !msg.PrepareMsg?
    ensures var t := HookTables(s, msg, now).0;
            t.peerKey == s.peerKey && FewerPeers(s, t)
            && forall e: Epoch :: IsLive(t.acking, e) ==> IsLive(s.acking, e) && t.acking[e].newKey == s.acking[e].newKey
  {
  }

  lemma DriveHistory(s: Store, ev: Event, now: int, k0: Key, took: set<Event>)
    requires Valid(s) && KeyHistory(s, k0, took)
    ensures var t := HookTables(s, ev.msg, now).0; KeyHistory(t, k0, if t != s then took + {ev} else took)
  {
    var t := HookTables(s, ev.msg, now).0;
    if t != s {
      var grown := took + {ev};
      forall key | TookPrepare(took, key) ensures TookPrepare(grown, key) {
        var x :| x in took && x.msg.PrepareMsg? && x.msg.p.newKey == key;
        assert x in grown;
      }
      if ev.msg.PrepareMsg? {
        FreshPrepareShape(s, ev.msg.p, ev.msg.id, now);
        NothingLive(s);
        assert ev in grown;
        assert forall e: Epoch :: IsLive(t.acking, e) ==> e == s.keyEpoch + 1;
      } else {
        HookAckingKept(s, ev.msg, now);
        HistoryKept(s, t, k0, grown);
      }
    }
  }

  /** A prepare that is taken up now cannot carry a key some settled prepare continues from. */
  lemma NewKeyIsNew(k0: Key, run: seq<(Move, int)>, d: Desk, ev: Event, prev: Event)
    requires run != [] && Fresh(k0, run) && run[|run| - 1].0.Drive? && run[|run| - 1].0.ev == ev && ev.msg.PrepareMsg?
    requires var took := Took(d, run[..|run| - 1]);
             ev !in took && prev in took && prev.msg.PrepareMsg? && (prev.msg.p.prior == k0 || TookPrepare(took, prev.msg.p.prior))
    ensures ev.msg.p.newKey != prev.msg.p.prior
  {
    var took := Took(d, run[..|run| - 1]);
    var last := run[|run| - 1].0;
    assert MoveOk(k0, last);
    if prev.msg.p.prior != k0 {
      var x :| x in took && x.msg.PrepareMsg? && x.msg.p.newKey == prev.msg.p.prior;
      TookWasDriven(d, run[..|run| - 1], x);
      var i :| 0 <= i < |run| - 1 && run[..|run| - 1][i].0.Drive? && run[..|run| - 1][i].0.ev == x;
      assert PairOk(run[i].0, last);
    }
  }

  lemma {:induction false} TookWasDriven(d: Desk, run: seq<(Move, int)>, ev: Event)
    requires ev in Took(d, run)
    ensures exists i :: 0 <= i < |run| && run[i].0.Drive? && run[i].0.ev == ev
    decreases |run|
  {
    if ev in Took(d, run[..|run| - 1]) {
      TookWasDriven(d, run[..|run| - 1], ev);
      var i :| 0 <= i < |run| - 1 && run[..|run| - 1][i].0.Drive? && run[..|run| - 1][i].0.ev == ev;
      assert run[i].0.ev == ev;
    } else {
      assert run[|run| - 1].0.ev == ev;
    }
  }

  lemma FreshPrefix(k0: Key, run: seq<(Move, int)>)
    requires run != [] && Fresh(k0, run)
    ensures Fresh(k0, run[..|run| - 1])
  {
    var init := run[..|run| - 1];
    assert forall i | 0 <= i < |init| :: init[i] == run[i];
  }

  lemma {:induction false} RunKeepsDesk(d: Desk, k0: Key, run: seq<(Move, int)>)
    requires DeskOk(d, k0, {}) && Fresh(k0, run)
    ensures DeskOk(RunDesk(d, run), k0, Took(d, run))
    decreases |run|
  {
    if run != [] {
      FreshPrefix(k0, run);
      RunKeepsDesk(d, k0, run[..|run| - 1]);
      StepKeepsDesk(d, k0, run);
    }
  }

  lemma StepKeepsDesk(d: Desk, k0: Key, run: seq<(Move, int)>)
    requires run != [] && Fresh(k0, run)
    requires DeskOk(RunDesk(d, run[..|run| - 1]), k0, Took(d, run[..|run| - 1]))
    ensures DeskOk(RunDesk(d, run), k0, Took(d, run))
  {
    var before := RunDesk(d, run[..|run| - 1]);
    var took := Took(d, run[..|run| - 1]);
    var (m, now) := run[|run| - 1];
    assert MoveOk(k0, m);
    match m
    case Own(op) =>
      ApplyKeepsValid(before.store, op, now);
      OwnHistory(before.store, op, now, k0, took);
      forall ev | ev in took ensures Settled(Apply(before.store, op, now), ev.msg) {
        TookWasDriven(d, run[..|run| - 1], ev);
        var i :| 0 <= i < |run| - 1 && run[..|run| - 1][i].0.Drive? && run[..|run| - 1][i].0.ev == ev;
        assert OrderOk(run[i].0, m);
        OwnOpSettled(before.store, op, now, ev.msg);
      }
    case Drive(ev, stop, manual) => DriveKeepsDesk(d, k0, run, before, took, ev, stop, manual, now);
  }

  lemma DriveKeepsDesk(d: Desk, k0: Key, run: seq<(Move, int)>, before: Desk, took: set<Event>, ev: Event, stop: Stop, manual: bool, now: int)
    requires run != [] && Fresh(k0, run) && run[|run| - 1] == (Drive(ev, stop, manual), now)
    requires before == RunDesk(d, run[..|run| - 1]) && took == Took(d, run[..|run| - 1]) && DeskOk(before, k0, took)
    ensures DeskOk(RunDesk(d, run), k0, Took(d, run))
  {
    var t := HookTables(before.store, ev.msg, now).0;
    var after := RunDesk(d, run);
    assert after == Driven(before, ev, stop, manual, now);
    if after.store != before.store {
      assert MoveOk(k0, Drive(ev, stop, manual));
      assert after.store == t;
      HookKeepsValid(before.store, ev.msg, now);
      DriveHistory(before.store, ev, now, k0, took);
      if ev in took { SettledMeansQuiet(before.store, ev.msg, now); }
      ChangedMeansSettled(before.store, ev.msg, now);
      forall prev | prev in took ensures Settled(t, prev.msg) {
        if ev.msg.PrepareMsg? && prev.msg.PrepareMsg? { NewKeyIsNew(k0, run, d, ev, prev); }
        HookSettled(before.store, ev.msg, now, prev.msg);
      }
    }
  }

  lemma HookKeepsValid(s: Store, msg: Msg, now: int)
    requires Valid(s)
    ensures Valid(HookTables(s, msg, now).0)
  {
    match msg
    case PrepareMsg(id, p) => OnPrepareKeepsValid(s, p, id, now);
    case AckMsg(e, id) => OnAckKeepsValid(s, e, id, now);
    case ConfirmMsg(e) => OnConfirmKeepsValid(s, e);
    case CommitMsg(e) => OnCommitKeepsValid(s, e, now);
    case DataMsg =>
  }

  lemma {:induction false} ChangesCount(d: Desk, k0: Key, run: seq<(Move, int)>, ev: Event)
    requires DeskOk(d, k0, {}) && Fresh(k0, run)
    ensures Changes(d, run, ev) == if ev in Took(d, run) then 1 else 0
    decreases |run|
  {
    if run != [] {
      FreshPrefix(k0, run);
      ChangesCount(d, k0, run[..|run| - 1], ev);
      RunKeepsDesk(d, k0, run[..|run| - 1]);
      var before := RunDesk(d, run[..|run| - 1]);
      var (m, now) := run[|run| - 1];
      if m.Drive? && m.ev == ev && ev in Took(d, run[..|run| - 1]) { SettledMeansQuiet(before.store, ev.msg, now); }
    }
  }

  predicate NoTwice(acks: seq<EventId>) { forall i, j | 0 <= i < j < |acks| :: acks[i] != acks[j] }

  lemma {:induction false} AcksOnce(d: Desk, run: seq<(Move, int)>)
    requires NoTwice(d.acks)
    ensures NoTwice(RunDesk(d, run).acks)
    decreases |run|
  {
    if run != [] { AcksOnce(d, run[..|run| - 1]); }
  }

  function NewDesk(own: Key, peer: Key): Desk { Desk(Paired(own, peer), [], {}) }

  /** From pairing, however often each event is delivered, re-driven and cut short
      by crashes, and whatever this side does in between: each event changes the
      tables at most once, and each prepare is answered by at most one ack. */
  lemma EveryEventOnce(own: Key, peer: Key, run: seq<(Move, int)>, ev: Event)
    requires Fresh(peer, run)
    ensures Changes(NewDesk(own, peer), run, ev) <= 1
    ensures NoTwice(RunDesk(NewDesk(own, peer), run).acks)
    ensures Valid(RunDesk(NewDesk(own, peer), run).store)
  {
    PairedValid(own, peer);
    ChangesCount(NewDesk(own, peer), peer, run, ev);
    AcksOnce(NewDesk(own, peer), run);
    RunKeepsDesk(NewDesk(own, peer), peer, run);
  }
}
