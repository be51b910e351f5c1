// The transactional outbox with its single-use human approvals
// (scheduler.py, model/approvals.py, persist_outgoing_in_txn in
// model/events.py, _release_fn in cli.py).  Each function is one transaction;
// times are whole seconds.

module SchedulerCore {
  import opened Base

  type Sid = nat
  type ApprovalId = nat

  const MAX_ATTEMPTS: nat := 3
  const LATE_WINDOW: int := 24 * 3600
  const ACCEPT_WINDOW: int := 7 * 24 * 3600

  // ---- Rows ----

  datatype RowState = Scheduled | Released | Canceled | Expired | Dead

  /** What a sealed event answers, as far as approvals are concerned. */
  datatype Kind =
    | HumanResponded(request: Option<nat>, answer: Option<nat>, approved: Option<bool>)
    | PollConfirmed(poll: Option<nat>, choices: Option<nat>)
    | Plain

  datatype Inner = Inner(rid: nat, kind: Kind, body: nat)

  /** A `scheduler_queue` row. */
  datatype QRow = QRow(
    inner: Inner,
    deliverAt: int,
    expiresAt: Option<int>,
    state: RowState,
    failures: nat,
    approval: Option<ApprovalId>)

  /** The response a human approved. */
  datatype Binding = Binding(rid: nat, poll: bool, subject: nat, answer: nat, approved: bool)

  /** A `human_approvals` row. */
  datatype Approval = Approval(binding: Binding, expiresAt: int, consumedAt: Option<int>)

  /** An object on its way to the peer: an entry of the relay mutation queue, or a
      file the local transport has already put on the relay. */
  datatype Upload = Upload(sid: Sid, at: int, local: bool)

  /** `events` are the ids the event log knows, `sent` those of `sent_objects`. */
  datatype Queue = Queue(
    rows: map<Sid, QRow>,
    approvals: map<ApprovalId, Approval>,
    events: set<Sid>,
    sent: set<Sid>,
    outgoing: seq<Upload>)

  function EffectiveExpiry(r: QRow): int {
    if r.expiresAt.Some? then r.expiresAt.value else r.deliverAt + LATE_WINDOW
  }

  // ---- Approvals ----

  datatype Need = Incomplete | Unbound | Bound(binding: Binding)

  /** The binding `persist_outgoing_in_txn` derives from the event being persisted. */
  function NeedOf(i: Inner): Need {
    match i.kind
    case HumanResponded(request, answer, approved) =>
      if request.Some? && answer.Some? && approved.Some?
      then Bound(Binding(i.rid, false, request.value, answer.value, approved.value)) else Incomplete
    case PollConfirmed(poll, choices) =>
      if poll.Some? && choices.Some? then Bound(Binding(i.rid, true, poll.value, choices.value, true)) else Incomplete
    case Plain => Unbound
  }

  predicate Claimable(q: Queue, a: ApprovalId, need: Need, now: int) {
    && a in q.approvals && q.approvals[a].consumedAt.None? && q.approvals[a].expiresAt > now
    && (need.Bound? ==> q.approvals[a].binding == need.binding)
  }

  /** `consume_approval`: true exactly when the conditional update fires. */
  function Consume(q: Queue, a: ApprovalId, need: Need, now: int): (Queue, bool) {
    if Claimable(q, a, need, now)
    then (q.(approvals := q.approvals[a := q.approvals[a].(consumedAt := Some(now))]), true)
    else (q, false)
  }

  function Create(q: Queue, a: ApprovalId, b: Binding, expiresAt: int): Queue {
    if a in q.approvals then q else q.(approvals := q.approvals[a := Approval(b, expiresAt, None)])
  }

  /** The conditional update of `_restore_approval_for_undelivered`. */
  function Restore(q: Queue, a: Option<ApprovalId>, now: int): Queue {
    if a.Some? && a.value in q.approvals && q.approvals[a.value].consumedAt.Some? && q.approvals[a.value].expiresAt > now
    then q.(approvals := q.approvals[a.value := q.approvals[a.value].(consumedAt := None)])
    else q
  }

  // ---- Sending, scheduling, canceling ----

  datatype SendReply = Sent | ApprovalBindingIncomplete | ApprovalConsumed | IdTaken

  /** The claim, the log entry and the outbox row commit together or not at all. */
  function Send(q: Queue, sid: Sid, i: Inner, deliverAt: Option<int>, expiresAt: Option<int>, a: Option<ApprovalId>, now: int): (Queue, SendReply) {
    if a.Some? && NeedOf(i).Incomplete? then (q, ApprovalBindingIncomplete)
    else if a.Some? && !Consume(q, a.value, NeedOf(i), now).1 then (q, ApprovalConsumed)
    else if sid in q.events || sid in q.rows then (q, IdTaken)
    else
      var q1 := if a.Some? then Consume(q, a.value, NeedOf(i), now).0 else q;
      var row := QRow(i, if deliverAt.Some? then deliverAt.value else now, expiresAt, Scheduled, 0, a);
      (q1.(rows := q1.rows[sid := row], events := q1.events + {sid}), Sent)
  }

  datatype ScheduleReply = Stored | AlreadyStored | BeyondAcceptWindow | ExpiresTooEarly | IdConflict

  function Schedule(q: Queue, sid: Sid, i: Inner, deliverAt: int, expiresAt: Option<int>, now: int): (Queue, ScheduleReply) {
    if deliverAt > now + ACCEPT_WINDOW then (q, BeyondAcceptWindow)
    else if expiresAt.Some? && expiresAt.value <= deliverAt then (q, ExpiresTooEarly)
    else if sid in q.rows then (q, if q.rows[sid].inner == i then AlreadyStored else IdConflict)
    else (q.(rows := q.rows[sid := QRow(i, deliverAt, expiresAt, Scheduled, 0, None)]), Stored)
  }

  datatype CancelReply = CanceledReply | UnknownId | AlreadyReleased | CannotCancel

  function Cancel(q: Queue, sid: Sid): (Queue, CancelReply) {
    if sid !in q.rows then (q, UnknownId)
    else match q.rows[sid].state
         case Scheduled => (q.(rows := q.rows[sid := q.rows[sid].(state := Canceled)]), CanceledReply)
         case Canceled => (q, CanceledReply)
         case Released => (q, AlreadyReleased)
         case _ => (q, CannotCancel)
  }

  // ---- Releasing ----

  /** What the relationship and the transport answer for one row, or where the
      process is killed.  The local transport uploads inside the transaction, so
      what follows may roll the row back with the object already on the relay. */
  datatype Verdict = Accepts(local: bool) | Revoked | Paused | Raises(uploaded: bool) | Dies(uploaded: bool)

  datatype Status = WasReleased | WasExpired | NotDue | SkippedRevoked | SkippedPaused | Failed(count: nat) | Skipped | SkippedCanceled | WasKilled

  /** The upload of `release_fn`, unless `sent_objects` already names the object. */
  function Put(q: Queue, sid: Sid, at: int, local: bool): Queue {
    if sid in q.sent then q else q.(outgoing := q.outgoing + [Upload(sid, at, local)])
  }

  /** One row: expiry first, then the claim with the enqueue, or the failure count.
      `wall` is the clock read when a failure is recorded. */
  function ReleaseOne(q: Queue, sid: Sid, v: Verdict, now: int, wall: int): (Queue, Status) {
    if sid !in q.rows then (q, Skipped)
    else if q.rows[sid].state == Canceled then (q, SkippedCanceled)
    else if q.rows[sid].state != Scheduled then (q, Skipped)
    else
      var r := q.rows[sid];
      if now >= EffectiveExpiry(r) then
        (Restore(q.(rows := q.rows[sid := r.(state := Expired)]), r.approval, now), WasExpired)
      else if now < r.deliverAt then (q, NotDue)
      else if sid !in q.events then (q.(rows := q.rows[sid := r.(state := Released)]), WasReleased)
      else match v
           case Accepts(local) =>
             (Put(q, sid, now, local).(rows := q.rows[sid := r.(state := Released)], sent := q.sent + {sid}), WasReleased)
           case Revoked => (q, SkippedRevoked)
           case Paused => (q, SkippedPaused)
           case Raises(uploaded) => RecordFailure(if uploaded then Put(q, sid, now, true) else q, sid, wall)
           case Dies(uploaded) => (if uploaded then Put(q, sid, now, true) else q, WasKilled)
  }

  /** `_record_release_failure`. */
  function RecordFailure(q: Queue, sid: Sid, wall: int): (Queue, Status)
    requires sid in q.rows
  {
    var r := q.rows[sid].(failures := q.rows[sid].failures + 1);
    if r.failures >= MAX_ATTEMPTS then
      var state := if r.state == Scheduled then Dead else r.state;
      (Restore(q.(rows := q.rows[sid := r.(state := state)]), r.approval, wall), Failed(r.failures))
    else (q.(rows := q.rows[sid := r]), Failed(r.failures))
  }

  /** The rows `run_due` scans. */
  function Scanned(q: Queue): set<Sid> {
    set sid | sid in q.rows && q.rows[sid].state == Scheduled && q.rows[sid].failures < MAX_ATTEMPTS
  }

  /** The loop, as far as the process lives; `wall` is the clock at each row's failure. */
  function RunDue(q: Queue, order: seq<Sid>, verdict: Sid -> Verdict, now: int, wall: Sid -> int): Queue
    decreases |order|
  {
    if order == [] then q
    else
      var (q1, status) := ReleaseOne(q, order[0], verdict(order[0]), now, wall(order[0]));
      if status == WasKilled then q1 else RunDue(q1, order[1..], verdict, now, wall)
  }

  /** `ORDER BY deliver_at, scheduled_id`. */
  predicate DueBefore(rows: map<Sid, QRow>, a: Sid, b: Sid)
    requires a in rows && b in rows
  {
    rows[a].deliverAt < rows[b].deliverAt || (rows[a].deliverAt == rows[b].deliverAt && a < b)
  }

  predicate InDueOrder(q: Queue, order: seq<Sid>) {
    && (forall i | 0 <= i < |order| :: order[i] in q.rows)
    && (forall i, j | 0 <= i < j < |order| :: DueBefore(q.rows, order[i], order[j]))
  }

  /** The scan: every scanned row, each once, in due order. */
  ghost predicate IsScan(q: Queue, order: seq<Sid>) {
    InDueOrder(q, order) && forall sid :: sid in order <==> sid in Scanned(q)
  }
}
