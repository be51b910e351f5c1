// What holds over every run of sends, schedules, cancels and releases.

module SchedulerRuns {
  import opened Base
  import opened SchedulerCore

  // ---- One row ----

  /** The fate of one scanned row, from its own contents and its own verdict. */
  function RowAfter(r: QRow, known: bool, v: Verdict, now: int): QRow {
    if now >= EffectiveExpiry(r) then r.(state := Expired)
    else if now < r.deliverAt then r
    else if !known || v.Accepts? then r.(state := Released)
    else if v.Raises? then r.(failures := r.failures + 1, state := if r.failures + 1 >= MAX_ATTEMPTS then Dead else Scheduled)
    else r
  }

  predicate Distinct(order: seq<Sid>) { forall i, j | 0 <= i < j < |order| :: order[i] != order[j] }

  lemma ScanIsDistinct(q: Queue, order: seq<Sid>)
    requires InDueOrder(q, order)
    ensures Distinct(order)
  {
  }

  /** The process is killed while it handles this row, inside its transaction. */
  predicate Kills(r: QRow, known: bool, v: Verdict, now: int) {
    r.state == Scheduled && r.deliverAt <= now < EffectiveExpiry(r) && known && v.Dies?
  }

  /** The rows of the scan that are handled before the process is killed, if it is. */
  function Upto(q: Queue, order: seq<Sid>, verdict: Sid -> Verdict, now: int): (done: seq<Sid>)
    ensures done <= order
    decreases |order|
  {
    if order == [] || (order[0] in q.rows && Kills(q.rows[order[0]], order[0] in q.events, verdict(order[0]), now)) then []
    else [order[0]] + Upto(q, order[1..], verdict, now)
  }

  lemma {:induction false} UptoFrame(q: Queue, t: Queue, order: seq<Sid>, verdict: Sid -> Verdict, now: int)
    requires t.events == q.events
    requires forall sid | sid in order :: sid in q.rows && sid in t.rows && t.rows[sid] == q.rows[sid]
    ensures Upto(t, order, verdict, now) == Upto(q, order, verdict, now)
    decreases |order|
  {
    if order != [] {
      assert forall sid | sid in order[1..] :: sid in order;
      UptoFrame(q, t, order[1..], verdict, now);
    }
  }

  lemma OneRow(q: Queue, sid: Sid, v: Verdict, now: int, wall: int)
    requires sid in Scanned(q)
    ensures var (t, status) := ReleaseOne(q, sid, v, now, wall);
            && t.rows == q.rows[sid := RowAfter(q.rows[sid], sid in q.events, v, now)] && t.events == q.events
            && (status == WasKilled <==> Kills(q.rows[sid], sid in q.events, v, now))
  {
  }

  /** One turn of the loop, and what is left of it. */
  lemma OneTurn(q: Queue, order: seq<Sid>, verdict: Sid -> Verdict, now: int, wall: Sid -> int) returns (q1: Queue, killed: bool)
    requires order != [] && Distinct(order) && forall sid | sid in order :: sid in Scanned(q)
    ensures order[0] in order && order[0] in Scanned(q)
    ensures (q1, killed) == (ReleaseOne(q, order[0], verdict(order[0]), now, wall(order[0])).0, Kills(q.rows[order[0]], order[0] in q.events, verdict(order[0]), now))
    ensures RunDue(q, order, verdict, now, wall) == if killed then q1 else RunDue(q1, order[1..], verdict, now, wall)
    ensures Upto(q, order, verdict, now) == if killed then [] else [order[0]] + Upto(q1, order[1..], verdict, now)
    ensures order[0] !in order[1..] && Distinct(order[1..]) && forall sid | sid in order[1..] :: sid in Scanned(q1) && q1.rows[sid] == q.rows[sid]
    ensures q1.rows == q.rows[order[0] := RowAfter(q.rows[order[0]], order[0] in q.events, verdict(order[0]), now)] && q1.events == q.events
  {
    var head, rest := order[0], order[1..];
    assert head in order;
    OneRow(q, head, verdict(head), now, wall(head));
    q1 := ReleaseOne(q, head, verdict(head), now, wall(head)).0;
    killed := Kills(q.rows[head], head in q.events, verdict(head), now);
    assert forall sid | sid in rest :: sid in order && sid in Scanned(q);
    UptoFrame(q, q1, rest, verdict, now);
  }

  /** `run_due` is a map over rows: each row handled ends as if processed alone,
      whatever the other rows' releases do, and all other rows are untouched. */
  lemma {:induction false} RunDueIsPerRow(q: Queue, order: seq<Sid>, verdict: Sid -> Verdict, now: int, wall: Sid -> int)
    requires Distinct(order) && forall sid | sid in order :: sid in Scanned(q)
    ensures var t := RunDue(q, order, verdict, now, wall); var done := Upto(q, order, verdict, now);
            && t.rows.Keys == q.rows.Keys && t.events == q.events
            && forall sid | sid in q.rows ::
                 t.rows[sid] == if sid in done then RowAfter(q.rows[sid], sid in q.events, verdict(sid), now) else q.rows[sid]
    decreases |order|
  {
    if order != [] {
      var q1, killed := OneTurn(q, order, verdict, now, wall);
      assert order[0] in order;
      if !killed {
        RunDueIsPerRow(q1, order[1..], verdict, now, wall);
        InCons(order[0], Upto(q1, order[1..], verdict, now));
      }
    }
  }

  lemma InCons(x: Sid, s: seq<Sid>)
    ensures forall y :: y in [x] + s <==> y == x || y in s
  {
  }

  // ---- The invariant ----

  /** A row that still holds its approval: pending, delivered, or withdrawn by the user. */
  predicate Charges(r: QRow, a: ApprovalId) {
    r.approval == Some(a) && (r.state == Scheduled || r.state == Released || r.state == Canceled)
  }

  ghost predicate RowsOk(q: Queue) {
    forall sid | sid in q.rows :: q.rows[sid].failures <= MAX_ATTEMPTS && (q.rows[sid].failures == MAX_ATTEMPTS <==> q.rows[sid].state == Dead)
  }

  /** A charging row's approval is spent, on that row alone. */
  ghost predicate ApprovalsOk(q: Queue) {
    && (forall sid, a | sid in q.rows && Charges(q.rows[sid], a) :: a in q.approvals && q.approvals[a].consumedAt.Some?)
    && (forall s, t, a | s in q.rows && t in q.rows && Charges(q.rows[s], a) && Charges(q.rows[t], a) :: s == t)
    && (forall sid | sid in q.rows && q.rows[sid].approval.Some? :: BindingOk(q, q.rows[sid]))
  }

  /** A gated response carries an approval of exactly that response. */
  predicate BindingOk(q: Queue, r: QRow)
    requires r.approval.Some?
  {
    r.approval.value in q.approvals && !NeedOf(r.inner).Incomplete? && (NeedOf(r.inner).Bound? ==> q.approvals[r.approval.value].binding == NeedOf(r.inner).binding)
  }

  predicate Uploaded(q: Queue, sid: Sid) { exists i :: 0 <= i < |q.outgoing| && q.outgoing[i].sid == sid }

  /** Uploads are of known rows, in time; `sent_objects` names exactly the known
      released rows; an entry of the mutation queue has its row released. */
  ghost predicate OutgoingOk(q: Queue) {
    && (forall i | 0 <= i < |q.outgoing| :: UploadOk(q, q.outgoing[i]))
    && (forall sid | sid in q.sent :: sid in q.rows && sid in q.events && q.rows[sid].state == Released && Uploaded(q, sid))
    && (forall sid | sid in q.rows && sid in q.events && q.rows[sid].state == Released :: sid in q.sent)
  }

  predicate UploadOk(q: Queue, u: Upload) {
    u.sid in q.rows && u.sid in q.events && (!u.local ==> u.sid in q.sent)
    && q.rows[u.sid].deliverAt <= u.at < EffectiveExpiry(q.rows[u.sid])
  }

  ghost predicate Valid(q: Queue) { RowsOk(q) && ApprovalsOk(q) && OutgoingOk(q) }

  // ---- Preservation ----

  /** The same uploads, against rows in which released ones are unchanged and the
      others keep their times. */
  lemma OutgoingKept(q: Queue, t: Queue)
    requires OutgoingOk(q) && t.outgoing == q.outgoing && t.sent == q.sent
    requires forall sid | sid in q.rows :: sid in t.rows && EffectiveExpiry(t.rows[sid]) == EffectiveExpiry(q.rows[sid]) && t.rows[sid].deliverAt == q.rows[sid].deliverAt
    requires forall sid | sid in q.rows && q.rows[sid].state == Released :: t.rows[sid].state == Released
    requires forall sid | sid in q.events :: sid in t.events
    requires forall sid | sid in t.rows && t.rows[sid].state == Released && sid in t.events :: sid in q.rows && sid in q.events && q.rows[sid].state == Released
    ensures OutgoingOk(t)
  {
    forall i | 0 <= i < |t.outgoing| ensures UploadOk(t, t.outgoing[i]) { assert UploadOk(q, q.outgoing[i]); }
    forall sid | sid in t.sent ensures Uploaded(t, sid) {
      var i :| 0 <= i < |q.outgoing| && q.outgoing[i].sid == sid;
      assert t.outgoing[i].sid == sid;
    }
  }

  /** Rewriting a scheduled row so that it charges nothing new. */
  lemma TouchKeepsApprovals(q: Queue, sid: Sid, r: QRow)
    requires ApprovalsOk(q) && sid in Scanned(q) && r == q.rows[sid].(state := r.state, failures := r.failures)
    ensures ApprovalsOk(q.(rows := q.rows[sid := r]))
  {
    var t := q.(rows := q.rows[sid := r]);
    assert forall s, a | s in t.rows && Charges(t.rows[s], a) :: Charges(q.rows[s], a);
    forall s | s in t.rows && t.rows[s].approval.Some? ensures BindingOk(t, t.rows[s]) { assert BindingOk(q, q.rows[s]); }
  }

  lemma SendKeepsValid(q: Queue, sid: Sid, i: Inner, deliverAt: Option<int>, expiresAt: Option<int>, a: Option<ApprovalId>, now: int)
    requires Valid(q)
    ensures Valid(Send(q, sid, i, deliverAt, expiresAt, a, now).0)
  {
    var r := Send(q, sid, i, deliverAt, expiresAt, a, now);
    if r.1 == Sent {
      OutgoingKept(q, r.0);
      SendCharges(q, sid, i, deliverAt, expiresAt, a, now);
    }
  }

  lemma SendCharges(q: Queue, sid: Sid, i: Inner, deliverAt: Option<int>, expiresAt: Option<int>, a: Option<ApprovalId>, now: int)
    requires RowsOk(q) && ApprovalsOk(q) && Send(q, sid, i, deliverAt, expiresAt, a, now).1 == Sent
    ensures ApprovalsOk(Send(q, sid, i, deliverAt, expiresAt, a, now).0)
  {
    var t := Send(q, sid, i, deliverAt, expiresAt, a, now).0;
    forall s, x | s in t.rows && Charges(t.rows[s], x) ensures x in t.approvals && t.approvals[x].consumedAt.Some? {
      if s != sid { assert Charges(q.rows[s], x); }
    }
    forall s | s in t.rows && t.rows[s].approval.Some? ensures BindingOk(t, t.rows[s]) {
      if s != sid { assert BindingOk(q, q.rows[s]); }
    }
  }

  lemma CancelKeepsValid(q: Queue, sid: Sid)
    requires Valid(q)
    ensures Valid(Cancel(q, sid).0)
  {
    if sid in q.rows && q.rows[sid].state == Scheduled {
      var t := Cancel(q, sid).0;
      OutgoingKept(q, t);
      TouchKeepsApprovals(q, sid, t.rows[sid]);
    }
  }

  lemma ScheduleKeepsValid(q: Queue, sid: Sid, i: Inner, deliverAt: int, expiresAt: Option<int>, now: int)
    requires Valid(q)
    ensures Valid(Schedule(q, sid, i, deliverAt, expiresAt, now).0)
  {
    var r := Schedule(q, sid, i, deliverAt, expiresAt, now);
    if r.1 == Stored {
      OutgoingKept(q, r.0);
      assert forall s, a | s in r.0.rows && Charges(r.0.rows[s], a) :: s in q.rows && Charges(q.rows[s], a);
      forall s | s in r.0.rows && r.0.rows[s].approval.Some? ensures BindingOk(r.0, r.0.rows[s]) { assert BindingOk(q, q.rows[s]); }
    }
  }

  /** A row that gives its approval back stops charging it in the same transaction. */
  lemma SettleKeepsValid(q: Queue, sid: Sid, r: QRow, at: int)
    requires Valid(q) && sid in Scanned(q) && r == q.rows[sid].(state := r.state, failures := r.failures)
    requires r.state == Expired || r.state == Dead
    requires r.failures <= MAX_ATTEMPTS && (r.failures == MAX_ATTEMPTS <==> r.state == Dead)
    ensures Valid(Restore(q.(rows := q.rows[sid := r]), r.approval, at))
  {
    var q1 := q.(rows := q.rows[sid := r]);
    OutgoingKept(q, q1);
    SettledCharges(q, q1, sid, r);
    RestoreKeepsValid(q1, r.approval, at);
  }

  /** Nothing charges the settled row's approval any more. */
  lemma SettledCharges(q: Queue, q1: Queue, sid: Sid, r: QRow)
    requires ApprovalsOk(q) && sid in Scanned(q) && r.inner == q.rows[sid].inner && r.approval == q.rows[sid].approval
    requires r.state == Expired || r.state == Dead
    requires q1 == q.(rows := q.rows[sid := r])
    ensures ApprovalsOk(q1)
    ensures r.approval.Some? ==> Uncharged(q1, r.approval.value)
  {
    assert forall s, a: ApprovalId | s in q1.rows && Charges(q1.rows[s], a) :: s != sid && Charges(q.rows[s], a);
    assert forall a: ApprovalId :: r.approval == Some(a) ==> Charges(q.rows[sid], a);
    forall s | s in q1.rows && q1.rows[s].approval.Some? ensures BindingOk(q1, q1.rows[s]) { assert BindingOk(q, q.rows[s]); }
  }

  ghost predicate Uncharged(q: Queue, a: ApprovalId) { forall s | s in q.rows :: !Charges(q.rows[s], a) }

  lemma RestoreKeepsValid(q: Queue, a: Option<ApprovalId>, at: int)
    requires Valid(q) && (a.Some? ==> Uncharged(q, a.value))
    ensures Valid(Restore(q, a, at))
  {
    var t := Restore(q, a, at);
    OutgoingKept(q, t);
    forall s | s in t.rows && t.rows[s].approval.Some? ensures BindingOk(t, t.rows[s]) { assert BindingOk(q, t.rows[s]); }
  }

  /** An object on the relay changes nothing else. */
  lemma PutKeepsValid(q: Queue, sid: Sid, now: int)
    requires Valid(q) && sid in q.rows && sid in q.events && q.rows[sid].deliverAt <= now < EffectiveExpiry(q.rows[sid])
    ensures Valid(Put(q, sid, now, true))
  {
    var t := Put(q, sid, now, true);
    PutUploads(q, sid, now, true);
    forall i | 0 <= i < |t.outgoing| ensures UploadOk(t, t.outgoing[i]) { if i < |q.outgoing| { assert UploadOk(q, q.outgoing[i]); } }
    forall s | s in t.rows && t.rows[s].approval.Some? ensures BindingOk(t, t.rows[s]) { assert BindingOk(q, q.rows[s]); }
  }

  lemma PutUploads(q: Queue, sid: Sid, at: int, local: bool)
    ensures forall s :: Uploaded(Put(q, sid, at, local), s) <==> Uploaded(q, s) || (s == sid && sid !in q.sent)
  {
    var t := Put(q, sid, at, local);
    forall s ensures Uploaded(t, s) <==> Uploaded(q, s) || (s == sid && sid !in q.sent) {
      if Uploaded(q, s) {
        var i :| 0 <= i < |q.outgoing| && q.outgoing[i].sid == s;
        assert t.outgoing[i].sid == s;
      }
      if sid !in q.sent { assert t.outgoing[|q.outgoing|].sid == sid; }
    }
  }

  lemma ClaimKeepsValid(q: Queue, sid: Sid, v: Verdict, now: int, wall: int)
    requires Valid(q) && sid in Scanned(q) && ReleaseOne(q, sid, v, now, wall).1 == WasReleased
    ensures Valid(ReleaseOne(q, sid, v, now, wall).0)
  {
    var t := ReleaseOne(q, sid, v, now, wall).0;
    assert forall s, a | s in t.rows && Charges(t.rows[s], a) :: Charges(q.rows[s], a);
    forall s | s in t.rows && t.rows[s].approval.Some? ensures BindingOk(t, t.rows[s]) { assert BindingOk(q, q.rows[s]); }
    if sid in q.events { ClaimOutgoing(q, sid, v.local, now); } else { UnknownOutgoing(q, sid); }
  }

  lemma UnknownOutgoing(q: Queue, sid: Sid)
    requires OutgoingOk(q) && sid in Scanned(q) && sid !in q.events
    ensures OutgoingOk(q.(rows := q.rows[sid := q.rows[sid].(state := Released)]))
  {
    OutgoingKept(q, q.(rows := q.rows[sid := q.rows[sid].(state := Released)]));
  }

  lemma ClaimOutgoing(q: Queue, sid: Sid, local: bool, now: int)
    requires OutgoingOk(q) && sid in Scanned(q) && sid in q.events && q.rows[sid].deliverAt <= now < EffectiveExpiry(q.rows[sid])
    ensures OutgoingOk(Put(q, sid, now, local).(rows := q.rows[sid := q.rows[sid].(state := Released)], sent := q.sent + {sid}))
  {
    var q1 := Put(q, sid, now, local);
    var t := q1.(rows := q.rows[sid := q.rows[sid].(state := Released)], sent := q.sent + {sid});
    PutUploads(q, sid, now, local);
    forall s | Uploaded(q1, s) ensures Uploaded(t, s) {
      var i :| 0 <= i < |q1.outgoing| && q1.outgoing[i].sid == s;
      assert t.outgoing[i].sid == s;
    }
    forall i | 0 <= i < |t.outgoing| ensures UploadOk(t, t.outgoing[i]) { if i < |q.outgoing| { assert UploadOk(q, q.outgoing[i]); } }
  }

  lemma ReleaseOneKeepsValid(q: Queue, sid: Sid, v: Verdict, now: int, wall: int)
    requires Valid(q)
    ensures Valid(ReleaseOne(q, sid, v, now, wall).0)
  {
    var (t, status) := ReleaseOne(q, sid, v, now, wall);
    if sid in q.rows && q.rows[sid].state == Scheduled {
      assert sid in Scanned(q);
      match status
      case WasReleased => ClaimKeepsValid(q, sid, v, now, wall);
      case WasExpired => SettleKeepsValid(q, sid, q.rows[sid].(state := Expired), now);
      case Failed(count) =>
        if v.uploaded { PutKeepsValid(q, sid, now); }
        FailureKeepsValid(if v.uploaded then Put(q, sid, now, true) else q, sid, wall);
      case WasKilled => if v.uploaded { PutKeepsValid(q, sid, now); }
      case _ =>
    }
  }

  lemma FailureKeepsValid(q: Queue, sid: Sid, wall: int)
    requires Valid(q) && sid in Scanned(q)
    ensures Valid(RecordFailure(q, sid, wall).0)
  {
    var r := q.rows[sid].(failures := q.rows[sid].failures + 1);
    if r.failures >= MAX_ATTEMPTS {
      SettleKeepsValid(q, sid, r.(state := Dead), wall);
    } else {
      CountKeepsValid(q, sid);
    }
  }

  lemma CountKeepsValid(q: Queue, sid: Sid)
    requires Valid(q) && sid in Scanned(q) && q.rows[sid].failures + 1 < MAX_ATTEMPTS
    ensures Valid(q.(rows := q.rows[sid := q.rows[sid].(failures := q.rows[sid].failures + 1)]))
  {
    var t := q.(rows := q.rows[sid := q.rows[sid].(failures := q.rows[sid].failures + 1)]);
    OutgoingKept(q, t);
    TouchKeepsApprovals(q, sid, t.rows[sid]);
  }

  lemma {:induction false} RunDueKeepsValid(q: Queue, order: seq<Sid>, verdict: Sid -> Verdict, now: int, wall: Sid -> int)
    requires Valid(q)
    ensures Valid(RunDue(q, order, verdict, now, wall))
    decreases |order|
  {
    if order != [] {
      ReleaseOneKeepsValid(q, order[0], verdict(order[0]), now, wall(order[0]));
      RunDueKeepsValid(ReleaseOne(q, order[0], verdict(order[0]), now, wall(order[0])).0, order[1..], verdict, now, wall);
    }
  }

  // ---- Whole runs ----

  datatype Op =
    | CreateOp(a: ApprovalId, binding: Binding, ttlEnd: int)
    | SendOp(sid: Sid, inner: Inner, at: Option<int>, until: Option<int>, approval: Option<ApprovalId>, now: int)
    | ScheduleOp(sid: Sid, inner: Inner, deliverAt: int, until: Option<int>, now: int)
    | CancelOp(sid: Sid)
    | RunDueOp(order: seq<Sid>, verdict: Sid -> Verdict, now: int, wall: Sid -> int)

  function Apply(q: Queue, op: Op): Queue {
    match op
    case CreateOp(a, b, e) => Create(q, a, b, e)
    case SendOp(sid, i, at, until, a, now) => Send(q, sid, i, at, until, a, now).0
    case ScheduleOp(sid, i, d, until, now) => Schedule(q, sid, i, d, until, now).0
    case CancelOp(sid) => Cancel(q, sid).0
    case RunDueOp(order, verdict, now, wall) => RunDue(q, order, verdict, now, wall)
  }

  lemma ApplyKeepsValid(q: Queue, op: Op)
    requires Valid(q)
    ensures Valid(Apply(q, op))
  {
    match op
    case CreateOp(a, b, e) => OutgoingKept(q, Create(q, a, b, e));
    case SendOp(sid, i, at, until, a, now) => SendKeepsValid(q, sid, i, at, until, a, now);
    case ScheduleOp(sid, i, d, until, now) => ScheduleKeepsValid(q, sid, i, d, until, now);
    case CancelOp(sid) => CancelKeepsValid(q, sid);
    case RunDueOp(order, verdict, now, wall) => RunDueKeepsValid(q, order, verdict, now, wall);
  }

  function RunOps(q: Queue, ops: seq<Op>): Queue
    decreases |ops|
  {
    if ops == [] then q else RunOps(Apply(q, ops[0]), ops[1..])
  }

  const EMPTY: Queue := Queue(map[], map[], {}, {}, [])

  lemma {:induction false} RunKeepsValid(q: Queue, ops: seq<Op>)
    requires Valid(q)
    ensures Valid(RunOps(q, ops))
    decreases |ops|
  {
    if ops != [] {
      ApplyKeepsValid(q, ops[0]);
      RunKeepsValid(Apply(q, ops[0]), ops[1..]);
    }
  }

  // ---- Terminal states ----

  lemma ReleaseOneAbsorbs(q: Queue, sid: Sid, v: Verdict, now: int, wall: int, s: Sid)
    requires s in q.rows && q.rows[s].state != Scheduled
    ensures s in ReleaseOne(q, sid, v, now, wall).0.rows && ReleaseOne(q, sid, v, now, wall).0.rows[s] == q.rows[s]
  {
  }

  lemma {:induction false} RunDueAbsorbs(q: Queue, order: seq<Sid>, verdict: Sid -> Verdict, now: int, wall: Sid -> int, s: Sid)
    requires s in q.rows && q.rows[s].state != Scheduled
    ensures s in RunDue(q, order, verdict, now, wall).rows && RunDue(q, order, verdict, now, wall).rows[s] == q.rows[s]
    decreases |order|
  {
    if order != [] {
      ReleaseOneAbsorbs(q, order[0], verdict(order[0]), now, wall(order[0]), s);
      RunDueAbsorbs(ReleaseOne(q, order[0], verdict(order[0]), now, wall(order[0])).0, order[1..], verdict, now, wall, s);
    }
  }

  /** Released, canceled, expired and dead rows never change again. */
  lemma {:induction false} TerminalForever(q: Queue, ops: seq<Op>, s: Sid)
    requires s in q.rows && q.rows[s].state != Scheduled
    ensures s in RunOps(q, ops).rows && RunOps(q, ops).rows[s] == q.rows[s]
    decreases |ops|
  {
    if ops != [] {
      if ops[0].RunDueOp? { RunDueAbsorbs(q, ops[0].order, ops[0].verdict, ops[0].now, ops[0].wall, s); }
      TerminalForever(Apply(q, ops[0]), ops[1..], s);
    }
  }

  /** After a `run_due` that was not killed, what is still scheduled is not due yet, was held back
      by its own gate, or failed fewer than three times; nothing is past its expiry. */
  lemma NothingOverdue(q: Queue, order: seq<Sid>, verdict: Sid -> Verdict, now: int, wall: Sid -> int, s: Sid)
    requires Valid(q) && IsScan(q, order) && Upto(q, order, verdict, now) == order
    requires s in q.rows && s in RunDue(q, order, verdict, now, wall).rows && RunDue(q, order, verdict, now, wall).rows[s].state == Scheduled
    ensures var r := RunDue(q, order, verdict, now, wall).rows[s];
            && now < EffectiveExpiry(r) && r.failures < MAX_ATTEMPTS
            && (now < r.deliverAt || (s in q.events && !verdict(s).Accepts?))
            && r.failures == q.rows[s].failures + if now >= r.deliverAt && verdict(s).Raises? then 1 else 0
  {
    ScanIsDistinct(q, order);
    RunDueIsPerRow(q, order, verdict, now, wall);
    assert s in Scanned(q);
  }

  // ---- Giving approvals back ----

  /** Processing this row returns its approval: it expired, or failed for the third
      time, while the approval was still within its TTL. */
  predicate GivesBack(q: Queue, s: Sid, a: ApprovalId, v: Verdict, now: int, wall: int)
    requires s in q.rows && a in q.approvals
  {
    var r := RowAfter(q.rows[s], s in q.events, v, now);
    && q.rows[s].approval == Some(a)
    && ((r.state == Expired && q.approvals[a].expiresAt > now) || (r.state == Dead && q.approvals[a].expiresAt > wall))
  }

  lemma ReleaseOneApproval(q: Queue, s: Sid, v: Verdict, now: int, wall: int, a: ApprovalId)
    requires s in Scanned(q) && a in q.approvals
    ensures var t := ReleaseOne(q, s, v, now, wall).0;
            && a in t.approvals && t.approvals[a].expiresAt == q.approvals[a].expiresAt
            && t.approvals[a].consumedAt == if GivesBack(q, s, a, v, now, wall) then None else q.approvals[a].consumedAt
  {
  }

  /** The approvals `run_due` gives back are exactly those of the handled rows that
      it dead-letters or expires within the approval's TTL, uploaded or not; every
      other one is left as it was. */
  lemma {:induction false} GivenBackIff(q: Queue, order: seq<Sid>, verdict: Sid -> Verdict, now: int, wall: Sid -> int, a: ApprovalId)
    requires Distinct(order) && a in q.approvals && forall s | s in order :: s in Scanned(q)
    ensures var t := RunDue(q, order, verdict, now, wall);
            && a in t.approvals
            && t.approvals[a].consumedAt ==
                 if exists s :: s in Upto(q, order, verdict, now) && s in q.rows && GivesBack(q, s, a, verdict(s), now, wall(s)) then None
                 else q.approvals[a].consumedAt
    decreases |order|
  {
    if order != [] {
      var head := order[0];
      var q1, killed := OneTurn(q, order, verdict, now, wall);
      assert head in order;
      ReleaseOneApproval(q, head, verdict(head), now, wall(head), a);
      if !killed {
        GivenBackIff(q1, order[1..], verdict, now, wall, a);
        InCons(head, Upto(q1, order[1..], verdict, now));
        SameGivers(q, q1, order[1..], Upto(q1, order[1..], verdict, now), verdict, now, wall, a);
      }
    }
  }

  /** Rows the first turn did not touch give back what they would have given. */
  lemma SameGivers(q: Queue, q1: Queue, rest: seq<Sid>, done: seq<Sid>, verdict: Sid -> Verdict, now: int, wall: Sid -> int, a: ApprovalId)
    requires done <= rest && a in q.approvals && a in q1.approvals && q1.approvals[a].expiresAt == q.approvals[a].expiresAt && q1.events == q.events
    requires forall s | s in rest :: s in q.rows && s in q1.rows && q1.rows[s] == q.rows[s]
    ensures forall s | s in done :: s in rest && (GivesBack(q1, s, a, verdict(s), now, wall(s)) <==> GivesBack(q, s, a, verdict(s), now, wall(s)))
  {
    assert forall s | s in done :: s in rest;
  }
}
