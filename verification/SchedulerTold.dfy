// The outbox told by its rows, its clock and its approval records, field by field.

module SchedulerTold {
  import opened Base
  import opened SchedulerCore
  import opened SchedulerRuns

  // ---- What an approval is for ----

  /** The record was made for exactly this response: this relationship, this request or
      poll, this answer, and for a request the same decision. */
  predicate MadeFor(b: Binding, i: Inner) {
    match i.kind
    case HumanResponded(request, answer, approved) =>
      && !b.poll && b.rid == i.rid
      && Some(b.subject) == request && Some(b.answer) == answer && Some(b.approved) == approved
    case PollConfirmed(poll, choices) =>
      && b.poll && b.rid == i.rid
      && Some(b.subject) == poll && Some(b.answer) == choices && b.approved
    case Plain => true
  }

  lemma NeedIff(i: Inner, b: Binding)
    ensures NeedOf(i).Bound? ==> (b == NeedOf(i).binding <==> MadeFor(b, i))
    ensures NeedOf(i).Incomplete? ==> !MadeFor(b, i)
    ensures NeedOf(i).Unbound? <==> i.kind.Plain?
  {
  }

  /** The record is there, unspent and alive. */
  predicate Live(q: Queue, a: ApprovalId, now: int) {
    a in q.approvals && q.approvals[a].consumedAt == None && now < q.approvals[a].expiresAt
  }

  /** A field that the binding needs is missing. */
  predicate Lacks(i: Inner) {
    match i.kind
    case HumanResponded(request, answer, approved) => request == None || answer == None || approved == None
    case PollConfirmed(poll, choices) => poll == None || choices == None
    case Plain => false
  }

  /** The exact answers to a send.  With an approval it goes through exactly when that
      approval is a live record made for this response; and the claim, the log entry
      and the row are all there or none of them is. */
  lemma SentIff(q: Queue, sid: Sid, i: Inner, deliverAt: Option<int>, expiresAt: Option<int>, a: Option<ApprovalId>, now: int)
    ensures var (t, reply) := Send(q, sid, i, deliverAt, expiresAt, a, now);
            var unused := sid !in q.events && sid !in q.rows;
            var paid := a == None || (Live(q, a.value, now) && MadeFor(q.approvals[a.value].binding, i));
            && (reply == Sent <==> unused && paid)
            && (reply == IdTaken <==> !unused && paid)
            && (reply == ApprovalBindingIncomplete <==> a != None && Lacks(i))
            && (reply == ApprovalConsumed <==> a != None && !Lacks(i) && !paid)
            && (reply != Sent ==> t == q)
  {
    if a.Some? && a.value in q.approvals { NeedIff(i, q.approvals[a.value].binding); }
  }

  /** What a send writes. */
  lemma SentWrites(q: Queue, sid: Sid, i: Inner, deliverAt: Option<int>, expiresAt: Option<int>, a: Option<ApprovalId>, now: int)
    requires Send(q, sid, i, deliverAt, expiresAt, a, now).1 == Sent
    ensures var t := Send(q, sid, i, deliverAt, expiresAt, a, now).0;
            && (exists at: int ::
                  && (deliverAt == Some(at) || (deliverAt == None && at == now))
                  && t.rows == q.rows[sid := QRow(i, at, expiresAt, Scheduled, 0, a)])
            && t == q.(rows := t.rows, events := q.events + {sid}, approvals := t.approvals)
            && (a == None ==> t.approvals == q.approvals)
            && (a != None ==>
                  && a.value in q.approvals
                  && t.approvals == q.approvals[a.value := Approval(q.approvals[a.value].binding, q.approvals[a.value].expiresAt, Some(now))])
  {
  }

  // ---- Approval records ----

  /** A record is made once; a second one under its name changes nothing. */
  lemma CreateOnce(q: Queue, a: ApprovalId, b: Binding, expiresAt: int)
    ensures var t := Create(q, a, b, expiresAt);
            && (a in q.approvals ==> t == q)
            && (a !in q.approvals ==> t == q.(approvals := q.approvals[a := Approval(b, expiresAt, None)]))
  {
  }

  /** The conditional update: fires exactly on a live record whose fields match, and sets
      only the time. */
  lemma ClaimIff(q: Queue, a: ApprovalId, need: Need, now: int)
    ensures var (t, claimed) := Consume(q, a, need, now);
            && (claimed <==> Live(q, a, now) && (need.Bound? ==> q.approvals[a].binding == need.binding))
            && (!claimed ==> t == q)
            && (claimed ==> t == q.(approvals := q.approvals[a := q.approvals[a].(consumedAt := Some(now))]))
  {
  }

  /** An approval is given back exactly when it was spent and has not expired. */
  lemma RestoreIff(q: Queue, a: Option<ApprovalId>, now: int)
    ensures var t := Restore(q, a, now);
            var back := a != None && a.value in q.approvals && q.approvals[a.value].consumedAt != None && now < q.approvals[a.value].expiresAt;
            && (back ==> t == q.(approvals := q.approvals[a.value := q.approvals[a.value].(consumedAt := None)]))
            && (!back ==> t == q)
  {
  }

  // ---- Scheduling and canceling ----

  /** The exact answers to `schedule`: no later than seven days ahead, no expiry up to the
      delivery time, one row per id; it takes no approval and logs no event. */
  lemma ScheduleIff(q: Queue, sid: Sid, i: Inner, deliverAt: int, expiresAt: Option<int>, now: int)
    ensures var (t, reply) := Schedule(q, sid, i, deliverAt, expiresAt, now);
            var fits := deliverAt <= now + 604800;
            var lasts := expiresAt == None || deliverAt < expiresAt.value;
            && (reply == BeyondAcceptWindow <==> !fits)
            && (reply == ExpiresTooEarly <==> fits && !lasts)
            && (reply == Stored <==> fits && lasts && sid !in q.rows)
            && (reply == AlreadyStored <==> fits && lasts && sid in q.rows && q.rows[sid].inner == i)
            && (reply == IdConflict <==> fits && lasts && sid in q.rows && q.rows[sid].inner != i)
            && (reply == Stored ==> t == q.(rows := q.rows[sid := QRow(i, deliverAt, expiresAt, Scheduled, 0, None)]))
            && (reply != Stored ==> t == q)
  {
  }

  /** A cancel turns a scheduled row, and nothing but its state, to canceled; it leaves
      every other row alone and says why. */
  lemma CancelIff(q: Queue, sid: Sid)
    ensures var (t, reply) := Cancel(q, sid);
            && (sid in q.rows && q.rows[sid].state == Scheduled ==>
                  t == q.(rows := q.rows[sid := QRow(q.rows[sid].inner, q.rows[sid].deliverAt, q.rows[sid].expiresAt, Canceled, q.rows[sid].failures, q.rows[sid].approval)]))
            && (!(sid in q.rows && q.rows[sid].state == Scheduled) ==> t == q)
            && (reply == CanceledReply <==> sid in q.rows && (q.rows[sid].state == Scheduled || q.rows[sid].state == Canceled))
            && (reply == UnknownId <==> sid !in q.rows)
            && (reply == AlreadyReleased <==> sid in q.rows && q.rows[sid].state == Released)
            && (reply == CannotCancel <==> sid in q.rows && (q.rows[sid].state == Expired || q.rows[sid].state == Dead))
  {
  }

  // ---- Releasing one row ----

  /** When a row stops being deliverable. */
  function StopsAt(r: QRow): (t: int)
    ensures r.expiresAt == Some(t) || (r.expiresAt == None && t == r.deliverAt + 86400)
  {
    match r.expiresAt
    case Some(t) => t
    case None => r.deliverAt + 24 * 3600
  }

  /** The answers for one row, each with its exact condition. */
  lemma ReleaseIff(q: Queue, sid: Sid, v: Verdict, now: int, wall: int)
    ensures var status := ReleaseOne(q, sid, v, now, wall).1;
            var pending := sid in q.rows && q.rows[sid].state == Scheduled;
            var due := pending && q.rows[sid].deliverAt <= now < StopsAt(q.rows[sid]);
            && (status == WasExpired <==> pending && StopsAt(q.rows[sid]) <= now)
            && (status == NotDue <==> pending && now < StopsAt(q.rows[sid]) && now < q.rows[sid].deliverAt)
            && (status == WasReleased <==> due && (sid !in q.events || v.Accepts?))
            && (status == SkippedRevoked <==> due && sid in q.events && v == Revoked)
            && (status == SkippedPaused <==> due && sid in q.events && v == Paused)
            && (status == WasKilled <==> due && sid in q.events && v.Dies?)
            && (status.Failed? <==> due && sid in q.events && v.Raises?)
            && (status == SkippedCanceled <==> sid in q.rows && q.rows[sid].state == Canceled)
            && (status == Skipped <==> sid !in q.rows || (q.rows[sid].state != Scheduled && q.rows[sid].state != Canceled))
  {
  }

  /** What releasing one row writes to the rows: the state, and on a failure the count,
      the third one being the last. */
  lemma ReleaseWrites(q: Queue, sid: Sid, v: Verdict, now: int, wall: int)
    ensures var (t, status) := ReleaseOne(q, sid, v, now, wall);
            && t.events == q.events
            && (status == WasExpired ==> t.rows == q.rows[sid := q.rows[sid].(state := Expired)])
            && (status == WasReleased ==> t.rows == q.rows[sid := q.rows[sid].(state := Released)])
            && (status.Failed? ==>
                  var n := q.rows[sid].failures + 1;
                  status.count == n && t.rows == q.rows[sid := q.rows[sid].(failures := n, state := if n >= 3 then Dead else Scheduled)])
            && (status != WasExpired && status != WasReleased && !status.Failed? ==> t.rows == q.rows)
  {
  }

  /** What it uploads, and which objects it then knows as sent: one upload, stamped now,
      unless the object is known; a failure or a kill may leave one behind. */
  lemma ReleaseUploads(q: Queue, sid: Sid, v: Verdict, now: int, wall: int)
    ensures var (t, status) := ReleaseOne(q, sid, v, now, wall);
            && (status == WasReleased && sid in q.events ==>
                  && t.sent == q.sent + {sid}
                  && t.outgoing == (if sid in q.sent then q.outgoing else q.outgoing + [Upload(sid, now, v.local)]))
            && (status.Failed? || status == WasKilled ==>
                  && t.sent == q.sent
                  && t.outgoing == (if sid in q.sent || !v.uploaded then q.outgoing else q.outgoing + [Upload(sid, now, true)]))
            && (!(status == WasReleased && sid in q.events) && !status.Failed? && status != WasKilled ==>
                  t.sent == q.sent && t.outgoing == q.outgoing)
  {
  }

  /** What it gives back: the approval of a row that expires, or fails for the third time,
      while the approval lives. */
  lemma ReleaseGivesBack(q: Queue, sid: Sid, v: Verdict, now: int, wall: int)
    ensures var (t, status) := ReleaseOne(q, sid, v, now, wall);
            var a := if sid in q.rows then q.rows[sid].approval else None;
            var at := if status == WasExpired then now else wall;
            var back := (status == WasExpired || (status.Failed? && status.count >= 3))
                        && a != None && a.value in q.approvals && q.approvals[a.value].consumedAt != None && at < q.approvals[a.value].expiresAt;
            && (back ==> t.approvals == q.approvals[a.value := q.approvals[a.value].(consumedAt := None)])
            && (!back ==> t.approvals == q.approvals)
  {
    if sid in q.rows {
      RestoreIff(q, q.rows[sid].approval, now);
      RestoreIff(q, q.rows[sid].approval, wall);
    }
  }

  /** A recorded failure counts, and the third one ends a row that is still scheduled. */
  lemma FailureTells(q: Queue, sid: Sid, wall: int)
    requires sid in q.rows
    ensures var (t, status) := RecordFailure(q, sid, wall);
            var (r, n) := (q.rows[sid], q.rows[sid].failures + 1);
            && status == Failed(n)
            && t.rows == q.rows[sid := r.(failures := n, state := if n >= 3 && r.state == Scheduled then Dead else r.state)]
            && (n < 3 ==> t.approvals == q.approvals)
  {
  }

  /** What `run_due` goes over: the scheduled rows that have failed less than three times,
      by delivery time and then by id. */
  lemma ScanTold(q: Queue, order: seq<Sid>)
    requires IsScan(q, order)
    ensures forall sid :: sid in order <==> sid in q.rows && q.rows[sid].state == Scheduled && q.rows[sid].failures < 3
    ensures forall i, j | 0 <= i < j < |order| ::
              && order[i] in q.rows && order[j] in q.rows
              && (q.rows[order[i]].deliverAt < q.rows[order[j]].deliverAt
                  || (q.rows[order[i]].deliverAt == q.rows[order[j]].deliverAt && order[i] < order[j]))
  {
  }
}
