// The outbox and the approvals as mutable tables, changed statement by statement
// (scheduler.py, model/approvals.py, model/events.py).

module SchedulerService {
  import opened Base
  import opened SchedulerCore
  import opened SchedulerRuns
  import opened SchedulerTold

  /** The lists `run_due` returns. */
  datatype Summary = Summary(
    released: seq<Sid>,
    expired: seq<Sid>,
    late: map<Sid, int>,
    failed: seq<Sid>,
    dead: seq<Sid>,
    skippedRevoked: seq<Sid>,
    skippedPaused: seq<Sid>)

  class Scheduler {
    var rows: map<Sid, QRow>
    var approvals: map<ApprovalId, Approval>
    var events: set<Sid>
    var sent: set<Sid>
    var outgoing: seq<Upload>

    function Tables(): Queue
      reads this
    {
      Queue(rows, approvals, events, sent, outgoing)
    }

    constructor ()
      ensures Tables() == EMPTY
    {
      rows, approvals, events, sent, outgoing := map[], map[], {}, {}, [];
    }

    // ---- Approvals ----

    method CreateApproval(a: ApprovalId, b: Binding, expiresAt: int)
      modifies this`approvals
      ensures Tables() == Create(old(Tables()), a, b, expiresAt)
    {
      if a !in approvals { approvals := approvals[a := Approval(b, expiresAt, None)]; }
    }

    /** The update fires for a live record whose columns match every binding given. */
    method ConsumeApproval(a: ApprovalId, need: Need, now: int) returns (claimed: bool)
      modifies this`approvals
      ensures (Tables(), claimed) == Consume(old(Tables()), a, need, now)
    {
      if a !in approvals { return false; }
      var record := approvals[a];
      if record.consumedAt.Some? || record.expiresAt <= now { return false; }
      if need.Bound? && record.binding != need.binding { return false; }
      approvals := approvals[a := record.(consumedAt := Some(now))];
      claimed := true;
    }

    method RestoreApproval(a: Option<ApprovalId>, now: int)
      modifies this`approvals
      ensures Tables() == Restore(old(Tables()), a, now)
    {
      if a.None? { return; }
      if a.value in approvals && approvals[a.value].consumedAt.Some? && approvals[a.value].expiresAt > now {
        approvals := approvals[a.value := approvals[a.value].(consumedAt := None)];
      }
    }

    // ---- Queueing ----

    /** `persist_outgoing_in_txn`: a later conflict rolls the claim back. */
    method PersistOutgoing(sid: Sid, i: Inner, deliverAt: Option<int>, expiresAt: Option<int>, a: Option<ApprovalId>, now: int)
      returns (reply: SendReply)
      modifies this
      ensures (Tables(), reply) == Send(old(Tables()), sid, i, deliverAt, expiresAt, a, now)
      ensures reply == Sent <==>
                && sid !in old(events) && sid !in old(rows)
                && (a == None || (Live(old(Tables()), a.value, now) && MadeFor(old(approvals)[a.value].binding, i)))
    {
      SentIff(Tables(), sid, i, deliverAt, expiresAt, a, now);
      var before := approvals;
      if a.Some? {
        if NeedOf(i).Incomplete? { return ApprovalBindingIncomplete; }
        var claimed := ConsumeApproval(a.value, NeedOf(i), now);
        if !claimed { return ApprovalConsumed; }
      }
      if sid in events || sid in rows {
        approvals := before;
        return IdTaken;
      }
      events := events + {sid};
      rows := rows[sid := QRow(i, if deliverAt.Some? then deliverAt.value else now, expiresAt, Scheduled, 0, None)];
      if a.Some? { rows := rows[sid := rows[sid].(approval := a)]; }
      assert rows == old(rows)[sid := rows[sid]];
      reply := Sent;
    }

    method ScheduleSend(sid: Sid, i: Inner, deliverAt: int, expiresAt: Option<int>, now: int) returns (reply: ScheduleReply)
      modifies this`rows
      ensures (Tables(), reply) == Schedule(old(Tables()), sid, i, deliverAt, expiresAt, now)
    {
      if deliverAt > now + ACCEPT_WINDOW { return BeyondAcceptWindow; }
      if expiresAt.Some? && expiresAt.value <= deliverAt { return ExpiresTooEarly; }
      if sid in rows {
        return if rows[sid].inner == i then AlreadyStored else IdConflict;
      }
      rows := rows[sid := QRow(i, deliverAt, expiresAt, Scheduled, 0, None)];
      reply := Stored;
    }

    method CancelSend(sid: Sid) returns (reply: CancelReply)
      modifies this`rows
      ensures (Tables(), reply) == Cancel(old(Tables()), sid)
      ensures sid in old(rows) && old(rows)[sid].state == Scheduled ==> sid in rows && rows[sid].state == Canceled
    {
      if sid !in rows { return UnknownId; }
      match rows[sid].state {
        case Scheduled =>
          rows := rows[sid := rows[sid].(state := Canceled)];
          reply := CanceledReply;
        case Canceled => reply := CanceledReply;
        case Released => reply := AlreadyReleased;
        case _ => reply := CannotCancel;
      }
    }

    // ---- Releasing ----

    /** The upload of `release_fn`; `sent_objects` makes it happen once per committed row. */
    method UploadRow(sid: Sid, at: int, local: bool)
      modifies this`outgoing
      ensures Tables() == Put(old(Tables()), sid, at, local)
    {
      if sid !in sent { outgoing := outgoing + [Upload(sid, at, local)]; }
    }

    /** One row in its own transaction.  A refusal, an exception or a kill rolls the
        claim back, but not an object the local transport has already uploaded. */
    method ReleaseOneRow(sid: Sid, v: Verdict, now: int, wall: int) returns (status: Status)
      modifies this
      ensures (Tables(), status) == ReleaseOne(old(Tables()), sid, v, now, wall)
    {
      if sid !in rows { return Skipped; }
      var row := rows[sid];
      if row.state == Canceled { return SkippedCanceled; }
      if row.state != Scheduled { return Skipped; }
      if now >= EffectiveExpiry(row) {
        rows := rows[sid := row.(state := Expired)];
        RestoreApproval(row.approval, now);
        return WasExpired;
      }
      if now < row.deliverAt { return NotDue; }
      var before := rows;
      rows := rows[sid := row.(state := Released)];
      if sid !in events { return WasReleased; }
      match v {
        case Accepts(local) =>
          UploadRow(sid, now, local);
          sent := sent + {sid};
          status := WasReleased;
        case Revoked =>
          rows := before;
          status := SkippedRevoked;
        case Paused =>
          rows := before;
          status := SkippedPaused;
        case Raises(uploaded) =>
          if uploaded { UploadRow(sid, now, true); }
          rows := before;
          status := RecordReleaseFailure(sid, wall);
        case Dies(uploaded) =>
          if uploaded { UploadRow(sid, now, true); }
          rows := before;
          status := WasKilled;
      }
    }

    method RecordReleaseFailure(sid: Sid, wall: int) returns (status: Status)
      requires sid in rows
      modifies this`rows, this`approvals
      ensures (Tables(), status) == RecordFailure(old(Tables()), sid, wall)
    {
      rows := rows[sid := rows[sid].(failures := rows[sid].failures + 1)];
      var count := rows[sid].failures;
      if count >= MAX_ATTEMPTS {
        if rows[sid].state == Scheduled { rows := rows[sid := rows[sid].(state := Dead)]; }
        assert rows == old(rows)[sid := rows[sid]];
        RestoreApproval(rows[sid].approval, wall);
      }
      status := Failed(count);
    }

    /** The scan of `run_due`, in due order. */
    method DueRows() returns (order: seq<Sid>)
      ensures IsScan(Tables(), order)
    {
      order := [];
      var rest := Scanned(Tables());
      while rest != {}
        invariant rest <= Scanned(Tables())
        invariant forall sid :: sid in Scanned(Tables()) <==> sid in order || sid in rest
        invariant InDueOrder(Tables(), order)
        invariant forall i, sid | 0 <= i < |order| && sid in rest :: DueBefore(rows, order[i], sid)
      {
        var first := Earliest(rows, rest);
        rest := rest - {first};
        order := order + [first];
      }
    }

    /** One turn of the loop; `start` are the tables the scan was made on. */
    method HandleRow(ghost start: Queue, due: seq<Sid>, i: nat, ghost done: seq<Sid>, verdict: Sid -> Verdict, now: int, wall: Sid -> int)
      returns (status: Status, lateBy: int)
      requires EachOnce(due) && i < |due| && Halfway(start, due, i, Tables(), done, false, verdict, now, wall)
      modifies this
      ensures due[i] in Scanned(start) && due[i] !in done && lateBy == now - start.rows[due[i]].deliverAt
      ensures Tells(start.rows[due[i]], due[i] in start.events, verdict(due[i]), now, status)
      ensures status == ReleaseOne(start, due[i], verdict(due[i]), now, 0).1
      ensures if status == WasKilled then Halfway(start, due, i, Tables(), done, true, verdict, now, wall)
              else Halfway(start, due, i + 1, Tables(), done + [due[i]], false, verdict, now, wall)
    {
      var sid := due[i];
      NextTurn(start, due, i, Tables(), done, verdict, now, wall);
      StatusTells(Tables(), sid, verdict(sid), now, wall(sid));
      SameStatus(start, Tables(), sid, verdict(sid), now, wall(sid));
      lateBy := now - rows[sid].deliverAt;
      status := ReleaseOneRow(sid, verdict(sid), now, wall(sid));
    }

    /** The loop over the scanned rows, one transaction per row, while the process lives. */
    method RunRows(ghost start: Queue, due: seq<Sid>, verdict: Sid -> Verdict, now: int, wall: Sid -> int)
      returns (summary: Summary, killed: bool, ghost i: nat, ghost done: seq<Sid>)
      requires EachOnce(due) && Halfway(start, due, 0, Tables(), [], false, verdict, now, wall)
      modifies this
      ensures Halfway(start, due, i, Tables(), done, killed, verdict, now, wall) && (killed || i == |due|)
      ensures ReportsSoFar(summary, start, done, verdict, now) && Tallies(summary, start, done, verdict, now)
    {
      killed := false;
      summary := Summary([], [], map[], [], [], [], []);
      done := [];
      var k := 0;
      while k < |due| && !killed
        invariant 0 <= k <= |due|
        invariant Halfway(start, due, k, Tables(), done, killed, verdict, now, wall)
        invariant ReportsSoFar(summary, start, done, verdict, now)
        invariant Tallies(summary, start, done, verdict, now)
        decreases |due| - k, if killed then 0 else 1
      {
        var status, lateBy := HandleRow(start, due, k, done, verdict, now, wall);
        if status == WasKilled {
          killed := true;
        } else {
          TalliedOne(summary, start, done, due[k], status, verdict, now, lateBy);
          RecordedOne(summary, start, done, due[k], status, verdict, now, lateBy);
          summary := Record(summary, due[k], status, lateBy);
          done := done + [due[k]];
          k := k + 1;
        }
      }
      i := k;
    }

    method RunDue(verdict: Sid -> Verdict, now: int, wall: Sid -> int) returns (summary: Summary, killed: bool, ghost order: seq<Sid>)
      modifies this
      ensures IsScan(old(Tables()), order) && Tables() == SchedulerCore.RunDue(old(Tables()), order, verdict, now, wall)
      ensures Valid(old(Tables())) ==> Valid(Tables())
      ensures Reports(summary, old(rows), rows)
      ensures Tallies(summary, old(Tables()), Upto(old(Tables()), order, verdict, now), verdict, now)
      ensures !killed ==> Upto(old(Tables()), order, verdict, now) == order
    {
      ghost var start := Tables();
      var due := DueRows();
      FirstTurn(start, due, verdict, now, wall);
      ghost var i, done;
      summary, killed, i, done := RunRows(start, due, verdict, now, wall);
      order := due;
      AllTurns(start, due, i, Tables(), done, killed, verdict, now, wall);
      ReportsAll(summary, start, due, done, verdict, now, wall);
      if Valid(start) { RunDueKeepsValid(start, due, verdict, now, wall); }
    }
  }

  /** No id twice. */
  predicate EachOnce(due: seq<Sid>) { due == [] || (due[0] !in due[1..] && EachOnce(due[1..])) }

  lemma {:induction false} EachOnceIff(due: seq<Sid>)
    ensures EachOnce(due) <==> Distinct(due)
    decreases |due|
  {
    if due != [] {
      EachOnceIff(due[1..]);
      assert forall i | 0 <= i < |due[1..]| :: due[1..][i] == due[i + 1];
    }
  }

  /** The rows not yet handled are as the scan found them. */
  ghost predicate StillDue(q: Queue, due: seq<Sid>, i: nat, t: Queue) {
    forall j | i <= j < |due| :: due[j] in Scanned(t) && due[j] in q.rows && t.rows[due[j]] == q.rows[due[j]]
  }

  /** After `i` turns: what is done, and that the rest leads to the function's result. */
  ghost predicate Halfway(q: Queue, due: seq<Sid>, i: nat, t: Queue, done: seq<Sid>, killed: bool, verdict: Sid -> Verdict, now: int, wall: Sid -> int) {
    && i <= |due| && done == due[..i] && t.events == q.events
    && StillDue(q, due, i, t)
    && SchedulerCore.RunDue(q, due, verdict, now, wall) == (if killed then t else SchedulerCore.RunDue(t, due[i..], verdict, now, wall))
    && Upto(q, due, verdict, now) == done + (if killed then [] else Upto(t, due[i..], verdict, now))
  }

  lemma AllTurns(q: Queue, due: seq<Sid>, i: nat, t: Queue, done: seq<Sid>, killed: bool, verdict: Sid -> Verdict, now: int, wall: Sid -> int)
    requires Halfway(q, due, i, t, done, killed, verdict, now, wall) && (killed || i == |due|)
    ensures t == SchedulerCore.RunDue(q, due, verdict, now, wall) && done == Upto(q, due, verdict, now) && (!killed ==> done == due)
  {
    assert due[|due|..] == [] && due[..|due|] == due;
  }

  lemma FirstTurn(q: Queue, due: seq<Sid>, verdict: Sid -> Verdict, now: int, wall: Sid -> int)
    requires IsScan(q, due)
    ensures EachOnce(due) && Halfway(q, due, 0, q, [], false, verdict, now, wall)
  {
    ScanIsDistinct(q, due);
    EachOnceIff(due);
    assert due[0..] == due && due[..0] == [];
    assert forall j | 0 <= j < |due| :: due[j] in due;
  }

  lemma NextTurn(q: Queue, due: seq<Sid>, i: nat, t: Queue, done: seq<Sid>, verdict: Sid -> Verdict, now: int, wall: Sid -> int)
    requires EachOnce(due) && i < |due| && Halfway(q, due, i, t, done, false, verdict, now, wall)
    ensures due[i] in Scanned(t) && due[i] in q.rows && t.rows[due[i]] == q.rows[due[i]] && due[i] in Scanned(q) && due[i] !in done
    ensures var (t1, status) := ReleaseOne(t, due[i], verdict(due[i]), now, wall(due[i]));
            if status == WasKilled then Halfway(q, due, i, t1, done, true, verdict, now, wall)
            else Halfway(q, due, i + 1, t1, done + [due[i]], false, verdict, now, wall)
  {
    Rest(due, i);
    RestScanned(q, due, i, t);
    var t1, killed := TurnOf(t, due[i..], verdict, now, wall);
    OneRow(t, due[i], verdict(due[i]), now, wall(due[i]));
    AfterTurn(q, due, i, t, t1, killed, verdict, now, wall);
  }

  lemma RestScanned(q: Queue, due: seq<Sid>, i: nat, t: Queue)
    requires EachOnce(due) && i < |due| && StillDue(q, due, i, t)
    ensures forall sid | sid in due[i..] :: sid in Scanned(t) && sid in q.rows && t.rows[sid] == q.rows[sid]
  {
    Rest(due, i);
  }

  lemma AfterTurn(q: Queue, due: seq<Sid>, i: nat, t: Queue, t1: Queue, killed: bool, verdict: Sid -> Verdict, now: int, wall: Sid -> int)
    requires EachOnce(due) && i < |due| && Halfway(q, due, i, t, due[..i], false, verdict, now, wall) && t1.events == t.events
    requires SchedulerCore.RunDue(t, due[i..], verdict, now, wall) == if killed then t1 else SchedulerCore.RunDue(t1, due[i + 1..], verdict, now, wall)
    requires Upto(t, due[i..], verdict, now) == if killed then [] else [due[i]] + Upto(t1, due[i + 1..], verdict, now)
    requires forall sid | sid in due[i + 1..] :: sid in Scanned(t1) && t1.rows[sid] == t.rows[sid]
    requires killed ==> due[i] in Scanned(t1) && t1.rows[due[i]] == t.rows[due[i]]
    ensures if killed then Halfway(q, due, i, t1, due[..i], true, verdict, now, wall)
            else Halfway(q, due, i + 1, t1, due[..i] + [due[i]], false, verdict, now, wall)
  {
    StillDueNext(q, due, i, t, t1, killed);
    if !killed {
      assert due[..i + 1] == due[..i] + [due[i]];
      Regroup(due[..i], due[i], Upto(t1, due[i + 1..], verdict, now));
    }
  }

  lemma Regroup(a: seq<Sid>, x: Sid, b: seq<Sid>)
    ensures a + ([x] + b) == a + [x] + b
  {
  }

  lemma StillDueNext(q: Queue, due: seq<Sid>, i: nat, t: Queue, t1: Queue, killed: bool)
    requires i < |due| && StillDue(q, due, i, t)
    requires forall sid | sid in due[i + 1..] :: sid in Scanned(t1) && t1.rows[sid] == t.rows[sid]
    requires killed ==> due[i] in Scanned(t1) && t1.rows[due[i]] == t.rows[due[i]]
    ensures StillDue(q, due, i + 1, t1) && (killed ==> StillDue(q, due, i, t1))
  {
    forall j | i < j < |due| ensures due[j] in due[i + 1..] { assert due[i + 1..][j - i - 1] == due[j]; }
  }

  lemma Rest(due: seq<Sid>, i: nat)
    requires EachOnce(due) && i < |due|
    ensures EachOnce(due[i..]) && due[i..][0] == due[i] && due[i..][1..] == due[i + 1..] && due[..i + 1] == due[..i] + [due[i]]
    ensures due[i] !in due[..i] && due[i] !in due[i + 1..]
    ensures forall sid | sid in due[i..] :: exists j :: i <= j < |due| && due[j] == sid
    ensures forall j | i < j < |due| :: due[j] in due[i + 1..]
  {
    EachOnceIff(due);
    EachOnceIff(due[i..]);
    forall j | i < j < |due| ensures due[j] in due[i + 1..] { assert due[i + 1..][j - i - 1] == due[j]; }
    forall sid | sid in due[i..] ensures exists j :: i <= j < |due| && due[j] == sid {
      var k :| 0 <= k < |due[i..]| && due[i..][k] == sid;
      assert due[i + k] == sid;
    }
  }

  lemma TurnOf(q: Queue, order: seq<Sid>, verdict: Sid -> Verdict, now: int, wall: Sid -> int) returns (q1: Queue, killed: bool)
    requires order != [] && EachOnce(order) && forall sid | sid in order :: sid in Scanned(q)
    ensures order[0] in Scanned(q)
    ensures (q1, killed) == (ReleaseOne(q, order[0], verdict(order[0]), now, wall(order[0])).0, Kills(q.rows[order[0]], order[0] in q.events, verdict(order[0]), now))
    ensures SchedulerCore.RunDue(q, order, verdict, now, wall) == if killed then q1 else SchedulerCore.RunDue(q1, order[1..], verdict, now, wall)
    ensures Upto(q, order, verdict, now) == if killed then [] else [order[0]] + Upto(q1, order[1..], verdict, now)
    ensures q1.events == q.events && forall sid | sid in order[1..] :: sid in Scanned(q1) && q1.rows[sid] == q.rows[sid]
  {
    EachOnceIff(order);
    q1, killed := OneTurn(q, order, verdict, now, wall);
  }

  /** A summary's lists name exactly the rows that changed that way. */
  ghost predicate Reports(s: Summary, before: map<Sid, QRow>, after: map<Sid, QRow>) {
    && (forall sid :: sid in s.released <==> sid in Turned(before, after, Released))
    && (forall sid :: sid in s.expired <==> sid in Turned(before, after, Expired))
    && (forall sid :: sid in s.dead <==> sid in Turned(before, after, Dead))
  }

  /** The row was due, and its event is in the log. */
  predicate DueKnown(q: Queue, sid: Sid, now: int) {
    sid in q.rows && sid in q.events && q.rows[sid].state == Scheduled && q.rows[sid].deliverAt <= now < StopsAt(q.rows[sid])
  }

  /** The other lists name exactly the handled rows that failed for the first or second
      time, or that consent or policy held back, and how late each released one was. */
  ghost predicate Tallies(s: Summary, q: Queue, done: seq<Sid>, verdict: Sid -> Verdict, now: int) {
    && (forall sid :: sid in s.failed <==> sid in done && DueKnown(q, sid, now) && verdict(sid).Raises? && q.rows[sid].failures + 1 < 3)
    && (forall sid :: sid in s.skippedRevoked <==> sid in done && DueKnown(q, sid, now) && verdict(sid) == Revoked)
    && (forall sid :: sid in s.skippedPaused <==> sid in done && DueKnown(q, sid, now) && verdict(sid) == Paused)
    && (forall sid :: sid in s.late <==> sid in s.released && sid in q.rows && q.rows[sid].deliverAt < now)
    && (forall sid | sid in s.late :: sid in q.rows && s.late[sid] == now - q.rows[sid].deliverAt)
  }

  /** A row's status does not depend on the other rows. */
  lemma SameStatus(q: Queue, t: Queue, sid: Sid, v: Verdict, now: int, wall: int)
    requires sid in q.rows && sid in t.rows && t.rows[sid] == q.rows[sid] && t.events == q.events
    ensures ReleaseOne(t, sid, v, now, wall).1 == ReleaseOne(q, sid, v, now, 0).1
  {
  }

  lemma TalliedOne(s: Summary, q: Queue, done: seq<Sid>, sid: Sid, status: Status, verdict: Sid -> Verdict, now: int, lateBy: int)
    requires Tallies(s, q, done, verdict, now) && sid !in done && sid in q.rows && lateBy == now - q.rows[sid].deliverAt
    requires status == ReleaseOne(q, sid, verdict(sid), now, 0).1
    ensures Tallies(Record(s, sid, status, lateBy), q, done + [sid], verdict, now)
  {
    ReleaseIff(q, sid, verdict(sid), now, 0);
    ReleaseWrites(q, sid, verdict(sid), now, 0);
  }

  ghost predicate Ended(q: Queue, done: seq<Sid>, verdict: Sid -> Verdict, now: int, sid: Sid, state: RowState) {
    sid in done && sid in q.rows && RowAfter(q.rows[sid], sid in q.events, verdict(sid), now).state == state
  }

  ghost predicate ReportsSoFar(s: Summary, q: Queue, done: seq<Sid>, verdict: Sid -> Verdict, now: int) {
    && (forall sid :: sid in s.released <==> Ended(q, done, verdict, now, sid, Released))
    && (forall sid :: sid in s.expired <==> Ended(q, done, verdict, now, sid, Expired))
    && (forall sid :: sid in s.dead <==> Ended(q, done, verdict, now, sid, Dead))
  }

  /** What a status says about its row. */
  predicate Tells(r: QRow, known: bool, v: Verdict, now: int, status: Status) {
    var state := RowAfter(r, known, v, now).state;
    && (status == WasReleased <==> state == Released) && (status == WasExpired <==> state == Expired)
    && (status.Failed? && status.count >= MAX_ATTEMPTS <==> state == Dead)
  }

  lemma StatusTells(q: Queue, sid: Sid, v: Verdict, now: int, wall: int)
    requires sid in Scanned(q)
    ensures Tells(q.rows[sid], sid in q.events, v, now, ReleaseOne(q, sid, v, now, wall).1)
  {
  }

  lemma RecordedOne(s: Summary, q: Queue, done: seq<Sid>, sid: Sid, status: Status, verdict: Sid -> Verdict, now: int, lateBy: int)
    requires ReportsSoFar(s, q, done, verdict, now) && sid !in done && sid in Scanned(q)
    requires Tells(q.rows[sid], sid in q.events, verdict(sid), now, status)
    ensures ReportsSoFar(Record(s, sid, status, lateBy), q, done + [sid], verdict, now)
  {
    EndedOneMore(q, done, sid, verdict, now, Released);
    EndedOneMore(q, done, sid, verdict, now, Expired);
    EndedOneMore(q, done, sid, verdict, now, Dead);
  }

  lemma EndedOneMore(q: Queue, done: seq<Sid>, sid: Sid, verdict: Sid -> Verdict, now: int, state: RowState)
    requires sid !in done && sid in q.rows
    ensures forall x :: Ended(q, done + [sid], verdict, now, x, state)
                        <==> Ended(q, done, verdict, now, x, state)
                             || (x == sid && RowAfter(q.rows[sid], sid in q.events, verdict(sid), now).state == state)
  {
  }

  lemma ReportsAll(s: Summary, q: Queue, due: seq<Sid>, done: seq<Sid>, verdict: Sid -> Verdict, now: int, wall: Sid -> int)
    requires IsScan(q, due) && done == Upto(q, due, verdict, now) && ReportsSoFar(s, q, done, verdict, now)
    ensures Reports(s, q.rows, SchedulerCore.RunDue(q, due, verdict, now, wall).rows)
  {
    ScanIsDistinct(q, due);
    RunDueIsPerRow(q, due, verdict, now, wall);
    var t := SchedulerCore.RunDue(q, due, verdict, now, wall);
    forall sid, state | state != Scheduled
      ensures sid in Turned(q.rows, t.rows, state) <==> Ended(q, done, verdict, now, sid, state)
    {
      assert sid in done ==> sid in due;
    }
  }

  /** The rows that went from scheduled to `state`. */
  function Turned(before: map<Sid, QRow>, after: map<Sid, QRow>, state: RowState): set<Sid> {
    set sid | sid in before && sid in after && before[sid].state == Scheduled && before[sid].failures < MAX_ATTEMPTS && after[sid].state == state
  }

  function Record(s: Summary, sid: Sid, status: Status, lateBy: int): Summary {
    match status
    case WasReleased => s.(released := s.released + [sid], late := if lateBy > 0 then s.late[sid := lateBy] else s.late)
    case WasExpired => s.(expired := s.expired + [sid])
    case SkippedRevoked => s.(skippedRevoked := s.skippedRevoked + [sid])
    case SkippedPaused => s.(skippedPaused := s.skippedPaused + [sid])
    case Failed(count) => if count >= MAX_ATTEMPTS then s.(dead := s.dead + [sid]) else s.(failed := s.failed + [sid])
    case _ => s
  }

  lemma {:induction false} EarliestExists(rows: map<Sid, QRow>, ids: set<Sid>)
    requires ids != {} && forall sid | sid in ids :: sid in rows
    ensures exists m :: m in ids && forall sid | sid in ids :: sid == m || DueBefore(rows, m, sid)
    decreases |ids|
  {
    var x :| x in ids;
    var rest := ids - {x};
    if rest == {} {
      assert ids == {x};
    } else {
      EarliestExists(rows, rest);
      var m :| m in rest && forall sid | sid in rest :: sid == m || DueBefore(rows, m, sid);
      var first := if DueBefore(rows, m, x) then m else x;
      assert forall sid | sid in ids :: sid == x || sid in rest;
      assert first in ids && forall sid | sid in ids :: sid == first || DueBefore(rows, first, sid);
    }
  }

  function Earliest(rows: map<Sid, QRow>, ids: set<Sid>): (first: Sid)
    requires ids != {} && forall sid | sid in ids :: sid in rows
    ensures first in ids && forall sid | sid in ids :: sid == first || DueBefore(rows, first, sid)
  {
    EarliestExists(rows, ids);
    var m :| m in ids && forall sid | sid in ids :: sid == m || DueBefore(rows, m, sid);
    m
  }
}
