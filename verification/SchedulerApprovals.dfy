// Which events an approval can pay for.  The local transport uploads before the
// claim commits, so a row may roll back with its object already on the relay.

module SchedulerApprovals {
  import opened Base
  import opened SchedulerCore
  import opened SchedulerRuns
  import opened SchedulerTold

  // ---- What was uploaded, and with which approval ----

  /** An object of event `s`, sent under approval `a`, is on its way to the peer. */
  predicate CarriedBy(q: Queue, s: Sid, a: ApprovalId) { Uploaded(q, s) && s in q.rows && q.rows[s].approval == Some(a) }

  /** At most one event was ever sent under `a`, in however many objects. */
  ghost predicate OneEvent(q: Queue, a: ApprovalId) { forall s, t :: CarriedBy(q, s, a) && CarriedBy(q, t, a) ==> s == t }

  /** The approval is live again although an event was sent under it. */
  ghost predicate Exposed(q: Queue, a: ApprovalId) {
    a in q.approvals && q.approvals[a].consumedAt.None? && exists s :: CarriedBy(q, s, a)
  }

  /** Whatever was sent under `a`, the approval is spent, and on that event alone. */
  ghost predicate SpentOnce(q: Queue, a: ApprovalId) {
    forall s :: CarriedBy(q, s, a) ==>
      && a in q.approvals && q.approvals[a].consumedAt.Some?
      && forall t | t in q.rows && Charges(q.rows[t], a) :: t == s
  }

  /** Handling this row puts an object of it on its way. */
  predicate Lands(q: Queue, s: Sid, v: Verdict, now: int) {
    && s in q.rows && q.rows[s].state == Scheduled && s in q.events && s !in q.sent
    && q.rows[s].deliverAt <= now < EffectiveExpiry(q.rows[s])
    && (v.Accepts? || (v.Raises? && v.uploaded) || (v.Dies? && v.uploaded))
  }

  lemma ReleaseOneUploads(q: Queue, s: Sid, v: Verdict, now: int, wall: int, x: Sid)
    ensures Uploaded(ReleaseOne(q, s, v, now, wall).0, x) <==> Uploaded(q, x) || (x == s && Lands(q, s, v, now))
  {
    PutUploads(q, s, now, if v.Accepts? then v.local else true);
    var t := ReleaseOne(q, s, v, now, wall).0;
    var p := Put(q, s, now, if v.Accepts? then v.local else true);
    assert t.outgoing == if Lands(q, s, v, now) then p.outgoing else q.outgoing;
    SameUploads(t, if Lands(q, s, v, now) then p else q, x);
  }

  lemma SameUploads(q: Queue, t: Queue, x: Sid)
    requires q.outgoing == t.outgoing
    ensures Uploaded(q, x) <==> Uploaded(t, x)
  {
    if i :| 0 <= i < |q.outgoing| && q.outgoing[i].sid == x { assert t.outgoing[i].sid == x; }
    if i :| 0 <= i < |t.outgoing| && t.outgoing[i].sid == x { assert q.outgoing[i].sid == x; }
  }

  // ---- The one way in which an approval can pay twice ----

  /** Handling this row gives its approval back, by expiry or a third failure within
      the approval's TTL, although an object of the row is already on the relay. */
  predicate BacksUploaded(q: Queue, s: Sid, a: ApprovalId, v: Verdict, now: int, wall: int) {
    && s in Scanned(q) && a in q.approvals && GivesBack(q, s, a, v, now, wall)
    && (Uploaded(q, s) || Lands(q, s, v, now))
  }

  predicate GaveBack(q: Queue, order: seq<Sid>, verdict: Sid -> Verdict, now: int, wall: Sid -> int, a: ApprovalId)
    decreases |order|
  {
    order != []
    && (BacksUploaded(q, order[0], a, verdict(order[0]), now, wall(order[0]))
        || (var (q1, status) := ReleaseOne(q, order[0], verdict(order[0]), now, wall(order[0]));
            status != WasKilled && GaveBack(q1, order[1..], verdict, now, wall, a)))
  }

  predicate GaveBackUploaded(q: Queue, op: Op, a: ApprovalId) {
    op.RunDueOp? && GaveBack(q, op.order, op.verdict, op.now, op.wall, a)
  }

  /** For a scan this can be read off the tables before the call. */
  lemma {:induction false} GaveBackIff(q: Queue, order: seq<Sid>, verdict: Sid -> Verdict, now: int, wall: Sid -> int, a: ApprovalId)
    requires Distinct(order) && forall s | s in order :: s in Scanned(q)
    ensures GaveBack(q, order, verdict, now, wall, a)
            <==> exists s :: s in Upto(q, order, verdict, now) && BacksUploaded(q, s, a, verdict(s), now, wall(s))
    decreases |order|
  {
    if order != [] {
      var head := order[0];
      var q1, killed := OneTurn(q, order, verdict, now, wall);
      if killed {
        assert !BacksUploaded(q, head, a, verdict(head), now, wall(head));
      } else {
        OneRow(q, head, verdict(head), now, wall(head));
        var done := Upto(q1, order[1..], verdict, now);
        GaveBackIff(q1, order[1..], verdict, now, wall, a);
        InCons(head, done);
        forall s | s in done ensures BacksUploaded(q1, s, a, verdict(s), now, wall(s)) <==> BacksUploaded(q, s, a, verdict(s), now, wall(s)) {
          assert s in order[1..];
          LaterBacks(q, head, verdict(head), now, wall(head), s, verdict(s), wall(s), a);
        }
      }
    }
  }

  /** Handling one row does not change whether another gives back an uploaded one. */
  lemma LaterBacks(q: Queue, head: Sid, v: Verdict, now: int, wall: int, s: Sid, v': Verdict, wall': int, a: ApprovalId)
    requires head in Scanned(q) && s in Scanned(q) && s != head
    ensures var q1 := ReleaseOne(q, head, v, now, wall).0;
            BacksUploaded(q1, s, a, v', now, wall') <==> BacksUploaded(q, s, a, v', now, wall')
  {
    OneRow(q, head, v, now, wall);
    ReleaseOneUploads(q, head, v, now, wall, s);
    var q1 := ReleaseOne(q, head, v, now, wall).0;
    assert q1.rows[s] == q.rows[s] && (s in q1.sent <==> s in q.sent);
    if a in q.approvals { ReleaseOneApproval(q, head, v, now, wall, a); } else { assert a !in q1.approvals; }
  }

  // ---- Without such a step ----

  lemma ReleaseOneSpent(q: Queue, s: Sid, v: Verdict, now: int, wall: int, a: ApprovalId)
    requires Valid(q) && SpentOnce(q, a) && OneEvent(q, a) && !BacksUploaded(q, s, a, v, now, wall)
    ensures var t := ReleaseOne(q, s, v, now, wall).0; SpentOnce(t, a) && OneEvent(t, a)
  {
    var t := ReleaseOne(q, s, v, now, wall).0;
    if s in Scanned(q) {
      OneRow(q, s, v, now, wall);
      assert q.rows[s].approval == Some(a) ==> Charges(q.rows[s], a);
      forall x | CarriedBy(t, x, a) ensures CarriedBefore(q, s, v, now, x, a) { ReleaseOneUploads(q, s, v, now, wall, x); }
      forall x | CarriedBefore(q, s, v, now, x, a)
        ensures a in t.approvals && t.approvals[a].consumedAt.Some? && forall y | y in q.rows && Charges(q.rows[y], a) :: y == x
      {
        ReleaseOneApproval(q, s, v, now, wall, a);
      }
      assert forall y | y in t.rows && Charges(t.rows[y], a) :: y in q.rows && Charges(q.rows[y], a);
      forall x, y | CarriedBy(t, x, a) && CarriedBy(t, y, a) ensures x == y {
        assert CarriedBefore(q, s, v, now, x, a) && CarriedBefore(q, s, v, now, y, a);
        assert !CarriedBy(q, x, a) ==> Charges(q.rows[x], a);
        assert !CarriedBy(q, y, a) ==> Charges(q.rows[y], a);
      }
    } else {
      assert Valid(q) && s in q.rows ==> q.rows[s].state != Scheduled;
      assert t == q;
    }
  }

  ghost predicate CarriedBefore(q: Queue, s: Sid, v: Verdict, now: int, x: Sid, a: ApprovalId) {
    CarriedBy(q, x, a) || (x == s && Lands(q, s, v, now) && q.rows[s].approval == Some(a))
  }

  lemma {:induction false} RunDueSpent(q: Queue, order: seq<Sid>, verdict: Sid -> Verdict, now: int, wall: Sid -> int, a: ApprovalId)
    requires Valid(q) && SpentOnce(q, a) && OneEvent(q, a) && !GaveBack(q, order, verdict, now, wall, a)
    ensures var t := RunDue(q, order, verdict, now, wall); SpentOnce(t, a) && OneEvent(t, a)
    decreases |order|
  {
    if order != [] {
      ReleaseOneSpent(q, order[0], verdict(order[0]), now, wall(order[0]), a);
      ReleaseOneKeepsValid(q, order[0], verdict(order[0]), now, wall(order[0]));
      var (q1, status) := ReleaseOne(q, order[0], verdict(order[0]), now, wall(order[0]));
      if status != WasKilled { RunDueSpent(q1, order[1..], verdict, now, wall, a); }
    }
  }

  /** A new row has no object yet, and it can take only an approval nothing was sent under. */
  lemma OtherSpent(q: Queue, op: Op, a: ApprovalId)
    requires Valid(q) && SpentOnce(q, a) && OneEvent(q, a) && !op.RunDueOp?
    ensures SpentOnce(Apply(q, op), a) && OneEvent(Apply(q, op), a)
  {
    var t := Apply(q, op);
    forall s | CarriedBy(t, s, a) ensures CarriedBy(q, s, a) { OtherCarried(q, op, a, s); }
    forall s, y | CarriedBy(t, s, a) && y in t.rows && Charges(t.rows[y], a) ensures y == s {
      assert CarriedBy(q, s, a);
      OtherCharges(q, op, a, y);
    }
  }

  lemma OtherCarried(q: Queue, op: Op, a: ApprovalId, s: Sid)
    requires OutgoingOk(q) && !op.RunDueOp? && CarriedBy(Apply(q, op), s, a)
    ensures CarriedBy(q, s, a)
  {
    SameUploads(q, Apply(q, op), s);
    var i :| 0 <= i < |q.outgoing| && q.outgoing[i].sid == s;
    assert UploadOk(q, q.outgoing[i]);
  }

  lemma OtherCharges(q: Queue, op: Op, a: ApprovalId, y: Sid)
    requires !op.RunDueOp? && a in q.approvals && q.approvals[a].consumedAt.Some?
    requires y in Apply(q, op).rows && Charges(Apply(q, op).rows[y], a)
    ensures y in q.rows && Charges(q.rows[y], a)
  {
  }

  predicate Clean(q: Queue, ops: seq<Op>, a: ApprovalId)
    decreases |ops|
  {
    ops == [] || (!GaveBackUploaded(q, ops[0], a) && Clean(Apply(q, ops[0]), ops[1..], a))
  }

  lemma {:induction false} CleanSpent(q: Queue, ops: seq<Op>, a: ApprovalId)
    requires Valid(q) && SpentOnce(q, a) && OneEvent(q, a) && Clean(q, ops, a)
    ensures SpentOnce(RunOps(q, ops), a) && OneEvent(RunOps(q, ops), a) && Valid(RunOps(q, ops))
    decreases |ops|
  {
    if ops != [] {
      var op := ops[0];
      ApplyKeepsValid(q, op);
      if op.RunDueOp? { RunDueSpent(q, op.order, op.verdict, op.now, op.wall, a); } else { OtherSpent(q, op, a); }
      CleanSpent(Apply(q, op), ops[1..], a);
    }
  }

  // ---- After such a step ----

  lemma ReleaseOneExposed(q: Queue, s: Sid, v: Verdict, now: int, wall: int, a: ApprovalId)
    requires Valid(q) && (Exposed(q, a) || BacksUploaded(q, s, a, v, now, wall))
    ensures Exposed(ReleaseOne(q, s, v, now, wall).0, a)
  {
    var t := ReleaseOne(q, s, v, now, wall).0;
    if s in Scanned(q) {
      OneRow(q, s, v, now, wall);
      ReleaseOneApproval(q, s, v, now, wall, a);
      var x :| x in q.rows && q.rows[x].approval == Some(a) && (Uploaded(q, x) || (x == s && Lands(q, s, v, now)));
      ReleaseOneUploads(q, s, v, now, wall, x);
      assert CarriedBy(t, x, a);
    } else {
      assert s in q.rows ==> q.rows[s].state != Scheduled;
    }
  }

  lemma {:induction false} RunDueExposed(q: Queue, order: seq<Sid>, verdict: Sid -> Verdict, now: int, wall: Sid -> int, a: ApprovalId)
    requires Valid(q) && (Exposed(q, a) || GaveBack(q, order, verdict, now, wall, a))
    ensures Exposed(RunDue(q, order, verdict, now, wall), a)
    decreases |order|
  {
    if order != [] {
      var head := order[0];
      var (q1, status) := ReleaseOne(q, head, verdict(head), now, wall(head));
      if Exposed(q, a) || BacksUploaded(q, head, a, verdict(head), now, wall(head)) {
        ReleaseOneExposed(q, head, verdict(head), now, wall(head), a);
      }
      ReleaseOneKeepsValid(q, head, verdict(head), now, wall(head));
      if status != WasKilled { RunDueExposed(q1, order[1..], verdict, now, wall, a); }
    }
  }

  /** From there the same response, sent again under a new id, is a second event. */
  lemma Resend(q: Queue, a: ApprovalId) returns (more: seq<Op>)
    requires Valid(q) && Exposed(q, a)
    ensures PaysTwice(q, more, a)
  {
    var s :| CarriedBy(q, s, a);
    assert BindingOk(q, q.rows[s]);
    var now := q.approvals[a].expiresAt - 1;
    var sid := Max(q.rows.Keys + q.events + {0}) + 1;
    var send := SendOp(sid, q.rows[s].inner, None, None, Some(a), now);
    var q1 := Apply(q, send);
    assert q1 == Send(q, sid, q.rows[s].inner, None, None, Some(a), now).0;
    assert sid in q1.events && sid !in q1.sent && q1.rows[sid] == QRow(q.rows[s].inner, now, None, Scheduled, 0, Some(a));
    var due := RunDueOp([sid], (_ : Sid) => Accepts(false), now, (_ : Sid) => now);
    OneRelease(q1, sid, now, (_ : Sid) => Accepts(false), (_ : Sid) => now, a);
    var t := Apply(q1, due);
    ReleaseOneUploads(q1, sid, Accepts(false), now, now, sid);
    ReleaseOneUploads(q1, sid, Accepts(false), now, now, s);
    SameUploads(q, q1, s);
    assert CarriedBy(t, s, a) && CarriedBy(t, sid, a);
    more := [send, due];
    TwoOps(q, send, due, a);
  }

  lemma OneRelease(q: Queue, sid: Sid, now: int, verdict: Sid -> Verdict, wall: Sid -> int, a: ApprovalId)
    requires sid in q.rows && q.rows[sid].state == Scheduled && q.rows[sid].deliverAt <= now < EffectiveExpiry(q.rows[sid]) && verdict(sid).Accepts?
    ensures RunDue(q, [sid], verdict, now, wall) == ReleaseOne(q, sid, verdict(sid), now, wall(sid)).0
    ensures !GaveBack(q, [sid], verdict, now, wall, a)
  {
    assert [sid][1..] == [];
  }

  lemma TwoOps(q: Queue, x: Op, y: Op, a: ApprovalId)
    ensures RunOps(q, [x, y]) == Apply(Apply(q, x), y)
    ensures Clean(q, [x, y], a) <==> !GaveBackUploaded(q, x, a) && !GaveBackUploaded(Apply(q, x), y, a)
  {
    assert [x, y][1..] == [y] && [y][1..] == [];
    assert RunOps(Apply(Apply(q, x), y), []) == Apply(Apply(q, x), y) && Clean(Apply(Apply(q, x), y), [], a);
    assert Clean(Apply(q, x), [y], a) <==> !GaveBackUploaded(Apply(q, x), y, a);
  }

  // ---- The exact condition ----

  /** Without giving back another uploaded row's approval, this run sends two
      different events under `a`. */
  ghost predicate PaysTwice(q: Queue, more: seq<Op>, a: ApprovalId) { Clean(q, more, a) && !OneEvent(RunOps(q, more), a) }

  ghost predicate CanPayTwice(ops: seq<Op>, k: int, more: seq<Op>, a: ApprovalId) {
    0 <= k <= |ops| && PaysTwice(RunOps(EMPTY, ops[..k]), more, a)
  }

  lemma {:induction false} CleanPrefix(q: Queue, ops: seq<Op>, a: ApprovalId, k: nat)
    requires k <= |ops| && Clean(q, ops, a)
    ensures Clean(q, ops[..k], a)
    decreases k
  {
    if k > 0 {
      assert ops[..k][1..] == ops[1..][..k - 1];
      CleanPrefix(Apply(q, ops[0]), ops[1..], a, k - 1);
    }
  }

  /** A run that is not clean has a step after which the approval is exposed. */
  lemma {:induction false} ExposingStep(q: Queue, ops: seq<Op>, a: ApprovalId) returns (k: nat)
    requires Valid(q) && !Clean(q, ops, a)
    ensures 0 < k <= |ops| && Valid(RunOps(q, ops[..k])) && Exposed(RunOps(q, ops[..k]), a)
    decreases |ops|
  {
    var op := ops[0];
    ApplyKeepsValid(q, op);
    if GaveBackUploaded(q, op, a) {
      k := 1;
      RunDueExposed(q, op.order, op.verdict, op.now, op.wall, a);
      assert ops[..1] == [op] && [op][1..] == [];
      assert RunOps(Apply(q, op), []) == Apply(q, op);
    } else {
      var j := ExposingStep(Apply(q, op), ops[1..], a);
      k := j + 1;
      assert ops[..k][1..] == ops[1..][..j];
    }
  }

  /** Exactly when an approval can pay twice.  Somewhere in the run it could be used
      for a second event, with no further such step, if and only if some step of the
      run expired or dead-lettered, within the approval's TTL, a row whose upload had
      survived a rollback.  Until then at most one event is sent under it. */
  lemma ApprovalPaysOnce(ops: seq<Op>, a: ApprovalId)
    ensures (exists k, more :: CanPayTwice(ops, k, more, a)) <==> !Clean(EMPTY, ops, a)
    ensures Clean(EMPTY, ops, a) ==> OneEvent(RunOps(EMPTY, ops), a) && SpentOnce(RunOps(EMPTY, ops), a)
  {
    if Clean(EMPTY, ops, a) {
      CleanSpent(EMPTY, ops, a);
      forall k, more | 0 <= k <= |ops| ensures !CanPayTwice(ops, k, more, a) {
        CleanPrefix(EMPTY, ops, a, k);
        CleanSpent(EMPTY, ops[..k], a);
        if Clean(RunOps(EMPTY, ops[..k]), more, a) { CleanSpent(RunOps(EMPTY, ops[..k]), more, a); }
      }
    } else {
      var k := ExposingStep(EMPTY, ops, a);
      var more := Resend(RunOps(EMPTY, ops[..k]), a);
      assert CanPayTwice(ops, k, more, a);
    }
  }

  /** Such a step exists: the process dies, or the transaction fails, just after the
      local upload; a day later the row expires, and the approval that paid for the
      uploaded event is live again. */
  lemma LeakedUploadPaysTwice(a: ApprovalId, i: Inner, b: Binding, v: Verdict) returns (ops: seq<Op>, more: seq<Op>)
    requires !i.kind.Plain? && MadeFor(b, i) && (v == Raises(true) || v == Dies(true))
    ensures ops == [CreateOp(a, b, 2 * 86400), SendOp(1, i, None, None, Some(a), 0), DueOp(1, v, 0), DueOp(1, Accepts(true), 86400)]
    ensures PaysTwice(RunOps(EMPTY, ops), more, a)
  {
    var ttl := 2 * LATE_WINDOW;
    NeedIff(i, b);
    var q1 := Apply(EMPTY, CreateOp(a, b, ttl));
    var q2 := Apply(q1, SendOp(1, i, None, None, Some(a), 0));
    assert q2.rows[1] == QRow(i, 0, None, Scheduled, 0, Some(a)) && q2.outgoing == [];
    var q3 := Apply(q2, DueOp(1, v, 0));
    OneDue(q2, 1, v, 0);
    LeaveUpload(q2, 1, v);
    var q4 := Apply(q3, DueOp(1, Accepts(true), LATE_WINDOW));
    OneDue(q3, 1, Accepts(true), LATE_WINDOW);
    ReleaseOneUploads(q3, 1, Accepts(true), LATE_WINDOW, LATE_WINDOW, 1);
    assert CarriedBy(q4, 1, a);
    ops := [CreateOp(a, b, ttl), SendOp(1, i, None, None, Some(a), 0), DueOp(1, v, 0), DueOp(1, Accepts(true), LATE_WINDOW)];
    FourOps(EMPTY, ops);
    RunKeepsValid(EMPTY, ops);
    more := Resend(q4, a);
  }

  function DueOp(s: Sid, v: Verdict, now: int): Op { RunDueOp([s], (_ : Sid) => v, now, (_ : Sid) => now) }

  lemma OneDue(q: Queue, s: Sid, v: Verdict, now: int)
    ensures Apply(q, DueOp(s, v, now)) == ReleaseOne(q, s, v, now, now).0
  {
    var op := DueOp(s, v, now);
    var q1 := ReleaseOne(q, s, v, now, now).0;
    assert [s][1..] == [] && op.verdict(s) == v && op.wall(s) == now;
    assert RunDue(q1, [], op.verdict, now, op.wall) == q1;
  }

  lemma LeaveUpload(q: Queue, s: Sid, v: Verdict)
    requires s in q.rows && s in q.events && s !in q.sent && (v == Raises(true) || v == Dies(true))
    requires q.rows[s].state == Scheduled && q.rows[s].deliverAt == 0 && q.rows[s].expiresAt == None && q.rows[s].failures == 0
    ensures var t := ReleaseOne(q, s, v, 0, 0).0;
            && Uploaded(t, s) && t.approvals == q.approvals && t.events == q.events && t.sent == q.sent && s in t.rows
            && t.rows[s] == q.rows[s].(failures := t.rows[s].failures) && t.rows[s].failures <= 1
  {
    ReleaseOneUploads(q, s, v, 0, 0, s);
  }

  lemma FourOps(q: Queue, ops: seq<Op>)
    requires |ops| == 4
    ensures RunOps(q, ops) == Apply(Apply(Apply(Apply(q, ops[0]), ops[1]), ops[2]), ops[3])
  {
    var q2 := Apply(Apply(q, ops[0]), ops[1]);
    assert ops[1..][1..] == [ops[2], ops[3]];
    assert RunOps(q, ops) == RunOps(q2, [ops[2], ops[3]]);
    TwoOps(q2, ops[2], ops[3], 0);
  }

  /** An upload of a row of the log, not before its time and not from its expiry on, and,
      when the row was sent under an approval, of the very response that the approval's
      record names. */
  predicate Delivered(q: Queue, u: Upload) {
    && u.sid in q.rows && u.sid in q.events
    && q.rows[u.sid].deliverAt <= u.at < StopsAt(q.rows[u.sid])
    && (!u.local ==> q.rows[u.sid].state == Released)
    && match q.rows[u.sid].approval
       case None => true
       case Some(a) => a in q.approvals && MadeFor(q.approvals[a].binding, q.rows[u.sid].inner)
  }

  /** So it is with every upload of every run. */
  lemma UploadsArePaid(ops: seq<Op>)
    ensures var q := RunOps(EMPTY, ops); forall i | 0 <= i < |q.outgoing| :: Delivered(q, q.outgoing[i])
  {
    var q := RunOps(EMPTY, ops);
    RunKeepsValid(EMPTY, ops);
    forall i | 0 <= i < |q.outgoing| ensures Delivered(q, q.outgoing[i]) {
      var u := q.outgoing[i];
      assert UploadOk(q, u);
      var r := q.rows[u.sid];
      if r.approval.Some? {
        assert BindingOk(q, r);
        NeedIff(r.inner, q.approvals[r.approval.value].binding);
      }
    }
  }

  // ---- When no upload outlives its transaction ----

  /** The mutation queue always, the local transport when nothing fails after the upload. */
  predicate LeavesNothing(v: Verdict) { (v.Raises? || v.Dies?) ==> !v.uploaded }

  ghost predicate Transactional(op: Op) { op.RunDueOp? ==> forall s :: LeavesNothing(op.verdict(s)) }

  ghost predicate Tidy(q: Queue) {
    && (forall i | 0 <= i < |q.outgoing| :: q.outgoing[i].sid in q.sent)
    && (forall i, j | 0 <= i < j < |q.outgoing| :: q.outgoing[i].sid != q.outgoing[j].sid)
  }

  lemma {:induction false} RunDueTidy(q: Queue, order: seq<Sid>, verdict: Sid -> Verdict, now: int, wall: Sid -> int)
    requires Tidy(q) && forall s :: LeavesNothing(verdict(s))
    ensures Tidy(RunDue(q, order, verdict, now, wall))
    decreases |order|
  {
    if order != [] {
      var v := verdict(order[0]);
      assert LeavesNothing(v);
      var (q1, status) := ReleaseOne(q, order[0], v, now, wall(order[0]));
      assert Tidy(q1);
      if status != WasKilled { RunDueTidy(q1, order[1..], verdict, now, wall); }
    }
  }

  lemma {:induction false} RunTidy(q: Queue, ops: seq<Op>)
    requires Tidy(q) && forall i | 0 <= i < |ops| :: Transactional(ops[i])
    ensures Tidy(RunOps(q, ops))
    decreases |ops|
  {
    if ops != [] {
      var op := ops[0];
      if op.RunDueOp? { RunDueTidy(q, op.order, op.verdict, op.now, op.wall); }
      assert forall i | 0 <= i < |ops[1..]| :: ops[1..][i] == ops[i + 1];
      RunTidy(Apply(q, op), ops[1..]);
    }
  }

  /** Then every upload is of a released row whose approval is spent, no event is
      uploaded twice, and no two uploads carry the same approval. */
  lemma QueuedPaysOnce(ops: seq<Op>)
    requires forall i | 0 <= i < |ops| :: Transactional(ops[i])
    ensures var q := RunOps(EMPTY, ops);
            && (forall i | 0 <= i < |q.outgoing| ::
                  && Delivered(q, q.outgoing[i]) && q.rows[q.outgoing[i].sid].state == Released
                  && (q.rows[q.outgoing[i].sid].approval.Some? ==> q.approvals[q.rows[q.outgoing[i].sid].approval.value].consumedAt.Some?))
            && (forall i, j | 0 <= i < j < |q.outgoing| ::
                  && q.outgoing[i].sid != q.outgoing[j].sid
                  && (q.rows[q.outgoing[i].sid].approval.Some? ==> q.rows[q.outgoing[i].sid].approval != q.rows[q.outgoing[j].sid].approval))
  {
    var q := RunOps(EMPTY, ops);
    RunKeepsValid(EMPTY, ops);
    RunTidy(EMPTY, ops);
    UploadsArePaid(ops);
    forall i | 0 <= i < |q.outgoing| && q.rows[q.outgoing[i].sid].approval.Some?
      ensures Charges(q.rows[q.outgoing[i].sid], q.rows[q.outgoing[i].sid].approval.value)
    {
      assert q.outgoing[i].sid in q.sent;
    }
  }
}
