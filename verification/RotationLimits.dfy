// Where the two-party claims stop: the exact conditions, and runs of the code
// as the command line drives it that fall outside them.

module RotationLimits {
  import opened Base
  import opened RotationCore
  import opened RotationInvariant
  import opened RotationAgents
  import opened RotationAgreement
  import opened RotationHandshake

  // ---- Acks that do not name their prepare ----

  /** The command line begins rotations without an event id, so any ack for the
      epoch is taken.  Taking one leaves both sides on the same key exactly when the
      ack names the prepare that this candidate was begun with. */
  lemma AckAgreesIff(r: Agent, s: Agent, e: Epoch, id: EventId, now: int)
    requires RotatorOk(r) && KeysDiffer(r) && e in r.store.rotating && r.store.rotating[e].phase == Candidate
    requires AckHonest(r, s, e, id)
    requires OnAck(r.store, e, id, now).1 == Done
    ensures var t := OnAck(r.store, e, id, now).0;
            && t.rotating[e].phase == Acknowledged && e in r.begun
            && (OwnRow(t.keys, e) && t.keys[e].pub == s.acked[e] <==> id == r.begun[e])
  {
    assert IsLive(r.store.rotating, e) && RotatingRowOk(r.store, e, r.store.rotating[e]);
    assert RowBegun(r, e, r.store.rotating[e]);
  }

  // ---- A confirm that was sent but never marked ----

  /** When the peer's commit arrives, the new key becomes one that `_try_unseal`
      tries exactly when the confirm was marked, or the last finished rotation
      was the peer's.  Otherwise the commit is refused and the new key stays untried. */
  lemma CommitOpensNewKeyIff(r: Store, e: Epoch, now: int)
    requires Valid(r) && e in r.rotating && (r.rotating[e].phase == Acknowledged || r.rotating[e].phase == Confirmed)
    ensures e in Tried(OnCommit(r, e, now).0) <==> r.rotating[e].phase == Confirmed || r.keyEpoch !in Own(r)
  {
    assert IsLive(r.rotating, e) && RotatingRowOk(r, e, r.rotating[e]);
    var t := OnCommit(r, e, now).0;
    assert t.keys == r.keys && e in Own(r);
    assert forall x | x in Own(r) :: OwnRow(r.keys, x);
    if r.rotating[e].phase != Confirmed && r.keyEpoch !in Own(r) {
      assert Max(Own(r)) == e;
    }
  }

  // ---- Two concrete runs ----

  const DAY: int := ROTATION_WINDOW

  function FirstRow(key: Key, phase: Phase, id: Option<EventId>, deadline: int, seen: bool): Row {
    Row(phase, 1, key, id, deadline, None, seen, 0)
  }

  /** A after beginning epoch 2 from pairing keys 10 and 20. */
  function Rotator(key: Key, phase: Phase, id: Option<EventId>, deadline: int, seen: bool): Store {
    Store(1, 20, map[1 := KeyRow(10, true), 2 := KeyRow(key, true)], map[2 := FirstRow(key, phase, id, deadline, seen)], map[], map[])
  }

  /** B after acknowledging key 11 for epoch 2. */
  function Acker(phase: Phase): Store {
    Store(1, 10, map[1 := KeyRow(20, true), 2 := KeyRow(11, false)], map[],
          map[2 := FirstRow(11, phase, Some(1), DAY, false)], map[])
  }

  function AckerDone(now: int): Store {
    Store(2, 11, map[1 := KeyRow(20, true), 2 := KeyRow(11, false)], map[],
          map[2 := FirstRow(11, Committed, Some(1), DAY, false).(committedAt := Some(now))], map[])
  }

  lemma EvalPaired(own: Key, peer: Key)
    ensures var s := Paired(own, peer);
            && Own(s) == {1} && PeerEpochs(s) == {1} && CurrentEpoch(s) == 1
            && Tried(s) == {1} && RecipientsFor(s) == Recipients({peer}, 1) && !InFlight(s)
  {
    var s := Paired(own, peer);
    assert Own(s) == {1} && PeerEpochs(s) == {1};
    assert Own(s) + PeerEpochs(s) == {1};
  }

  lemma EvalRotator(key: Key, phase: Phase, id: Option<EventId>, deadline: int, seen: bool)
    requires phase != Committed && phase != Discarded
    ensures var s := Rotator(key, phase, id, deadline, seen);
            && Own(s) == {1, 2} && CurrentEpoch(s) == 2 && Tried(s) == {1}
            && LiveIn(s.rotating) == {2} && RecipientsFor(s) == Recipients({20}, 1)
  {
    var s := Rotator(key, phase, id, deadline, seen);
    assert Own(s) == {1, 2} && PeerEpochs(s) == {1};
    assert Own(s) + PeerEpochs(s) == {1, 2};
    assert 2 in LiveIn(s.rotating);
    assert LiveIn(s.acking) == {};
    assert (set e | e in Own(s) && e < s.keyEpoch) == {};
  }

  lemma EvalAcker(phase: Phase)
    requires phase == Acknowledged || phase == Confirmed
    ensures var s := Acker(phase);
            && CurrentEpoch(s) == 2 && Tried(s) == {1} && Own(s) == {1}
            && LiveIn(s.acking) == {2} && RecipientsFor(s) == Recipients({10, 11}, 2)
  {
    var s := Acker(phase);
    assert Own(s) == {1} && PeerEpochs(s) == {1, 2};
    assert Own(s) + PeerEpochs(s) == {1, 2};
    assert 2 in LiveIn(s.acking);
    assert (set e | e in Own(s) && e < s.keyEpoch) == {};
  }

  /** Rewriting the only row of a table. */
  lemma Rewrite(r: Row, r': Row)
    ensures map[2 := r][2 := r'] == map[2 := r']
  {
  }

  // The rotating side's steps; `id` is what its row is bound to.

  lemma EvalBegin(key: Key, id: EventId, bound: bool, now: int)
    ensures Local(Paired(10, 20), Rotate(key, id, bound, true), now)
            == (Rotator(key, Candidate, if bound then Some(id) else None, now + DAY, false),
                [Env(PrepareMsg(id, Prepare(key, 10, now + DAY)), {20}, 1)])
  {
    EvalPaired(10, 20);
    EvalRotator(key, Candidate, if bound then Some(id) else None, now + DAY, false);
  }

  function AckEnv(): Env { Env(AckMsg(2, 1), {10, 11}, 2) }

  lemma EvalAck(key: Key, id: Option<EventId>, deadline: int, now: int)
    requires id.None? || id == Some(1)
    requires now <= deadline
    ensures Local(Rotator(key, Candidate, id, deadline, false), Hear(AckEnv(), false), now)
            == (Rotator(key, Acknowledged, id, deadline, false), [])
  {
    EvalRotator(key, Candidate, id, deadline, false);
    Rewrite(FirstRow(key, Candidate, id, deadline, false), FirstRow(key, Acknowledged, id, deadline, false));
  }

  lemma EvalData(key: Key, id: Option<EventId>, deadline: int, now: int)
    ensures Local(Rotator(key, Acknowledged, id, deadline, false), Hear(Env(DataMsg, {10, 11}, 2), false), now)
            == (Rotator(key, Acknowledged, id, deadline, true), [])
  {
    EvalRotator(key, Acknowledged, id, deadline, false);
    Rewrite(FirstRow(key, Acknowledged, id, deadline, false), FirstRow(key, Acknowledged, id, deadline, true));
  }

  lemma EvalConfirm(key: Key, id: Option<EventId>, deadline: int, marked: bool, now: int)
    ensures Local(Rotator(key, Acknowledged, id, deadline, true), SendConfirm(marked), now)
            == (Rotator(key, if marked then Confirmed else Acknowledged, id, deadline, true),
                [Env(ConfirmMsg(2), {20}, 1)])
  {
    EvalRotator(key, Acknowledged, id, deadline, true);
    Rewrite(FirstRow(key, Acknowledged, id, deadline, true), FirstRow(key, Confirmed, id, deadline, true));
  }

  lemma EvalTimeout()
    ensures Local(Rotator(11, Candidate, None, DAY, false), Maintain([], false), DAY)
            == (Paired(10, 20).(rotating := map[2 := FirstRow(11, Discarded, None, DAY, false)]), [])
  {
    var s := Rotator(11, Candidate, None, DAY, false);
    assert Compact(s, DAY) == s;
    assert TimedOut(s, DAY) == {2};
    assert 2 in Own(s);
    Rewrite(FirstRow(11, Candidate, None, DAY, false), FirstRow(11, Discarded, None, DAY, false));
    assert s.keys - {2} == map[1 := KeyRow(10, true)];
  }

  lemma EvalRetry()
    ensures Local(Paired(10, 20).(rotating := map[2 := FirstRow(11, Discarded, None, DAY, false)]), Rotate(12, 2, false, true), DAY)
            == (Rotator(12, Candidate, None, 2 * DAY, false),
                [Env(PrepareMsg(2, Prepare(12, 10, 2 * DAY)), {20}, 1)])
  {
    var s := Paired(10, 20).(rotating := map[2 := FirstRow(11, Discarded, None, DAY, false)]);
    EvalPaired(10, 20);
    assert Own(s) == Own(Paired(10, 20)) && PeerEpochs(s) == PeerEpochs(Paired(10, 20));
    assert LiveIn(s.rotating) == {} && LiveIn(s.acking) == {};
    EvalRotator(12, Candidate, None, 2 * DAY, false);
    Rewrite(FirstRow(11, Discarded, None, DAY, false), FirstRow(12, Candidate, None, 2 * DAY, false));
  }

  // The acking side's steps.

  lemma EvalPrepare()
    ensures Local(Paired(20, 10), Hear(Env(PrepareMsg(1, Prepare(11, 10, DAY)), {20}, 1), true), 0)
            == (Acker(Acknowledged), [AckEnv()])
  {
    var s := Paired(20, 10);
    EvalPaired(20, 10);
    assert FindPrior(s, 10) == Some(1);
    EvalAcker(Acknowledged);
  }

  lemma EvalSay(now: int)
    ensures Local(Acker(Acknowledged), Say, now) == (Acker(Acknowledged), [Env(DataMsg, {10, 11}, 2)])
  {
    EvalAcker(Acknowledged);
  }

  lemma EvalOnConfirm(now: int)
    ensures Local(Acker(Acknowledged), Hear(Env(ConfirmMsg(2), {20}, 1), false), now) == (Acker(Confirmed), [])
  {
    EvalAcker(Acknowledged);
    Rewrite(FirstRow(11, Acknowledged, Some(1), DAY, false), FirstRow(11, Confirmed, Some(1), DAY, false));
  }

  lemma EvalCommit(now: int)
    ensures Local(Acker(Confirmed), SendCommit(true), now) == (AckerDone(now), [Env(CommitMsg(2), {10, 11}, 2)])
    ensures RecipientsFor(AckerDone(now)) == Recipients({11}, 2)
    ensures forall later :: Local(AckerDone(now), SendCommit(true), later) == (AckerDone(now), [Env(CommitMsg(2), {11}, 2)])
  {
    EvalAcker(Confirmed);
    Rewrite(FirstRow(11, Confirmed, Some(1), DAY, false), FirstRow(11, Committed, Some(1), DAY, false).(committedAt := Some(now)));
    assert LiveIn(AckerDone(now).acking) == {};
    assert 2 in CommittedIn(AckerDone(now).acking);
  }

  // ---- Runs built one step at a time ----

  lemma {:induction false} Extend(a: Agent, b: Agent, run: seq<Step>, st: Step)
    requires LegalRun(a, b, run) && StepAllowed(RunAll(a, b, run).0, RunAll(a, b, run).1, st)
    ensures LegalRun(a, b, run + [st])
    ensures RunAll(a, b, run + [st]) == After(RunAll(a, b, run).0, RunAll(a, b, run).1, st)
    decreases |run|
  {
    if run == [] {
      assert [st][1..] == [] && run + [st] == [st];
      assert LegalRun(After(a, b, st).0, After(a, b, st).1, [st][1..]);
    } else {
      assert (run + [st])[0] == run[0] && (run + [st])[1..] == run[1..] + [st];
      Extend(After(a, b, run[0]).0, After(a, b, run[0]).1, run[1..], st);
    }
  }

  /** The run is legal, ends in these tables, and these envelopes have been sent. */
  ghost predicate Reaches(run: seq<Step>, sa: Store, sb: Store, fromA: set<Env>, fromB: set<Env>) {
    var end := RunAll(NewAgent(10, 20), NewAgent(20, 10), run);
    && LegalRun(NewAgent(10, 20), NewAgent(20, 10), run)
    && end.0.store == sa && end.1.store == sb && fromA <= end.0.out && fromB <= end.1.out
  }

  ghost predicate Drawn(run: seq<Step>, ids: set<EventId>) {
    RunAll(NewAgent(10, 20), NewAgent(20, 10), run).0.prepares.Keys == ids
  }

  lemma Act(run: seq<Step>, sa: Store, sb: Store, fromA: set<Env>, fromB: set<Env>, st: Step, s': Store, sent: seq<Env>)
    returns (run': seq<Step>)
    requires Reaches(run, sa, sb, fromA, fromB)
    requires Local(if st.first then sa else sb, st.act, st.now) == (s', sent)
    requires st.act.Hear? ==> st.act.env in (if st.first then fromB else fromA)
    requires !st.act.Rehook? && !st.act.Take? && (st.act.Rotate? ==> st.first && exists ids :: Drawn(run, ids) && st.act.id !in ids)
    ensures run' == run + [st]
    ensures st.first ==> Reaches(run', s', sb, fromA + (set env | env in sent), fromB)
    ensures !st.first ==> Reaches(run', sa, s', fromA, fromB + (set env | env in sent))
    ensures forall ids :: Drawn(run, ids) && (st.first ==> !st.act.Rotate?) ==> Drawn(run', ids)
  {
    Extend(NewAgent(10, 20), NewAgent(20, 10), run, st);
    run' := run + [st];
  }

  function FirstPrepare(): Env { Env(PrepareMsg(1, Prepare(11, 10, DAY)), {20}, 1) }

  lemma FirstDrawn(bound: bool)
    ensures Drawn([] + [Step(true, Rotate(11, 1, bound, true), 0)], {1})
  {
    var st := Step(true, Rotate(11, 1, bound, true), 0);
    EvalBegin(11, 1, bound, 0);
    Extend(NewAgent(10, 20), NewAgent(20, 10), [], st);
    assert [] + [st] == [st];
  }

  lemma Answering(start: seq<Step>, a: Store) returns (run: seq<Step>)
    requires Reaches(start, a, Paired(20, 10), {FirstPrepare()}, {})
    ensures Reaches(run, a, Acker(Acknowledged), {}, {AckEnv()})
    ensures (Drawn(start, {1}) ==> Drawn(run, {1})) && (AllBound(start) ==> AllBound(run))
  {
    EvalPrepare();
    run := Act(start, a, Paired(20, 10), {FirstPrepare()}, {}, Step(false, Hear(FirstPrepare(), true), 0), Acker(Acknowledged), [AckEnv()]);
  }

  /** A prepares epoch 2 with key 11 and B acknowledges. */
  lemma Opening(bound: bool) returns (run: seq<Step>)
    ensures Reaches(run, Rotator(11, Candidate, if bound then Some(1) else None, DAY, false), Acker(Acknowledged), {}, {AckEnv()})
    ensures Drawn(run, {1}) && (bound ==> AllBound(run))
  {
    var a := Rotator(11, Candidate, if bound then Some(1) else None, DAY, false);
    assert Drawn([], {});
    EvalBegin(11, 1, bound, 0);
    run := Act([], Paired(10, 20), Paired(20, 10), {}, {}, Step(true, Rotate(11, 1, bound, true), 0), a, [FirstPrepare()]);
    FirstDrawn(bound);
    run := Answering(run, a);
  }

  function DataEnv(): Env { Env(DataMsg, {10, 11}, 2) }

  function ConfirmEnv(): Env { Env(ConfirmMsg(2), {20}, 1) }

  function CommitEnv(): Env { Env(CommitMsg(2), {10, 11}, 2) }

  predicate AllBound(run: seq<Step>) { forall st | st in run :: StepBound(st) }

  lemma DataRound(start: seq<Step>, key: Key, id: Option<EventId>, deadline: int) returns (run: seq<Step>)
    requires Reaches(start, Rotator(key, Acknowledged, id, deadline, false), Acker(Acknowledged), {}, {})
    ensures Reaches(run, Rotator(key, Acknowledged, id, deadline, true), Acker(Acknowledged), {}, {})
    ensures AllBound(start) ==> AllBound(run)
  {
    EvalSay(DAY);
    var mid := Act(start, Rotator(key, Acknowledged, id, deadline, false), Acker(Acknowledged), {}, {}, Step(false, Say, DAY), Acker(Acknowledged), [DataEnv()]);
    EvalData(key, id, deadline, DAY);
    run := Act(mid, Rotator(key, Acknowledged, id, deadline, false), Acker(Acknowledged), {}, {DataEnv()}, Step(true, Hear(DataEnv(), false), DAY),
               Rotator(key, Acknowledged, id, deadline, true), []);
  }

  lemma ConfirmRound(start: seq<Step>, key: Key, id: Option<EventId>, deadline: int, marked: bool) returns (run: seq<Step>)
    requires Reaches(start, Rotator(key, Acknowledged, id, deadline, true), Acker(Acknowledged), {}, {})
    ensures Reaches(run, Rotator(key, if marked then Confirmed else Acknowledged, id, deadline, true), Acker(Confirmed), {}, {})
    ensures AllBound(start) ==> AllBound(run)
  {
    var a := Rotator(key, if marked then Confirmed else Acknowledged, id, deadline, true);
    EvalConfirm(key, id, deadline, marked, DAY);
    var mid := Act(start, Rotator(key, Acknowledged, id, deadline, true), Acker(Acknowledged), {}, {}, Step(true, SendConfirm(marked), DAY), a, [ConfirmEnv()]);
    EvalOnConfirm(DAY);
    run := Act(mid, a, Acker(Acknowledged), {ConfirmEnv()}, {}, Step(false, Hear(ConfirmEnv(), false), DAY), Acker(Confirmed), []);
  }

  /** From the acknowledged rotation to B's commit. */
  lemma Closing(start: seq<Step>, key: Key, id: Option<EventId>, deadline: int, marked: bool) returns (run: seq<Step>)
    requires Reaches(start, Rotator(key, Acknowledged, id, deadline, false), Acker(Acknowledged), {}, {})
    ensures Reaches(run, Rotator(key, if marked then Confirmed else Acknowledged, id, deadline, true), AckerDone(DAY), {}, {CommitEnv()})
    ensures AllBound(start) ==> AllBound(run)
  {
    var one := DataRound(start, key, id, deadline);
    var two := ConfirmRound(one, key, id, deadline, marked);
    EvalCommit(DAY);
    run := Act(two, Rotator(key, if marked then Confirmed else Acknowledged, id, deadline, true), Acker(Confirmed), {}, {},
               Step(false, SendCommit(true), DAY), AckerDone(DAY), [CommitEnv()]);
  }

  lemma TimeoutRound(start: seq<Step>) returns (run: seq<Step>)
    requires Reaches(start, Rotator(11, Candidate, None, DAY, false), Acker(Acknowledged), {}, {AckEnv()}) && Drawn(start, {1})
    ensures Reaches(run, Rotator(12, Candidate, None, 2 * DAY, false), Acker(Acknowledged), {}, {AckEnv()})
  {
    var timedOut := Paired(10, 20).(rotating := map[2 := FirstRow(11, Discarded, None, DAY, false)]);
    var again := Env(PrepareMsg(2, Prepare(12, 10, 2 * DAY)), {20}, 1);
    EvalTimeout();
    var mid := Act(start, Rotator(11, Candidate, None, DAY, false), Acker(Acknowledged), {}, {AckEnv()}, Step(true, Maintain([], false), DAY), timedOut, []);
    EvalRetry();
    assert Drawn(mid, {1});
    run := Act(mid, timedOut, Acker(Acknowledged), {}, {AckEnv()}, Step(true, Rotate(12, 2, false, true), DAY), Rotator(12, Candidate, None, 2 * DAY, false), [again]);
  }

  lemma AckRound(start: seq<Step>, key: Key, id: Option<EventId>, deadline: int) returns (run: seq<Step>)
    requires (id.None? || id == Some(1)) && DAY <= deadline
    requires Reaches(start, Rotator(key, Candidate, id, deadline, false), Acker(Acknowledged), {}, {AckEnv()})
    ensures Reaches(run, Rotator(key, Acknowledged, id, deadline, false), Acker(Acknowledged), {}, {})
    ensures AllBound(start) ==> AllBound(run)
  {
    EvalAck(key, id, deadline, DAY);
    run := Act(start, Rotator(key, Candidate, id, deadline, false), Acker(Acknowledged), {}, {AckEnv()}, Step(true, Hear(AckEnv(), false), DAY),
               Rotator(key, Acknowledged, id, deadline, false), []);
  }

  /** Two prepares for one epoch, the first timed out: without event ids the late
      ack of the first confirms the second.  The sides then hold different keys
      for epoch 2, and B's sends are wrapped to a key A never holds again. */
  lemma UnboundAckLocksOut() returns (run: seq<Step>, a: Agent, b: Agent)
    ensures LegalRun(NewAgent(10, 20), NewAgent(20, 10), run) && (a, b) == RunAll(NewAgent(10, 20), NewAgent(20, 10), run)
    ensures 2 in b.store.acking && Agreed(b.store.acking[2]) && !Held(a.store, 2, b.store.acking[2].newKey)
    ensures !AcksAnswer(NewAgent(10, 20), NewAgent(20, 10), run)
    ensures RecipientsFor(b.store) == Recipients({11}, 2) && forall e | e in Own(a.store) :: a.store.keys[e].pub != 11
  {
    var one := Opening(false);
    var two := TimeoutRound(one);
    var three := AckRound(two, 12, None, 2 * DAY);
    run := Closing(three, 12, None, 2 * DAY, true);
    a, b := RunAll(NewAgent(10, 20), NewAgent(20, 10), run).0, RunAll(NewAgent(10, 20), NewAgent(20, 10), run).1;
    EvalCommit(DAY);
    EvalRotator(12, Confirmed, None, 2 * DAY, true);
    MustHaveTaken(run);
  }

  /** By `KeyAgreement`, a run that ends so took an ack of another prepare. */
  lemma MustHaveTaken(run: seq<Step>)
    requires LegalRun(NewAgent(10, 20), NewAgent(20, 10), run)
    requires var (a, b) := RunAll(NewAgent(10, 20), NewAgent(20, 10), run);
             2 in b.store.acking && Agreed(b.store.acking[2]) && !Held(a.store, 2, b.store.acking[2].newKey)
    ensures !AcksAnswer(NewAgent(10, 20), NewAgent(20, 10), run)
  {
    if AcksAnswer(NewAgent(10, 20), NewAgent(20, 10), run) { KeyAgreement(10, 20, run, 2); }
  }

  /** The confirm is sent but the process dies before marking it: the commit is
      refused, every later envelope is wrapped to the new key alone, and it stays
      unopened even after the confirm is marked and the commit sent again. */
  lemma UnmarkedConfirmLocksOut() returns (run: seq<Step>, a: Agent, b: Agent)
    ensures LegalRun(NewAgent(10, 20), NewAgent(20, 10), run) && AllBound(run)
    ensures (a, b) == RunAll(NewAgent(10, 20), NewAgent(20, 10), run)
    ensures RecipientsFor(b.store) == Recipients({11}, 2) && OwnRow(a.store.keys, 2) && a.store.keys[2].pub == 11
    ensures !Opens(a.store, {11}) && !Opens(MarkConfirmed(a.store).0, {11})
    ensures 2 in MarkConfirmed(a.store).0.rotating && MarkConfirmed(a.store).0.rotating[2].phase == Confirmed
    ensures forall later :: Local(b.store, SendCommit(true), later) == (b.store, [Env(CommitMsg(2), {11}, 2)])
  {
    run := UnmarkedRun();
    a, b := RunAll(NewAgent(10, 20), NewAgent(20, 10), run).0, RunAll(NewAgent(10, 20), NewAgent(20, 10), run).1;
    UnmarkedState();
    EvalCommit(DAY);
  }

  lemma UnmarkedRun() returns (run: seq<Step>)
    ensures Reaches(run, Rotator(11, Acknowledged, Some(1), DAY, true), AckerDone(DAY), {}, {}) && AllBound(run)
  {
    var one := Opening(true);
    var two := AckRound(one, 11, Some(1), DAY);
    var three := Closing(two, 11, Some(1), DAY, false);
    run := RefusedRound(three);
  }

  lemma RefusedRound(start: seq<Step>) returns (run: seq<Step>)
    requires Reaches(start, Rotator(11, Acknowledged, Some(1), DAY, true), AckerDone(DAY), {}, {CommitEnv()}) && AllBound(start)
    ensures Reaches(run, Rotator(11, Acknowledged, Some(1), DAY, true), AckerDone(DAY), {}, {}) && AllBound(run)
  {
    var a := Rotator(11, Acknowledged, Some(1), DAY, true);
    EvalRefused();
    run := Act(start, a, AckerDone(DAY), {}, {CommitEnv()}, Step(true, Hear(CommitEnv(), false), DAY), a, []);
  }

  /** Marking the confirm late changes the phase and nothing that unsealing looks at. */
  lemma UnmarkedState()
    ensures var a := Rotator(11, Acknowledged, Some(1), DAY, true);
            && OwnRow(a.keys, 2) && a.keys[2].pub == 11 && !Opens(a, {11}) && !Opens(MarkConfirmed(a).0, {11})
            && 2 in MarkConfirmed(a).0.rotating && MarkConfirmed(a).0.rotating[2].phase == Confirmed
  {
    EvalRefused();
    EvalConfirm(11, Some(1), DAY, true, DAY);
    EvalRotator(11, Confirmed, Some(1), DAY, true);
  }

  lemma EvalRefused()
    ensures var a := Rotator(11, Acknowledged, Some(1), DAY, true);
            Local(a, Hear(CommitEnv(), false), DAY) == (a, []) && !Opens(a, {11})
  {
    EvalRotator(11, Acknowledged, Some(1), DAY, true);
  }
}
