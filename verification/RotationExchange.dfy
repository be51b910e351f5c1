// A whole rotation over the in-order channels, from pairing to the commit: the two-party
// claims are about runs that get somewhere.

module RotationExchange {
  import opened Base
  import opened RotationCore
  import opened RotationInvariant
  import opened RotationAgents
  import opened RotationAgreement
  import opened RotationDelivery
  import opened RotationFifo
  import opened RotationLimits
  import opened RotationDesk

  /** The run is legal and ends with these tables and these envelopes under way. */
  ghost predicate Gets(run: seq<Step>, sa: Store, sb: Store, ab: seq<Env>, ba: seq<Env>) {
    var n := NetAll(NewNet(10, 20), run);
    && NetRun(NewNet(10, 20), run)
    && n.a.store == sa && n.b.store == sb && n.ab == ab && n.ba == ba
    && n.a.begun == map[2 := 1]
    && (forall env | env in ab :: env in n.a.out) && (forall env | env in ba :: env in n.b.out)
  }

  lemma {:induction false} ExtendNet(n: Net, run: seq<Step>, st: Step)
    requires NetRun(n, run) && NetAllowed(NetAll(n, run), st)
    ensures NetRun(n, run + [st]) && NetAll(n, run + [st]) == NetNext(NetAll(n, run), st)
    decreases |run|
  {
    if run == [] {
      assert [st][1..] == [] && run + [st] == [st];
      assert NetRun(NetNext(n, st), [st][1..]);
    } else {
      assert (run + [st])[0] == run[0] && (run + [st])[1..] == run[1..] + [st];
      ExtendNet(NetNext(n, run[0]), run[1..], st);
    }
  }

  /** One side sends. */
  lemma Sends(run: seq<Step>, sa: Store, sb: Store, st: Step, s': Store, env: Env)
    returns (run': seq<Step>)
    requires Gets(run, sa, sb, [], []) && (st.act.SendConfirm? || st.act.SendCommit? || st.act.Say?)
    requires Local(if st.first then sa else sb, st.act, st.now) == (s', [env])
    ensures st.first ==> Gets(run', s', sb, [env], [])
    ensures !st.first ==> Gets(run', sa, s', [], [env])
  {
    ExtendNet(NewNet(10, 20), run, st);
    run' := run + [st];
  }

  /** One side takes the only envelope under way to it, and may answer. */
  lemma Hears(run: seq<Step>, sa: Store, sb: Store, env: Env, st: Step, s': Store, answer: seq<Env>)
    returns (run': seq<Step>)
    requires st.act == Hear(env, answer != []) && |answer| <= 1
    requires Gets(run, sa, sb, if st.first then [] else [env], if st.first then [env] else [])
    requires Local(if st.first then sa else sb, st.act, st.now) == (s', answer)
    requires env.msg.AckMsg? ==> env.msg == AckMsg(2, 1) && st.first
    requires env.msg.CommitMsg? ==> ConfirmMarked(if st.first then sa else sb, env.msg.commitEpoch)
    ensures st.first ==> Gets(run', s', sb, answer, [])
    ensures !st.first ==> Gets(run', sa, s', [], answer)
  {
    assert [env][1..] == [];
    ExtendNet(NewNet(10, 20), run, st);
    run' := run + [st];
  }

  // ---- The run ----

  lemma Begins() returns (run: seq<Step>)
    ensures Gets(run, Rotator(11, Candidate, Some(1), DAY, false), Paired(20, 10), [FirstPrepare()], [])
  {
    var st := Step(true, Rotate(11, 1, true, true), 0);
    EvalBegin(11, 1, true, 0);
    EvalPaired(10, 20);
    var n := NewNet(10, 20);
    assert NetAllowed(n, st);
    ExtendNet(n, [], st);
    run := [] + [st];
    assert n.ab + [FirstPrepare()] == [FirstPrepare()];
  }

  lemma Acknowledges(start: seq<Step>) returns (run: seq<Step>)
    requires Gets(start, Rotator(11, Candidate, Some(1), DAY, false), Paired(20, 10), [FirstPrepare()], [])
    ensures Gets(run, Rotator(11, Acknowledged, Some(1), DAY, false), Acker(Acknowledged), [], [])
  {
    EvalPrepare();
    var mid := Hears(start, Rotator(11, Candidate, Some(1), DAY, false), Paired(20, 10), FirstPrepare(),
                     Step(false, Hear(FirstPrepare(), true), 0), Acker(Acknowledged), [AckEnv()]);
    EvalAck(11, Some(1), DAY, DAY);
    run := Hears(mid, Rotator(11, Candidate, Some(1), DAY, false), Acker(Acknowledged), AckEnv(),
                 Step(true, Hear(AckEnv(), false), DAY), Rotator(11, Acknowledged, Some(1), DAY, false), []);
  }

  lemma Decrypts(start: seq<Step>) returns (run: seq<Step>)
    requires Gets(start, Rotator(11, Acknowledged, Some(1), DAY, false), Acker(Acknowledged), [], [])
    ensures Gets(run, Rotator(11, Acknowledged, Some(1), DAY, true), Acker(Acknowledged), [], [])
  {
    EvalSay(DAY);
    var mid := Sends(start, Rotator(11, Acknowledged, Some(1), DAY, false), Acker(Acknowledged), Step(false, Say, DAY), Acker(Acknowledged), DataEnv());
    EvalData(11, Some(1), DAY, DAY);
    run := Hears(mid, Rotator(11, Acknowledged, Some(1), DAY, false), Acker(Acknowledged), DataEnv(),
                 Step(true, Hear(DataEnv(), false), DAY), Rotator(11, Acknowledged, Some(1), DAY, true), []);
  }

  lemma Confirms(start: seq<Step>) returns (run: seq<Step>)
    requires Gets(start, Rotator(11, Acknowledged, Some(1), DAY, true), Acker(Acknowledged), [], [])
    ensures Gets(run, Rotator(11, Confirmed, Some(1), DAY, true), Acker(Confirmed), [], [])
  {
    EvalConfirm(11, Some(1), DAY, true, DAY);
    var mid := Sends(start, Rotator(11, Acknowledged, Some(1), DAY, true), Acker(Acknowledged), Step(true, SendConfirm(true), DAY),
                     Rotator(11, Confirmed, Some(1), DAY, true), ConfirmEnv());
    EvalOnConfirm(DAY);
    run := Hears(mid, Rotator(11, Confirmed, Some(1), DAY, true), Acker(Acknowledged), ConfirmEnv(),
                 Step(false, Hear(ConfirmEnv(), false), DAY), Acker(Confirmed), []);
  }

  function RotatorDone(): Store {
    Store(2, 20, map[1 := KeyRow(10, true), 2 := KeyRow(11, true)],
          map[2 := FirstRow(11, Committed, Some(1), DAY, true).(committedAt := Some(DAY))], map[], map[])
  }

  lemma EvalPromoted()
    ensures Local(Rotator(11, Confirmed, Some(1), DAY, true), Hear(CommitEnv(), false), DAY) == (RotatorDone(), [])
    ensures Opens(RotatorDone(), {11})
  {
    EvalRotator(11, Confirmed, Some(1), DAY, true);
    Rewrite(FirstRow(11, Confirmed, Some(1), DAY, true), FirstRow(11, Committed, Some(1), DAY, true).(committedAt := Some(DAY)));
    var s := RotatorDone();
    assert Own(s) == {1, 2};
    assert 2 in Tried(s) && s.keys[2].pub == 11;
  }

  lemma Commits(start: seq<Step>) returns (run: seq<Step>)
    requires Gets(start, Rotator(11, Confirmed, Some(1), DAY, true), Acker(Confirmed), [], [])
    ensures Gets(run, RotatorDone(), AckerDone(DAY), [], [])
  {
    EvalCommit(DAY);
    var mid := Sends(start, Rotator(11, Confirmed, Some(1), DAY, true), Acker(Confirmed), Step(false, SendCommit(true), DAY), AckerDone(DAY), CommitEnv());
    EvalPromoted();
    run := Hears(mid, Rotator(11, Confirmed, Some(1), DAY, true), AckerDone(DAY), CommitEnv(), Step(true, Hear(CommitEnv(), false), DAY), RotatorDone(), []);
  }

  /** Prepare, ack, data, confirm and commit, each taken as it comes: both sides end at
      epoch 2 with nothing under way; the peer seals to the new key alone, and the
      rotating side opens what it seals. */
  lemma RotationCompletes() returns (run: seq<Step>, n: Net)
    ensures NetRun(NewNet(10, 20), run) && n == NetAll(NewNet(10, 20), run)
    ensures n.ab == [] && n.ba == [] && n.a.store.keyEpoch == 2 && n.b.store.keyEpoch == 2
    ensures n.b.store.peerKey == 11 && RecipientsFor(n.b.store) == Recipients({11}, 2) && Opens(n.a.store, {11})
  {
    var one := Begins();
    var two := Acknowledges(one);
    var three := Decrypts(two);
    var four := Confirms(three);
    run := Commits(four);
    n := NetAll(NewNet(10, 20), run);
    EvalCommit(DAY);
    EvalPromoted();
  }

  // ---- Actions cut short ----

  /** One of the tried private keys is wrapped to, and the stamp names an epoch that some
      key has reached. */
  ghost predicate Readable(s: Store, env: Env) {
    (exists e: Epoch :: e in Tried(s) && s.keys[e].pub in env.wraps) && Reached(s, env.stamp)
  }

  /** A hook put off does what it would have done at once: taking an envelope changes
      nothing, and re-driving it is hearing it.  An envelope that cannot be opened, or that
      the gate holds back, changes nothing when heard. */
  lemma PutOffIsHeard(s: Store, env: Env, reply: bool, now: int)
    ensures Local(s, Take(env), now) == (s, [])
    ensures Local(s, Hear(env, reply), now) == if Readable(s, env) then Local(s, Rehook(env, reply), now) else (s, [])
  {
    ReachedIff(s, env.stamp);
    assert Opens(s, env.wraps) <==> exists e: Epoch :: e in Tried(s) && s.keys[e].pub in env.wraps;
  }

  /** What a crash cuts off: the prepare or the ack, but not the tables; the marking, but
      not the confirm or the commit that was sent. */
  lemma CutOff(s: Store, key: Key, id: EventId, bound: bool, env: Env, now: int)
    ensures Local(s, Rotate(key, id, bound, false), now) == (Local(s, Rotate(key, id, bound, true), now).0, [])
    ensures Local(s, Hear(env, false), now) == (Local(s, Hear(env, true), now).0, [])
    ensures Local(s, SendConfirm(false), now) == (s, Local(s, SendConfirm(true), now).1)
    ensures Local(s, SendCommit(false), now).0 == s
  {
  }
}
