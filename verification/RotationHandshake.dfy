// The order of the handshake over an arbitrary network: a confirm exists only for a
// prepare that the peer has answered.

module RotationHandshake {
  import opened Base
  import opened RotationCore
  import opened RotationInvariant
  import opened RotationAgents
  import opened RotationAgreement

  ghost predicate SaidAck(x: Agent, e: Epoch) { exists id: EventId :: Said(x, AckMsg(e, id)) }

  /** What `r` has moved past the candidate phase, or confirmed, `s` has answered; and
      `s` knows which prepare of `r` each of its rows is for. */
  ghost predicate Asked(r: Agent, s: Agent) {
    && (forall e | e in r.store.rotating && Past(r.store.rotating[e]) :: SaidAck(s, e))
    && (forall env | env in r.out && env.msg.ConfirmMsg? :: SaidAck(s, env.msg.confirmEpoch))
    && (forall e | e in s.store.acking :: RowAsked(r, s.store.acking[e]))
  }

  ghost predicate RowAsked(r: Agent, row: Row) {
    row.prepareId.Some? && row.prepareId.value in r.prepares && r.prepares[row.prepareId.value].newKey == row.newKey
  }

  lemma SaidStays(x: Agent, act: Act, now: int, m: Msg)
    requires Said(x, m)
    ensures Said(Moved(x, act, now), m)
  {
    var env :| env in x.out && env.msg == m;
    assert env in Moved(x, act, now).out;
  }

  /** Which row, if any, this action moves past the candidate phase. */
  ghost function Promoted(x: Agent, act: Act, now: int): Option<Epoch> {
    if (act.Rehook? || (act.Hear? && Accepts(x.store, act.env))) && act.env.msg.AckMsg?
       && OnAck(x.store, act.env.msg.epoch, act.env.msg.prepareId, now).1.Done?
    then Some(act.env.msg.epoch) else None
  }

  lemma PastRows(r: Agent, s: Agent, act: Act, now: int, e: Epoch)
    requires Half(r, s) && e in Moved(r, act, now).store.rotating && Past(Moved(r, act, now).store.rotating[e])
    ensures (e in r.store.rotating && Past(r.store.rotating[e])) || Promoted(r, act, now) == Some(e)
  {
    if act.Rotate? {
      BeginRows(r.store, act.key, if act.bound then Some(act.id) else None, now);
    } else if (act.Hear? || act.Rehook?) && act.env.msg.AckMsg? {
      AckMoves(r.store, act.env.msg.epoch, act.env.msg.prepareId, now);
    } else {
      RestMoves(r.store, act, now);
    }
  }

  /** The rotating side acts. */
  lemma RotatorAsks(r: Agent, s: Agent, act: Act, now: int)
    requires Half(r, s) && Asked(r, s) && Allowed(r, s, act)
    ensures Asked(Moved(r, act, now), s)
  {
    var r' := Moved(r, act, now);
    forall e | e in r'.store.rotating && Past(r'.store.rotating[e]) ensures SaidAck(s, e) {
      PastRows(r, s, act, now, e);
      if Promoted(r, act, now) == Some(e) { assert Said(s, AckMsg(e, act.env.msg.prepareId)); }
    }
    forall env | env in r'.out && env.msg.ConfirmMsg? ensures SaidAck(s, env.msg.confirmEpoch) {
      if env !in r.out {
        SentBy(r, act, now, env);
        var e := env.msg.confirmEpoch;
        assert e in LiveIn(r.store.rotating) && Past(r.store.rotating[e]);
      }
    }
    forall e | e in s.store.acking ensures RowAsked(r', s.store.acking[e]) { assert RowAsked(r, s.store.acking[e]); }
  }

  /** The acking side acts. */
  lemma AckerAsked(r: Agent, s: Agent, act: Act, now: int)
    requires Half(r, s) && Asked(r, s) && Valid(s.store) && Allowed(s, r, act)
    ensures Asked(r, Moved(s, act, now))
  {
    var s' := Moved(s, act, now);
    forall e | SaidAck(s, e) ensures SaidAck(s', e) {
      var id: EventId :| Said(s, AckMsg(e, id));
      SaidStays(s, act, now, AckMsg(e, id));
    }
    forall e | e in s'.store.acking ensures RowAsked(r, s'.store.acking[e]) { AckerRow(r, s, act, now, e); }
  }

  lemma AckerRow(r: Agent, s: Agent, act: Act, now: int, e: Epoch)
    requires Half(r, s) && Asked(r, s) && Valid(s.store) && Allowed(s, r, act) && e in Moved(s, act, now).store.acking
    ensures RowAsked(r, Moved(s, act, now).store.acking[e])
  {
    if (act.Hear? || act.Rehook?) && act.env.msg.PrepareMsg? {
      PrepareStore(s, act, now);
      if e in s.store.acking { assert RowAsked(r, s.store.acking[e]); }
      assert act.env in r.out;
    } else {
      AckingRest(s.store, act, now);
      assert RowAsked(r, s.store.acking[e]);
    }
  }

  lemma {:induction false} RunAsks(a: Agent, b: Agent, run: seq<Step>)
    requires Inv(a, b) && Asked(a, b) && Asked(b, a) && LegalRun(a, b, run) && AcksAnswer(a, b, run)
    ensures Inv(RunAll(a, b, run).0, RunAll(a, b, run).1)
    ensures Asked(RunAll(a, b, run).0, RunAll(a, b, run).1) && Asked(RunAll(a, b, run).1, RunAll(a, b, run).0)
    decreases |run|
  {
    if run != [] {
      var st := run[0];
      if st.first {
        RotatorMoves(a, b, st.act, st.now);
        AckerMoves(b, a, st.act, st.now);
        RotatorAsks(a, b, st.act, st.now);
        AckerAsked(b, a, st.act, st.now);
      } else {
        RotatorMoves(b, a, st.act, st.now);
        AckerMoves(a, b, st.act, st.now);
        RotatorAsks(b, a, st.act, st.now);
        AckerAsked(a, b, st.act, st.now);
      }
      RunAsks(After(a, b, st).0, After(a, b, st).1, run[1..]);
    }
  }

  /** Keys are drawn once. */
  ghost predicate KeysDiffer(x: Agent) {
    forall i, j | i in x.prepares && j in x.prepares && i != j :: x.prepares[i].newKey != x.prepares[j].newKey
  }

  /** Whenever a confirm for one of its rows can reach a side, that side has already
      sent the ack of exactly the prepare the row is for. */
  lemma ConfirmMeansAnswered(ka: Key, kb: Key, run: seq<Step>, e: Epoch)
    requires LegalRun(NewAgent(ka, kb), NewAgent(kb, ka), run) && AcksAnswer(NewAgent(ka, kb), NewAgent(kb, ka), run)
    requires var (a, b) := RunAll(NewAgent(ka, kb), NewAgent(kb, ka), run); KeysDiffer(a) && Said(a, ConfirmMsg(e))
    ensures var (a, b) := RunAll(NewAgent(ka, kb), NewAgent(kb, ka), run);
            e in b.store.acking ==>
              b.store.acking[e].prepareId.Some? && Said(b, AckMsg(e, b.store.acking[e].prepareId.value))
  {
    PairedValid(ka, kb);
    PairedValid(kb, ka);
    RunAsks(NewAgent(ka, kb), NewAgent(kb, ka), run);
    var (a, b) := RunAll(NewAgent(ka, kb), NewAgent(kb, ka), run);
    if e in b.store.acking { RowAnswered(a, b, e); }
  }

  lemma RowAnswered(r: Agent, s: Agent, e: Epoch)
    requires Half(r, s) && Asked(r, s) && KeysDiffer(r) && Said(r, ConfirmMsg(e)) && e in s.store.acking
    ensures s.store.acking[e].prepareId.Some? && Said(s, AckMsg(e, s.store.acking[e].prepareId.value))
  {
    var c :| c in r.out && c.msg == ConfirmMsg(e);
    assert SaidAck(s, e);
    var id: EventId :| Said(s, AckMsg(e, id));
    var env :| env in s.out && env.msg == AckMsg(e, id);
    assert AckHonest(r, s, e, id);
    assert RowAsked(r, s.store.acking[e]);
  }
}
