// The two installations joined by one in-order channel per direction.

module RotationFifo {
  import opened Base
  import opened RotationCore
  import opened RotationInvariant
  import opened RotationAgents
  import opened RotationAgreement
  import opened RotationDelivery

  // ---- Receiver actions that leave the active key and acknowledged rows alone ----

  ghost predicate LiveKept(s: Store, t: Store) {
    forall e: Epoch :: IsLive(t.rotating, e) ==> IsLive(s.rotating, e) && t.rotating[e].newKey == s.rotating[e].newKey
  }

  ghost predicate ReceiverKept(s: Store, t: Store) { SameReceiver(s, t) && LiveKept(s, t) }

  lemma SameActive(s: Store, t: Store)
    requires Valid(s) && Valid(t) && IsActive(t, ActiveEpoch(s)) && t.keys[ActiveEpoch(s)] == s.keys[ActiveEpoch(s)]
    ensures ActiveEpoch(t) == ActiveEpoch(s) && ActiveKey(t) == ActiveKey(s)
  {
  }

  lemma SameKeysKept(s: Store, t: Store)
    requires Valid(s) && Valid(t) && t.keyEpoch == s.keyEpoch && t.keys == s.keys
    requires forall e: Epoch :: AckedRow(t, e) <==> AckedRow(s, e)
    requires forall e: Epoch :: AckedRow(s, e) ==> t.rotating[e].newKey == s.rotating[e].newKey
    requires LiveKept(s, t)
    ensures ReceiverKept(s, t)
  {
    SameActive(s, t);
  }

  lemma AckKept(s: Store, e: Epoch, id: EventId, now: int)
    requires Valid(s) && !Advances(s, e, id, now)
    ensures ReceiverKept(s, OnAck(s, e, id, now).0)
  {
    OnAckKeepsValid(s, e, id, now);
    SameKeysKept(s, OnAck(s, e, id, now).0);
  }

  lemma NotesKept(s: Store, e: Epoch, now: int)
    requires Valid(s)
    ensures ReceiverKept(s, NoteAcceptedEvent(NoteDecryptedNewWrap(s, e, now)))
  {
    var s1 := NoteDecryptedNewWrap(s, e, now);
    NoteKept(s, e, now);
    CountKept(s1);
    KeptTrans(s, s1, NoteAcceptedEvent(s1));
  }

  lemma NoteKept(s: Store, e: Epoch, now: int)
    requires Valid(s)
    ensures ReceiverKept(s, NoteDecryptedNewWrap(s, e, now))
  {
    NotesKeepValid(s, e, now);
    SameKeysKept(s, NoteDecryptedNewWrap(s, e, now));
  }

  lemma CountKept(s: Store)
    requires Valid(s)
    ensures ReceiverKept(s, NoteAcceptedEvent(s))
  {
    CountKeepsValid(s);
    SameKeysKept(s, NoteAcceptedEvent(s));
  }

  lemma PrepareKept(s: Store, p: Prepare, id: EventId, now: int)
    requires Valid(s)
    ensures ReceiverKept(s, OnPrepare(s, p, id, now).0)
  {
    PrepareEither(s, p, id, now);
    OnPrepareKeepsValid(s, p, id, now);
    var t := OnPrepare(s, p, id, now).0;
    assert forall x: Epoch :: OwnRow(t.keys, x) <==> OwnRow(s.keys, x);
    SameActive(s, t);
  }

  lemma MarkCommittedKept(s: Store, now: int)
    requires Valid(s)
    ensures ReceiverKept(s, MarkCommitted(s, now).0)
  {
    MarkCommittedKeepsValid(s, now);
    var t := MarkCommitted(s, now).0;
    if t != s {
      var e := Min(LiveIn(s.acking));
      assert IsLive(s.acking, e);
      assert forall x: Epoch :: OwnRow(s.keys, x) ==> x <= s.keyEpoch;
      SameActive(s, t);
    }
  }

  lemma SweepKept(s: Store, order: seq<Epoch>, stopped: bool, now: int)
    requires Valid(s)
    ensures ReceiverKept(s, Sweep(s, order, stopped, now))
  {
    var s1 := Compact(s, now);
    CompactKeepsValid(s, now);
    CompactKept(s, s1);
    if stopped {
    } else if TimedOut(s1, now) != {} {
      DiscardKept(s1, Min(TimedOut(s1, now)));
    } else {
      RetireAllKept(s1, order, now);
    }
    KeptTrans(s, s1, Sweep(s, order, stopped, now));
  }

  lemma KeptTrans(s: Store, m: Store, t: Store)
    requires Valid(s) && Valid(m) && ReceiverKept(s, m) && ReceiverKept(m, t)
    ensures ReceiverKept(s, t)
  {
  }

  lemma CompactKept(s: Store, t: Store)
    requires Valid(s) && Valid(t) && CompactShape(s, t)
    ensures ReceiverKept(s, t)
  {
    assert OwnRow(s.keys, ActiveEpoch(s)) && OwnRow(t.keys, ActiveEpoch(s));
    assert forall x: Epoch :: OwnRow(t.keys, x) <==> OwnRow(s.keys, x);
    SameActive(s, t);
    assert forall e: Epoch :: AckedRow(s, e) ==> IsLive(s.rotating, e);
  }

  lemma DiscardKept(s: Store, e: Epoch)
    requires Valid(s) && e in s.rotating && s.rotating[e].phase == Candidate
    ensures ReceiverKept(s, DiscardRotating(s, e))
  {
    DiscardKeepsValid(s, e);
    assert IsLive(s.rotating, e) && RotatingRowOk(s, e, s.rotating[e]);
    SameActive(s, DiscardRotating(s, e));
  }

  lemma RetireOneKept(s: Store, e: Epoch, now: int)
    requires Valid(s)
    ensures ReceiverKept(s, RetireOne(s, e, now))
  {
    RetireOneKeepsValid(s, e, now);
    var t := RetireOne(s, e, now);
    if t != s {
      RetireOneActive(s, e, now);
      SameActive(s, t);
    }
  }

  lemma RetireOneActive(s: Store, e: Epoch, now: int)
    requires Valid(s) && RetireOne(s, e, now) != s
    ensures IsActive(RetireOne(s, e, now), ActiveEpoch(s)) && RetireOne(s, e, now).keys[ActiveEpoch(s)] == s.keys[ActiveEpoch(s)]
  {
    assert OwnRow(s.keys, e) && e <= s.keyEpoch && s.rotating[e].prior < e;
    assert e <= ActiveEpoch(s);
  }

  lemma {:induction false} RetireAllKept(s: Store, order: seq<Epoch>, now: int)
    requires Valid(s)
    ensures ReceiverKept(s, RetireAll(s, order, now))
    decreases |order|
  {
    if order != [] {
      RetireOneKept(s, order[0], now);
      RetireAllKept(RetireOne(s, order[0], now), order[1..], now);
    }
  }

  lemma HookKept(s: Store, env: Env, reply: bool, now: int)
    requires Valid(s)
    requires env.msg.CommitMsg? ==> !AckedRow(s, env.msg.commitEpoch)
    requires env.msg.AckMsg? ==> !Advances(s, env.msg.epoch, env.msg.prepareId, now)
    ensures ReceiverKept(s, Hook(s, env, reply, now).0)
  {
    match env.msg
    case PrepareMsg(id, p) => PrepareKept(s, p, id, now);
    case AckMsg(e, id) => AckKept(s, e, id, now);
    case ConfirmMsg(e) =>
      OnConfirmKeepsValid(s, e);
      SameKeysKept(s, OnConfirm(s, e).0);
    case CommitMsg(e) => assert OnCommit(s, e, now).0 == s;
    case DataMsg => NotesKept(s, env.stamp, now);
  }

  lemma BeginSame(s: Store, key: Key, id: Option<EventId>, now: int)
    requires Valid(s)
    ensures SameReceiver(s, Begin(s, key, id, now).0)
    ensures forall e: Epoch :: IsLive(Begin(s, key, id, now).0.rotating, e) ==>
              || (IsLive(s.rotating, e) && Begin(s, key, id, now).0.rotating[e].newKey == s.rotating[e].newKey)
              || Begin(s, key, id, now).0.rotating[e].newKey == key
  {
    BeginKeepsValid(s, key, id, now);
    var t := Begin(s, key, id, now).0;
    if !InFlight(s) {
      assert BeginShape(s, key, id, now);
      NothingLive(s);
      SameActive(s, t);
      assert forall e: Epoch :: AckedRow(s, e) ==> IsLive(s.rotating, e);
    }
  }

  // ---- History along a channel from `s` to `r` ----

  ghost predicate SaidCommit(s: Agent, e: Epoch) { Said(s, CommitMsg(e)) }

  /** No prepare names a live new key as its prior: keys are drawn fresh. */
  ghost predicate PriorsOld(r: Agent) {
    forall id, e: Epoch | id in r.prepares && IsLive(r.store.rotating, e) :: r.prepares[id].prior != r.store.rotating[e].newKey
  }

  ghost predicate ConfirmsKept(r: Agent, s: Agent) {
    forall env | env in r.out && env.msg.ConfirmMsg? :: AckedRow(r.store, env.msg.confirmEpoch) || SaidCommit(s, env.msg.confirmEpoch)
  }

  ghost predicate CommitsBacked(s: Agent) {
    && (forall env | env in s.out && env.msg.CommitMsg? ::
          env.msg.commitEpoch <= s.store.keyEpoch
          || (env.msg.commitEpoch in s.store.acking && s.store.acking[env.msg.commitEpoch].phase == Confirmed))
    && (forall e | e in s.store.acking && s.store.acking[e].phase == Committed :: SaidCommit(s, e))
  }

  ghost predicate CommitFlies(r: Store, q: seq<Env>, e: Epoch) {
    e <= r.keyEpoch || (AckedRow(r, e) && CommitIn(q, e))
  }

  ghost predicate CommitsFly(r: Agent, s: Agent, q: seq<Env>) {
    forall env | env in s.out && env.msg.CommitMsg? :: CommitFlies(r.store, q, env.msg.commitEpoch)
  }

  ghost predicate Logged(r: Agent, s: Agent, q: seq<Env>, log: set<Env>) {
    && (forall i | 0 <= i < |q| :: q[i] in s.out)
    && (forall env | env in log :: env in s.out && (env.msg.CommitMsg? ==> env.msg.commitEpoch <= r.store.keyEpoch))
  }

  ghost predicate Dir(r: Agent, s: Agent, q: seq<Env>, log: set<Env>) {
    && Chan(r.store, s.store, q)
    && PriorsOld(r) && ConfirmsKept(r, s) && CommitsBacked(s) && CommitsFly(r, s, q) && Logged(r, s, q, log)
  }

  // ---- The in-order system ----

  /** A drawn key differs from every key this side ever proposed or continued. */
  predicate FreshKey(r: Agent, key: Key) {
    forall id | id in r.prepares :: r.prepares[id].newKey != key && r.prepares[id].prior != key
  }

  predicate FreshOwn(r: Agent, key: Key) { forall e | e in r.store.keys :: r.store.keys[e].pub != key }

  /** Envelopes are taken in order; only those are re-driven.  A commit is heard with
      its confirm marked, and its hook runs then; any other hook may be put off. */
  ghost predicate Orderly(x: Agent, y: Agent, q: seq<Env>, log: set<Env>, act: Act) {
    && Allowed(x, y, act)
    && match act
       case Rotate(key, id, bound, sent) => FreshKey(x, key) && FreshOwn(x, key)
       case Hear(env, _) => q != [] && env == q[0] && (env.msg.CommitMsg? ==> ConfirmMarked(x.store, env.msg.commitEpoch))
       case Take(env) => q != [] && env == q[0] && !env.msg.CommitMsg?
       case Rehook(env, _) => env in log
       case _ => true
  }

  /** The confirm for this row was sent and marked, if the row is still there. */
  predicate ConfirmMarked(s: Store, e: Epoch) { e in s.rotating ==> s.rotating[e].phase != Acknowledged }

  function Popped(q: seq<Env>, act: Act): seq<Env> {
    if (act.Hear? || act.Take?) && q != [] then q[1..] else q
  }

  function LogOf(log: set<Env>, act: Act): set<Env> { if act.Hear? || act.Take? then log + {act.env} else log }

  // ---- The receiver acts ----

  lemma ReceiverHistory(r: Agent, s: Agent, q: seq<Env>, q': seq<Env>, log: set<Env>, act: Act, now: int)
    requires Dir(r, s, q, log) && Orderly(r, s, q, log, act) && q' == Popped(q, act)
    requires var t := Moved(r, act, now).store;
             && Valid(t) && r.store.keyEpoch <= t.keyEpoch
             && (forall e: Epoch | AckedRow(r.store, e) :: AckedRow(t, e) || (e <= t.keyEpoch && act.Hear? && q[0].msg == CommitMsg(e)))
             && (forall e: Epoch | AckedRow(r.store, e) && AckedRow(t, e) && CommitIn(q, e) :: CommitIn(q', e))
    requires forall e: Epoch :: IsLive(Moved(r, act, now).store.rotating, e) ==>
               || (IsLive(r.store.rotating, e) && Moved(r, act, now).store.rotating[e].newKey == r.store.rotating[e].newKey)
               || (act.Rotate? && Moved(r, act, now).store.rotating[e].newKey == act.key)
    requires act.Hear? && q[0].msg.CommitMsg? ==> q[0].msg.commitEpoch <= Moved(r, act, now).store.keyEpoch
    ensures PriorsOld(Moved(r, act, now)) && ConfirmsKept(Moved(r, act, now), s)
    ensures CommitsFly(Moved(r, act, now), s, q') && Logged(Moved(r, act, now), s, q', LogOf(log, act))
  {
    var r' := Moved(r, act, now);
    HistoryPriors(r, s, q, log, act, now);
    HistoryConfirms(r, s, q, log, act, now);
    forall env | env in s.out && env.msg.CommitMsg? ensures CommitFlies(r'.store, q', env.msg.commitEpoch) {
      assert CommitFlies(r.store, q, env.msg.commitEpoch);
    }
  }

  lemma HistoryPriors(r: Agent, s: Agent, q: seq<Env>, log: set<Env>, act: Act, now: int)
    requires PriorsOld(r) && Orderly(r, s, q, log, act) && Valid(r.store)
    requires forall e: Epoch :: IsLive(Moved(r, act, now).store.rotating, e) ==>
               || (IsLive(r.store.rotating, e) && Moved(r, act, now).store.rotating[e].newKey == r.store.rotating[e].newKey)
               || (act.Rotate? && Moved(r, act, now).store.rotating[e].newKey == act.key)
    ensures PriorsOld(Moved(r, act, now))
  {
    var r' := Moved(r, act, now);
    forall id, e: Epoch | id in r'.prepares && IsLive(r'.store.rotating, e)
      ensures r'.prepares[id].prior != r'.store.rotating[e].newKey
    {
      if act.Rotate? {
        var drawn := if act.bound then Some(act.id) else None;
        BeginKeepsValid(r.store, act.key, drawn, now);
        NothingLive(r.store);
        if id != act.id || id in r.prepares { assert id in r.prepares; }
        else if !InFlight(r.store) { assert BeginShape(r.store, act.key, drawn, now); }
      }
    }
  }

  lemma HistoryConfirms(r: Agent, s: Agent, q: seq<Env>, log: set<Env>, act: Act, now: int)
    requires Dir(r, s, q, log) && Orderly(r, s, q, log, act)
    requires var t := Moved(r, act, now).store;
             forall e: Epoch | AckedRow(r.store, e) :: AckedRow(t, e) || (e <= t.keyEpoch && act.Hear? && q[0].msg == CommitMsg(e))
    ensures ConfirmsKept(Moved(r, act, now), s)
  {
    var r' := Moved(r, act, now);
    forall env | env in r'.out && env.msg.ConfirmMsg?
      ensures AckedRow(r'.store, env.msg.confirmEpoch) || SaidCommit(s, env.msg.confirmEpoch)
    {
      var e := env.msg.confirmEpoch;
      if env !in r.out {
        SentBy(r, act, now, env);
      } else if AckedRow(r.store, e) && !AckedRow(r'.store, e) {
        assert q[0] in s.out && q[0].msg == CommitMsg(e);
      }
    }
  }

  lemma ReceiverActs(r: Agent, s: Agent, q: seq<Env>, log: set<Env>, act: Act, now: int)
    requires Half(r, s) && Dir(r, s, q, log) && Orderly(r, s, q, log, act)
    ensures Dir(Moved(r, act, now), s, Popped(q, act), LogOf(log, act))
  {
    MovedValid(r.store, act, now);
    if act.Hear? {
      HearActs(r, s, q, log, act, now);
    } else if act.Rehook? && Promotes(r, act, now) {
      AckActs(r, s, q, q, log, act, now);
    } else if act.Take? {
      TakeActs(r, s, q, log, act, now);
    } else {
      OtherActs(r, s, q, log, act, now);
    }
  }

  lemma OtherActs(r: Agent, s: Agent, q: seq<Env>, log: set<Env>, act: Act, now: int)
    requires Half(r, s) && Dir(r, s, q, log) && Orderly(r, s, q, log, act) && !act.Hear? && !act.Take?
    requires act.Rehook? ==> !Promotes(r, act, now)
    ensures Dir(Moved(r, act, now), s, q, log)
  {
    var t := Moved(r, act, now).store;
    OtherKept(r, s, q, log, act, now);
    ChanReceiverKept(r.store, t, s.store, q);
    ReceiverHistory(r, s, q, q, log, act, now);
  }

  /** These leave the active key and the acknowledged rows alone. */
  lemma OtherKept(r: Agent, s: Agent, q: seq<Env>, log: set<Env>, act: Act, now: int)
    requires Dir(r, s, q, log) && Orderly(r, s, q, log, act) && !act.Hear? && !act.Take?
    requires act.Rehook? ==> !Promotes(r, act, now)
    ensures var t := Moved(r, act, now).store;
            && SameReceiver(r.store, t)
            && forall e: Epoch :: IsLive(t.rotating, e) ==>
                 || (IsLive(r.store.rotating, e) && t.rotating[e].newKey == r.store.rotating[e].newKey)
                 || (act.Rotate? && t.rotating[e].newKey == act.key)
  {
    MovedValid(r.store, act, now);
    match act {
      case Rotate(key, id, bound, sent) => BeginSame(r.store, key, if bound then Some(id) else None, now);
      case Rehook(env, reply) => RehookKept(r, s, q, log, act, now);
      case SendConfirm(marked) => MarkKept(r.store, marked);
      case SendCommit(marked) => MarkCommittedKept(r.store, now);
      case Maintain(order, stopped) => SweepKept(r.store, order, stopped, now);
      case Say => SelfKept(r.store);
    }
  }

  /** Marking a confirm leaves the row acknowledged. */
  lemma MarkKept(s: Store, marked: bool)
    requires Valid(s)
    ensures ReceiverKept(s, s) && ReceiverKept(s, MarkConfirmed(s).0)
  {
    MarkConfirmedKeepsValid(s);
    SelfKept(s);
    if MarkConfirmed(s).0 != s { assert IsLive(s.rotating, Min(LiveIn(s.rotating))); }
    SameKeysKept(s, MarkConfirmed(s).0);
  }

  lemma RehookKept(r: Agent, s: Agent, q: seq<Env>, log: set<Env>, act: Act, now: int)
    requires Dir(r, s, q, log) && act.Rehook? && act.env in log && !Promotes(r, act, now)
    ensures ReceiverKept(r.store, Moved(r, act, now).store)
  {
    if act.env.msg.CommitMsg? && AckedRow(r.store, act.env.msg.commitEpoch) { LiveAhead(r.store, act.env.msg.commitEpoch); }
    HookKept(r.store, act.env, act.reply, now);
  }

  /** The ack of a candidate, heard now or re-driven: `q'` is what is then in flight. */
  lemma AckActs(r: Agent, s: Agent, q: seq<Env>, q': seq<Env>, log: set<Env>, act: Act, now: int)
    requires Half(r, s) && Dir(r, s, q, log) && Orderly(r, s, q, log, act) && q' == Popped(q, act) && Promotes(r, act, now)
    ensures Dir(Moved(r, act, now), s, q', LogOf(log, act))
  {
    var e, id := act.env.msg.epoch, act.env.msg.prepareId;
    var t := Moved(r, act, now).store;
    MovedValid(r.store, act, now);
    assert t == OnAck(r.store, e, id, now).0;
    OnlyAcked(r.store, e, id, now);
    NotYetConfirmed(r, s, q, log, e);
    if act.Hear? { ChanPop(r.store, s.store, q); }
    ChanAcked(r.store, t, s.store, q', e);
    assert forall d: Epoch :: !AckedRow(r.store, d);
    AckLive(r.store, e, id, now);
    ReceiverHistory(r, s, q, q', log, act, now);
  }

  /** With a candidate in flight nothing is acknowledged; afterwards it alone is. */
  lemma OnlyAcked(s: Store, e: Epoch, id: EventId, now: int)
    requires Valid(s) && Advances(s, e, id, now)
    ensures var t := OnAck(s, e, id, now).0;
            && t.keys == s.keys && t.keyEpoch == s.keyEpoch
            && (forall d: Epoch :: !AckedRow(s, d)) && (forall d: Epoch :: AckedRow(t, d) <==> d == e)
  {
    assert IsLive(s.rotating, e);
    assert forall d: Epoch :: AckedRow(s, d) ==> IsLive(s.rotating, d);
  }

  lemma AckLive(s: Store, e: Epoch, id: EventId, now: int)
    ensures LiveKept(s, OnAck(s, e, id, now).0)
  {
  }

  /** Until the rotating side has the ack, the peer has heard no confirm. */
  lemma NotYetConfirmed(r: Agent, s: Agent, q: seq<Env>, log: set<Env>, e: Epoch)
    requires Half(r, s) && Dir(r, s, q, log) && e in r.store.rotating && r.store.rotating[e].phase == Candidate
    ensures e in s.store.acking ==> s.store.acking[e].phase != Confirmed
  {
    assert IsLive(r.store.rotating, e) && RotatingRowOk(r.store, e, r.store.rotating[e]);
    assert !SaidCommit(s, e);
    assert !Said(r, ConfirmMsg(e));
  }

  lemma TakeActs(r: Agent, s: Agent, q: seq<Env>, log: set<Env>, act: Act, now: int)
    requires Half(r, s) && Dir(r, s, q, log) && Orderly(r, s, q, log, act) && act.Take?
    ensures Dir(Moved(r, act, now), s, q[1..], log + {act.env})
  {
    SelfKept(r.store);
    ChanPop(r.store, s.store, q);
    forall e: Epoch | AckedRow(r.store, e) ensures CommitIn(q, e) <==> CommitIn(q[1..], e) { CommitPop(q, e, |q| - 1); }
    ReceiverHistory(r, s, q, q[1..], log, act, now);
  }

  lemma HearActs(r: Agent, s: Agent, q: seq<Env>, log: set<Env>, act: Act, now: int)
    requires Half(r, s) && Dir(r, s, q, log) && Orderly(r, s, q, log, act) && act.Hear?
    ensures Dir(Moved(r, act, now), s, q[1..], log + {act.env})
  {
    var env := act.env;
    if env.msg.CommitMsg? && AckedRow(r.store, env.msg.commitEpoch) {
      CommitHeard(r, s, q, log, act, now);
    } else if Promotes(r, act, now) {
      AckActs(r, s, q, q[1..], log, act, now);
    } else {
      var t := Moved(r, act, now).store;
      MovedValid(r.store, act, now);
      QuietHear(r, s, q, log, act, now);
      ChanPop(r.store, s.store, q);
      ChanReceiverKept(r.store, t, s.store, q[1..]);
      forall e: Epoch | AckedRow(r.store, e) ensures CommitIn(q, e) <==> CommitIn(q[1..], e) { CommitPop(q, e, |q| - 1); }
      ReceiverHistory(r, s, q, q[1..], log, act, now);
    }
  }

  lemma QuietHear(r: Agent, s: Agent, q: seq<Env>, log: set<Env>, act: Act, now: int)
    requires Valid(r.store) && act.Hear? && !Promotes(r, act, now)
    requires act.env.msg.CommitMsg? ==> !AckedRow(r.store, act.env.msg.commitEpoch)
    ensures ReceiverKept(r.store, Moved(r, act, now).store)
  {
    SelfKept(r.store);
    if Accepts(r.store, act.env) { HookKept(r.store, act.env, act.reply, now); }
  }

  lemma SelfKept(s: Store)
    requires Valid(s)
    ensures ReceiverKept(s, s)
  {
  }

  /** The commit at the head passes the unseal and the epoch gate, and is applied. */
  lemma CommitHeard(r: Agent, s: Agent, q: seq<Env>, log: set<Env>, act: Act, now: int)
    requires Half(r, s) && Dir(r, s, q, log) && Orderly(r, s, q, log, act) && act.Hear?
    requires act.env.msg.CommitMsg? && AckedRow(r.store, act.env.msg.commitEpoch)
    ensures Dir(Moved(r, act, now), s, q[1..], log + {act.env})
  {
    var e := act.env.msg.commitEpoch;
    LiveAhead(r.store, e);
    Openable(r.store, s.store, q);
    assert q[0].stamp == e;
    assert e <= CurrentEpoch(r.store) by { assert e in Own(r.store); }
    assert Moved(r, act, now).store == OnCommit(r.store, e, now).0;
    OnCommitKeepsValid(r.store, e, now);
    ChanCommitted(r.store, s.store, q, e, now);
    ReceiverHistory(r, s, q, q[1..], log, act, now);
  }

  // ---- The sender acts ----

  lemma SenderHistory(r: Agent, s: Agent, q: seq<Env>, log: set<Env>, act: Act, now: int)
    requires Dir(r, s, q, log) && Valid(Moved(s, act, now).store) && s.store.keyEpoch <= Moved(s, act, now).store.keyEpoch
    requires var sent := Local(s.store, act, now).1;
             forall env | env in sent && env.msg.CommitMsg? :: CommitReady(r.store, s.store, q, env.msg.commitEpoch)
    requires CommitsBacked(Moved(s, act, now))
    ensures ConfirmsKept(r, Moved(s, act, now)) && CommitsFly(r, Moved(s, act, now), q + Local(s.store, act, now).1)
    ensures Logged(r, Moved(s, act, now), q + Local(s.store, act, now).1, log)
  {
    var s' := Moved(s, act, now);
    var sent := Local(s.store, act, now).1;
    var q' := q + sent;
    forall env | env in r.out && env.msg.ConfirmMsg?
      ensures AckedRow(r.store, env.msg.confirmEpoch) || SaidCommit(s', env.msg.confirmEpoch)
    {
      if SaidCommit(s, env.msg.confirmEpoch) {
        var c :| c in s.out && c.msg == CommitMsg(env.msg.confirmEpoch);
        assert c in s'.out;
      }
    }
    forall env | env in s'.out && env.msg.CommitMsg? ensures CommitFlies(r.store, q', env.msg.commitEpoch) {
      if env !in s.out { assert env in sent; }
      FliesOn(r.store, s.store, q, sent, env, env in s.out);
    }
    forall i | 0 <= i < |q'| ensures q'[i] in s'.out {
      if i < |q| { assert q'[i] == q[i]; } else { assert q'[i] == sent[i - |q|]; }
    }
  }

  lemma FliesOn(r: Store, s: Store, q: seq<Env>, sent: seq<Env>, env: Env, earlier: bool)
    requires env.msg.CommitMsg?
    requires if earlier then CommitFlies(r, q, env.msg.commitEpoch) else env in sent && CommitReady(r, s, q, env.msg.commitEpoch)
    ensures CommitFlies(r, q + sent, env.msg.commitEpoch)
  {
    var e := env.msg.commitEpoch;
    var q' := q + sent;
    if earlier {
      if j :| 0 <= j < |q| && q[j].msg == CommitMsg(e) { assert q'[j].msg == CommitMsg(e); }
    } else {
      var k :| 0 <= k < |sent| && sent[k] == env;
      assert q'[|q| + k].msg == CommitMsg(e);
    }
  }

  lemma SaidGrows(s: Agent, act: Act, now: int, m: Msg)
    requires Said(s, m)
    ensures Said(Moved(s, act, now), m)
  {
    var env :| env in s.out && env.msg == m;
    assert env in Moved(s, act, now).out;
  }

  lemma SenderBacked(r: Agent, s: Agent, q: seq<Env>, log: set<Env>, act: Act, now: int)
    requires Half(r, s) && Dir(r, s, q, log)
    ensures CommitsBacked(Moved(s, act, now))
  {
    MovedValid(s.store, act, now);
    AckingPhases(s.store, act, now);
    var s' := Moved(s, act, now);
    forall env | env in s'.out && env.msg.CommitMsg?
      ensures env.msg.commitEpoch <= s'.store.keyEpoch
              || (env.msg.commitEpoch in s'.store.acking && s'.store.acking[env.msg.commitEpoch].phase == Confirmed)
    {
      if env !in s.out {
        SentBy(s, act, now, env);
        assert env.msg.commitEpoch in s.store.acking;
      }
    }
    forall e | e in s'.store.acking && s'.store.acking[e].phase == Committed ensures SaidCommit(s', e) {
      if e in s.store.acking && s.store.acking[e].phase == Committed {
        SaidGrows(s, act, now, CommitMsg(e));
      } else {
        RecipientsShape(s.store);
        assert Local(s.store, act, now).1 == Seal(s.store, CommitMsg(e));
        assert Local(s.store, act, now).1[0].msg == CommitMsg(e);
      }
    }
  }

  /** A confirmed acking row stays confirmed or is committed by a marked commit. */
  ghost predicate PhasesKept(s: Store, t: Store, marking: bool) {
    && (forall e | e in s.acking && s.acking[e].phase == Confirmed ::
          (e in t.acking && t.acking[e].phase == Confirmed) || e <= t.keyEpoch)
    && (forall e | e in t.acking && t.acking[e].phase == Committed ::
          (e in s.acking && s.acking[e].phase == Committed) || (marking && BuildCommit(s) == EpochReply(e)))
  }

  lemma AckingPhases(s: Store, act: Act, now: int)
    requires Valid(s)
    ensures PhasesKept(s, Local(s, act, now).0, act.SendCommit?)
  {
    match act
    case Rotate(key, id, bound, sent) =>
    case Hear(env, reply) => if Accepts(s, env) { HookPhases(s, env, reply, now); }
    case Rehook(env, reply) => HookPhases(s, env, reply, now);
    case Take(env) =>
    case SendConfirm(marked) =>
    case SendCommit(marked) =>
      if LiveIn(s.acking) != {} { assert IsLive(s.acking, Min(LiveIn(s.acking))); }
      assert forall e | e in s.acking && s.acking[e].phase == Confirmed :: IsLive(s.acking, e);
    case Maintain(order, stopped) => SweepPhases(s, order, stopped, now);
    case Say =>
  }

  lemma HookPhases(s: Store, env: Env, reply: bool, now: int)
    requires Valid(s)
    ensures PhasesKept(s, Hook(s, env, reply, now).0, false)
  {
    match env.msg
    case PrepareMsg(id, p) =>
      PrepareEither(s, p, id, now);
      TakenUpPhases(s, p, id);
    case AckMsg(e, id) => assert OnAck(s, e, id, now).0.acking == s.acking;
    case ConfirmMsg(e) =>
    case CommitMsg(e) => OnCommitKeepsValid(s, e, now);
    case DataMsg => assert NoteAcceptedEvent(NoteDecryptedNewWrap(s, env.stamp, now)).acking == s.acking;
  }

  lemma TakenUpPhases(s: Store, p: Prepare, id: EventId)
    requires Valid(s)
    ensures !InFlight(s) ==> PhasesKept(s, TakenUp(s, p, id), false)
  {
    NothingLive(s);
    assert forall e: Epoch :: e in s.acking && s.acking[e].phase == Confirmed ==> IsLive(s.acking, e);
  }

  lemma SweepPhases(s: Store, order: seq<Epoch>, stopped: bool, now: int)
    requires Valid(s)
    ensures PhasesKept(s, Sweep(s, order, stopped, now), false)
  {
    CompactKeepsValid(s, now);
    var s1 := Compact(s, now);
    assert PhasesKept(s, s1, false);
    if stopped {
    } else if TimedOut(s1, now) != {} {
      assert DiscardRotating(s1, Min(TimedOut(s1, now))).acking == s1.acking;
    } else {
      RetireAllAcking(s1, order, now);
      RetireAllKeepsValid(s1, order, now);
    }
  }

  lemma SenderActs(r: Agent, s: Agent, q: seq<Env>, log: set<Env>, act: Act, now: int)
    requires Half(r, s) && Dir(r, s, q, log) && Allowed(s, r, act)
    ensures Dir(r, Moved(s, act, now), q + Local(s.store, act, now).1, log)
  {
    MovedValid(s.store, act, now);
    SenderBacked(r, s, q, log, act, now);
    SenderSends(r, s, q, log, act, now);
    SenderHistory(r, s, q, log, act, now);
  }

  lemma SenderSends(r: Agent, s: Agent, q: seq<Env>, log: set<Env>, act: Act, now: int)
    requires Half(r, s) && Dir(r, s, q, log) && Allowed(s, r, act)
    ensures Chan(r.store, Moved(s, act, now).store, q + Local(s.store, act, now).1)
    ensures forall env | env in Local(s.store, act, now).1 && env.msg.CommitMsg? :: CommitReady(r.store, s.store, q, env.msg.commitEpoch)
  {
    if act.SendCommit? {
      CommitSends(r, s, q, log, act, now);
    } else {
      OtherSends(r, s, q, log, act, now);
      SaysNoCommit(s.store, act, now);
    }
  }

  lemma SaysNoCommit(s: Store, act: Act, now: int)
    requires !act.SendCommit?
    ensures forall x | x in Local(s, act, now).1 :: !x.msg.CommitMsg?
  {
  }

  lemma OtherSends(r: Agent, s: Agent, q: seq<Env>, log: set<Env>, act: Act, now: int)
    requires Half(r, s) && Dir(r, s, q, log) && Allowed(s, r, act) && !act.SendCommit?
    ensures Chan(r.store, Moved(s, act, now).store, q + Local(s.store, act, now).1)
  {
    match act
    case Rotate(key, id, bound, sent) => RotateSends(r, s, q, log, act, now);
    case Hear(env, reply) => HearSends(r, s, q, log, act, now);
    case Rehook(env, reply) => HearSends(r, s, q, log, act, now);
    case Take(env) => EmptyAppend(q);
    case SendConfirm(marked) => ConfirmSends(r, s, q, act, now);
    case Maintain(order, stopped) => EmptyAppend(q); SweepSends(r, s, q, order, stopped, now);
    case Say => SealAppend(r.store, s.store, q, DataMsg);
  }

  lemma HearSends(r: Agent, s: Agent, q: seq<Env>, log: set<Env>, act: Act, now: int)
    requires Half(r, s) && Dir(r, s, q, log) && (act.Hear? || act.Rehook?) && act.env in r.out
    ensures Chan(r.store, Moved(s, act, now).store, q + Local(s.store, act, now).1)
  {
    EmptyAppend(q);
    if act.Rehook? || Accepts(s.store, act.env) { HookSends(r, s, q, log, act.env, act.reply, now); }
  }

  lemma EmptyAppend(q: seq<Env>)
    ensures q + [] == q
  {
  }

  lemma SealAppend(r: Store, s: Store, q: seq<Env>, msg: Msg)
    requires Chan(r, s, q) && (msg.CommitMsg? ==> CommitReady(r, s, q, msg.commitEpoch))
    ensures Chan(r, s, q + Seal(s, msg))
  {
    RecipientsShape(s);
    ChanAppend(r, s, q, Seal(s, msg)[0]);
  }

  lemma RotateSends(r: Agent, s: Agent, q: seq<Env>, log: set<Env>, act: Act, now: int)
    requires Dir(r, s, q, log) && act.Rotate?
    ensures Chan(r.store, Moved(s, act, now).store, q + Local(s.store, act, now).1)
  {
    var t := Moved(s, act, now).store;
    var b := Begin(s.store, act.key, if act.bound then Some(act.id) else None, now);
    BeginKeepsValid(s.store, act.key, if act.bound then Some(act.id) else None, now);
    assert t.acking == s.store.acking && t.peerKey == s.store.peerKey;
    ChanSenderKept(r.store, s.store, t, q);
    EmptyAppend(q);
    if b.1.Prepared? { SealAppend(r.store, t, q, PrepareMsg(act.id, b.1.prepare)); }
  }

  lemma ConfirmSends(r: Agent, s: Agent, q: seq<Env>, act: Act, now: int)
    requires Chan(r.store, s.store, q) && act.SendConfirm?
    ensures Chan(r.store, Moved(s, act, now).store, q + Local(s.store, act, now).1)
  {
    var t := Moved(s, act, now).store;
    MovedValid(s.store, act, now);
    EmptyAppend(q);
    var b := BuildConfirm(s.store);
    if b.EpochReply? {
      SealAppend(r.store, s.store, q, ConfirmMsg(b.replyEpoch));
      assert t.acking == s.store.acking && t.peerKey == s.store.peerKey;
      ChanSenderKept(r.store, s.store, t, q + Seal(s.store, ConfirmMsg(b.replyEpoch)));
    }
  }

  lemma SweepSends(r: Agent, s: Agent, q: seq<Env>, order: seq<Epoch>, stopped: bool, now: int)
    requires Chan(r.store, s.store, q)
    ensures Chan(r.store, Sweep(s.store, order, stopped, now), q)
  {
    SweepKeepsValid(s.store, order, stopped, now);
    SweepSameSender(s.store, order, stopped, now);
    ChanSenderKept(r.store, s.store, Sweep(s.store, order, stopped, now), q);
  }

  lemma SweepSameSender(s: Store, order: seq<Epoch>, stopped: bool, now: int)
    requires Valid(s)
    ensures SameSender(s, Sweep(s, order, stopped, now))
  {
    CompactKeepsValid(s, now);
    var s1 := Compact(s, now);
    assert SameSender(s, s1);
    if !stopped && TimedOut(s1, now) == {} { RetireAllSame(s1, order, now); }
  }

  lemma {:induction false} RetireAllSame(s: Store, order: seq<Epoch>, now: int)
    ensures RetireAll(s, order, now).acking == s.acking && RetireAll(s, order, now).peerKey == s.peerKey
    decreases |order|
  {
    if order != [] { RetireAllSame(RetireOne(s, order[0], now), order[1..], now); }
  }

  lemma HookSends(r: Agent, s: Agent, q: seq<Env>, log: set<Env>, env: Env, reply: bool, now: int)
    requires Half(r, s) && Dir(r, s, q, log) && env in r.out
    ensures Chan(r.store, Hook(s.store, env, reply, now).0, q + Hook(s.store, env, reply, now).1)
  {
    HookValid(s.store, env, reply, now);
    EmptyAppend(q);
    match env.msg
    case PrepareMsg(id, p) => PrepareSends(r, s, q, log, env, reply, now);
    case ConfirmMsg(e) => ConfirmHeardSends(r, s, q, log, env, now);
    case AckMsg(e, id) => AckSame(r.store, s.store, q, e, id, now);
    case CommitMsg(e) => CommitSame(r.store, s.store, q, e, now);
    case DataMsg => DataSame(r.store, s.store, q, env.stamp, now);
  }

  lemma AckQuiet(s: Store, e: Epoch, id: EventId, now: int)
    ensures OnAck(s, e, id, now).0.acking == s.acking && OnAck(s, e, id, now).0.peerKey == s.peerKey
  {
  }

  lemma AckSame(r: Store, s: Store, q: seq<Env>, e: Epoch, id: EventId, now: int)
    requires Chan(r, s, q)
    ensures Chan(r, OnAck(s, e, id, now).0, q)
  {
    OnAckKeepsValid(s, e, id, now);
    AckQuiet(s, e, id, now);
    ChanSenderKept(r, s, OnAck(s, e, id, now).0, q);
  }

  lemma CommitSame(r: Store, s: Store, q: seq<Env>, e: Epoch, now: int)
    requires Chan(r, s, q)
    ensures Chan(r, OnCommit(s, e, now).0, q)
  {
    OnCommitKeepsValid(s, e, now);
    ChanSenderKept(r, s, OnCommit(s, e, now).0, q);
  }

  lemma DataSame(r: Store, s: Store, q: seq<Env>, e: Epoch, now: int)
    requires Chan(r, s, q)
    ensures Chan(r, NoteAcceptedEvent(NoteDecryptedNewWrap(s, e, now)), q)
  {
    var s1 := NoteDecryptedNewWrap(s, e, now);
    NotesKeepValid(s, e, now);
    CountKeepsValid(s1);
    assert NoteAcceptedEvent(s1).acking == s1.acking == s.acking && NoteAcceptedEvent(s1).peerKey == s.peerKey;
    ChanSenderKept(r, s, NoteAcceptedEvent(s1), q);
  }

  lemma PrepareSends(r: Agent, s: Agent, q: seq<Env>, log: set<Env>, env: Env, reply: bool, now: int)
    requires Half(r, s) && Dir(r, s, q, log) && env in r.out && env.msg.PrepareMsg?
    ensures Chan(r.store, Hook(s.store, env, reply, now).0, q + Hook(s.store, env, reply, now).1)
  {
    var p, id := env.msg.p, env.msg.id;
    var o := OnPrepare(s.store, p, id, now);
    OnPrepareKeepsValid(s.store, p, id, now);
    PriorIsOld(r, env);
    if o.0 != s.store {
      FreshPrepareShape(s.store, p, id, now);
      ChanTakenUp(r.store, s.store, q, p, id);
    }
    EmptyAppend(q);
    if o.1.AckFor? && reply { SealAppend(r.store, o.0, q, AckMsg(o.1.ackEpoch, id)); }
  }

  lemma PriorIsOld(r: Agent, env: Env)
    requires RotatorOk(r) && PriorsOld(r) && env in r.out && env.msg.PrepareMsg?
    ensures forall e: Epoch :: AckedRow(r.store, e) ==> env.msg.p.prior != r.store.rotating[e].newKey
  {
    assert forall e: Epoch :: AckedRow(r.store, e) ==> IsLive(r.store.rotating, e);
  }

  lemma ConfirmHeardSends(r: Agent, s: Agent, q: seq<Env>, log: set<Env>, env: Env, now: int)
    requires Half(r, s) && Dir(r, s, q, log) && env in r.out && env.msg.ConfirmMsg?
    ensures Chan(r.store, OnConfirm(s.store, env.msg.confirmEpoch).0, q)
  {
    var e := env.msg.confirmEpoch;
    OnConfirmKeepsValid(s.store, e);
    if e in s.store.acking && s.store.acking[e].phase == Acknowledged {
      assert IsLive(s.store.acking, e) && AckingRowOk(s.store, e, s.store.acking[e]);
      assert !SaidCommit(s, e);
      assert AckedRow(r.store, e);
      ChanConfirmHeard(r.store, s.store, q, e);
    }
  }

  lemma CommitIsReady(r: Agent, s: Agent, q: seq<Env>, log: set<Env>, e: Epoch)
    requires Half(r, s) && Dir(r, s, q, log) && BuildCommit(s.store) == EpochReply(e)
    ensures CommitReady(r.store, s.store, q, e)
    ensures e in s.store.acking && Agreed(s.store.acking[e])
  {
    if LiveIn(s.store.acking) != {} { assert IsLive(s.store.acking, Min(LiveIn(s.store.acking))); }
    assert e in s.store.acking && Agreed(s.store.acking[e]);
    assert Said(r, ConfirmMsg(e));
    assert AckedRow(r.store, e) || SaidCommit(s, e);
    if SaidCommit(s, e) { assert CommitFlies(r.store, q, e); }
    if s.store.acking[e].phase == Committed { assert SaidCommit(s, e); }
    if AckedRow(r.store, e) { LiveAhead(r.store, e); }
  }

  lemma CommitSends(r: Agent, s: Agent, q: seq<Env>, log: set<Env>, act: Act, now: int)
    requires Half(r, s) && Dir(r, s, q, log) && act.SendCommit?
    ensures Chan(r.store, Moved(s, act, now).store, q + Local(s.store, act, now).1)
    ensures forall env | env in Local(s.store, act, now).1 && env.msg.CommitMsg? :: CommitReady(r.store, s.store, q, env.msg.commitEpoch)
  {
    var b := BuildCommit(s.store);
    CommitActs(s, act, now);
    if b.EpochReply? {
      CommitIsReady(r, s, q, log, b.replyEpoch);
      SealedMsg(s.store, CommitMsg(b.replyEpoch));
      SealAppend(r.store, s.store, q, CommitMsg(b.replyEpoch));
      CommitMarks(r.store, s.store, q, b.replyEpoch, now);
    } else {
      EmptyAppend(q);
    }
  }

  lemma CommitActs(s: Agent, act: Act, now: int)
    requires act.SendCommit?
    ensures var b := BuildCommit(s.store);
            && Local(s.store, act, now).1 == (if b.EpochReply? then Seal(s.store, CommitMsg(b.replyEpoch)) else [])
            && Moved(s, act, now).store == (if b.EpochReply? && act.marked then MarkCommitted(s.store, now).0 else s.store)
  {
  }

  lemma SealedMsg(s: Store, m: Msg)
    ensures forall env | env in Seal(s, m) :: env.msg == m
  {
  }

  lemma CommitMarks(r: Store, s: Store, q: seq<Env>, e: Epoch, now: int)
    requires Chan(r, s, q + Seal(s, CommitMsg(e))) && BuildCommit(s) == EpochReply(e)
    ensures Chan(r, MarkCommitted(s, now).0, q + Seal(s, CommitMsg(e)))
  {
    CommitQueued(s, q, e);
    if MarkCommitted(s, now).0 != s {
      MarkedIsBuilt(s, e, now);
      ChanMarked(r, s, q + Seal(s, CommitMsg(e)), e, now);
    }
  }

  lemma CommitQueued(s: Store, q: seq<Env>, e: Epoch)
    requires Valid(s)
    ensures CommitIn(q + Seal(s, CommitMsg(e)), e)
  {
    RecipientsShape(s);
    var q' := q + Seal(s, CommitMsg(e));
    assert q'[|q|].msg == CommitMsg(e);
  }

  /** The epoch whose commit was built is the one that marking commits. */
  lemma MarkedIsBuilt(s: Store, e: Epoch, now: int)
    requires Valid(s) && BuildCommit(s) == EpochReply(e) && MarkCommitted(s, now).0 != s
    ensures e in s.acking && s.acking[e].phase == Confirmed
  {
    assert IsLive(s.acking, Min(LiveIn(s.acking)));
  }

  // ---- Whole runs ----

  datatype Net = Net(a: Agent, b: Agent, ab: seq<Env>, ba: seq<Env>, heardA: set<Env>, heardB: set<Env>)

  ghost predicate NetInv(n: Net) {
    Inv(n.a, n.b) && Dir(n.a, n.b, n.ba, n.heardA) && Dir(n.b, n.a, n.ab, n.heardB)
  }

  ghost predicate NetAllowed(n: Net, st: Step) {
    if st.first then Orderly(n.a, n.b, n.ba, n.heardA, st.act) && AnswersOwn(n.a, st.act, st.now)
    else Orderly(n.b, n.a, n.ab, n.heardB, st.act) && AnswersOwn(n.b, st.act, st.now)
  }

  function NetNext(n: Net, st: Step): Net {
    if st.first then
      n.(a := Moved(n.a, st.act, st.now), ab := n.ab + Local(n.a.store, st.act, st.now).1,
         ba := Popped(n.ba, st.act), heardA := LogOf(n.heardA, st.act))
    else
      n.(b := Moved(n.b, st.act, st.now), ba := n.ba + Local(n.b.store, st.act, st.now).1,
         ab := Popped(n.ab, st.act), heardB := LogOf(n.heardB, st.act))
  }

  lemma NetStepKeepsInv(n: Net, st: Step)
    requires NetInv(n) && NetAllowed(n, st)
    ensures NetInv(NetNext(n, st))
  {
    if st.first {
      RotatorMoves(n.a, n.b, st.act, st.now);
      AckerMoves(n.b, n.a, st.act, st.now);
      ReceiverActs(n.a, n.b, n.ba, n.heardA, st.act, st.now);
      SenderActs(n.b, n.a, n.ab, n.heardB, st.act, st.now);
    } else {
      RotatorMoves(n.b, n.a, st.act, st.now);
      AckerMoves(n.a, n.b, st.act, st.now);
      ReceiverActs(n.b, n.a, n.ab, n.heardB, st.act, st.now);
      SenderActs(n.a, n.b, n.ba, n.heardA, st.act, st.now);
    }
  }

  ghost predicate NetRun(n: Net, run: seq<Step>)
    decreases |run|
  {
    run == [] || (NetAllowed(n, run[0]) && NetRun(NetNext(n, run[0]), run[1..]))
  }

  function NetAll(n: Net, run: seq<Step>): Net
    decreases |run|
  {
    if run == [] then n else NetAll(NetNext(n, run[0]), run[1..])
  }

  function NewNet(ka: Key, kb: Key): Net { Net(NewAgent(ka, kb), NewAgent(kb, ka), [], [], {}, {}) }

  lemma NewNetInv(ka: Key, kb: Key)
    ensures NetInv(NewNet(ka, kb))
  {
    PairedValid(ka, kb);
    PairedValid(kb, ka);
    assert IsActive(Paired(ka, kb), 1) && IsActive(Paired(kb, ka), 1);
  }

  lemma {:induction false} NetRunKeepsInv(n: Net, run: seq<Step>)
    requires NetInv(n) && NetRun(n, run)
    ensures NetInv(NetAll(n, run))
    decreases |run|
  {
    if run != [] {
      NetStepKeepsInv(n, run[0]);
      NetRunKeepsInv(NetNext(n, run[0]), run[1..]);
    }
  }

  /** Every envelope in flight is wrapped to a key the receiver holds right now. */
  ghost predicate Holds(r: Store, wraps: set<Key>) { exists e: Epoch :: OwnRow(r.keys, e) && r.keys[e].pub in wraps }

  /** Decryptability.  In every state of every in-order run, the next envelope in
      either direction opens with one of the two keys `_try_unseal` tries, and
      every envelope further back is wrapped to a key its receiver holds. */
  lemma Decryptability(ka: Key, kb: Key, run: seq<Step>)
    requires NetRun(NewNet(ka, kb), run)
    ensures var n := NetAll(NewNet(ka, kb), run);
            && (n.ba != [] ==> Opens(n.a.store, n.ba[0].wraps))
            && (n.ab != [] ==> Opens(n.b.store, n.ab[0].wraps))
            && (forall i | 0 <= i < |n.ba| :: Holds(n.a.store, n.ba[i].wraps))
            && (forall i | 0 <= i < |n.ab| :: Holds(n.b.store, n.ab[i].wraps))
  {
    NewNetInv(ka, kb);
    NetRunKeepsInv(NewNet(ka, kb), run);
    var n := NetAll(NewNet(ka, kb), run);
    if n.ba != [] { Openable(n.a.store, n.b.store, n.ba); }
    if n.ab != [] { Openable(n.b.store, n.a.store, n.ab); }
    forall i | 0 <= i < |n.ba| ensures Holds(n.a.store, n.ba[i].wraps) { InFlightHeld(n.a.store, n.b.store, n.ba, i); }
    forall i | 0 <= i < |n.ab| ensures Holds(n.b.store, n.ab[i].wraps) { InFlightHeld(n.b.store, n.a.store, n.ab, i); }
  }

  lemma InFlightHeld(r: Store, s: Store, q: seq<Env>, i: nat)
    requires Chan(r, s, q) && i < |q|
    ensures Holds(r, q[i].wraps)
  {
    assert WrapOk(r, q, i);
    if e: Epoch :| AckedRow(r, e) && CommitBefore(q, e, i) {
      LiveAhead(r, e);
    } else {
      assert OwnRow(r.keys, ActiveEpoch(r));
    }
  }
}
