// Key agreement over an arbitrary network: messages may be lost, reordered and
// delivered any number of times, and every action may crash half-way.

module RotationAgreement {
  import opened Base
  import opened RotationCore
  import opened RotationInvariant
  import opened RotationAgents

  /** The rotating side still holds `key` for `e` past the candidate phase, or a
      later rotation of its own has committed. */
  ghost predicate Held(s: Store, e: Epoch, key: Key) {
    || (OwnRow(s.keys, e) && s.keys[e].pub == key && !(e in s.rotating && s.rotating[e].phase == Candidate))
    || (exists e2: Epoch :: OwnRow(s.keys, e2) && e < e2 <= s.keyEpoch)
  }

  predicate Past(r: Row) { r.phase == Acknowledged || r.phase == Confirmed || r.phase == Committed }

  predicate Agreed(r: Row) { r.phase == Confirmed || r.phase == Committed }

  /** The prepare a row was begun with carries its key; a bound row names it. */
  ghost predicate RowBegun(x: Agent, e: Epoch, r: Row) {
    && e in x.begun && x.begun[e] in x.prepares && x.prepares[x.begun[e]].newKey == r.newKey
    && (r.prepareId.Some? ==> r.prepareId.value == x.begun[e])
  }

  ghost predicate RotatorOk(x: Agent) {
    && Valid(x.store)
    && (forall e | e in x.store.rotating :: RowBegun(x, e, x.store.rotating[e]))
    && (forall env | env in x.out && env.msg.PrepareMsg? ::
          env.msg.id in x.prepares && x.prepares[env.msg.id] == env.msg.p)
  }

  /** `acked` records one key per epoch and agrees with every table row. */
  ghost predicate AckerOk(x: Agent) {
    && (forall e: Epoch :: PeerRow(x.store.keys, e) ==> e in x.acked && x.acked[e] == x.store.keys[e].pub)
    && (forall e | e in x.store.acking :: e in x.acked && x.acked[e] == x.store.acking[e].newKey)
    && (forall e | e in x.acked :: e <= x.store.keyEpoch || IsLive(x.store.acking, e))
  }

  ghost predicate Link(r: Agent, s: Agent) {
    && (forall env | env in s.out && env.msg.AckMsg? :: AckHonest(r, s, env.msg.epoch, env.msg.prepareId))
    && (forall e | e in r.store.rotating && Past(r.store.rotating[e]) ::
          e in s.acked && s.acked[e] == r.store.rotating[e].newKey)
    && (forall env | env in r.out && env.msg.ConfirmMsg? :: ConfirmHonest(r, s, env.msg.confirmEpoch))
    && (forall e | e in s.store.acking && Agreed(s.store.acking[e]) :: Said(r, ConfirmMsg(e)))
  }

  ghost predicate AckHonest(r: Agent, s: Agent, e: Epoch, id: EventId) {
    e in s.acked && id in r.prepares && s.acked[e] == r.prepares[id].newKey
  }

  ghost predicate ConfirmHonest(r: Agent, s: Agent, e: Epoch) {
    e in s.acked && Held(r.store, e, s.acked[e])
  }

  ghost predicate Said(x: Agent, m: Msg) { exists env :: env in x.out && env.msg == m }

  ghost predicate Half(r: Agent, s: Agent) { RotatorOk(r) && AckerOk(s) && Link(r, s) }

  ghost predicate Inv(a: Agent, b: Agent) { Half(a, b) && Half(b, a) }

  // ---- What an action can do to the rotating half of its own tables ----

  /** Rows keep their key and binding; a row passes the candidate phase only if
      it already had, or it is `promoted`; held keys stay held. */
  ghost predicate RotatingMoves(s: Store, t: Store, promoted: Option<Epoch>) {
    && (forall e | e in t.rotating ::
          && e in s.rotating && t.rotating[e].newKey == s.rotating[e].newKey
          && t.rotating[e].prepareId == s.rotating[e].prepareId
          && (Past(t.rotating[e]) ==> Past(s.rotating[e]) || promoted == Some(e)))
    && HeldStays(s, t)
  }

  ghost predicate HeldStays(s: Store, t: Store) {
    forall e: Epoch, key: Key :: Held(s, e, key) ==> Held(t, e, key)
  }

  lemma HeldStaysBy(s: Store, t: Store)
    requires s.keyEpoch <= t.keyEpoch
    requires forall e: Epoch :: OwnRow(s.keys, e) ==> OwnRow(t.keys, e) && t.keys[e] == s.keys[e]
    requires forall e | e in t.rotating && t.rotating[e].phase == Candidate && OwnRow(s.keys, e) ::
               e in s.rotating && s.rotating[e].phase == Candidate
    ensures HeldStays(s, t)
  {
    forall e: Epoch, key: Key | Held(s, e, key) ensures Held(t, e, key) {
      if exists e2: Epoch :: OwnRow(s.keys, e2) && e < e2 <= s.keyEpoch {
        var e2: Epoch :| OwnRow(s.keys, e2) && e < e2 <= s.keyEpoch;
        assert OwnRow(t.keys, e2);
      }
    }
  }

  lemma AckMoves(s: Store, e: Epoch, id: EventId, now: int)
    requires Valid(s)
    ensures RotatingMoves(s, OnAck(s, e, id, now).0, if OnAck(s, e, id, now).1.Done? then Some(e) else None)
  {
    AckRows(s, e, id, now);
    HeldStaysBy(s, OnAck(s, e, id, now).0);
  }

  /** An ack touches no key row and moves at most its own row past the candidate phase. */
  lemma AckRows(s: Store, e: Epoch, id: EventId, now: int)
    ensures var t := OnAck(s, e, id, now);
            && t.0.keys == s.keys && t.0.keyEpoch == s.keyEpoch
            && forall d | d in t.0.rotating ::
                 && d in s.rotating && t.0.rotating[d].newKey == s.rotating[d].newKey && t.0.rotating[d].prepareId == s.rotating[d].prepareId
                 && (t.0.rotating[d].phase == s.rotating[d].phase || (d == e && t.1.Done? && t.0.rotating[d].phase == Acknowledged))
  {
  }

  lemma RestMoves(s: Store, act: Act, now: int)
    requires Valid(s) && !act.Rotate?
    requires act.Hear? || act.Rehook? ==> !act.env.msg.AckMsg?
    ensures RotatingMoves(s, Local(s, act, now).0, None)
  {
    var t := Local(s, act, now).0;
    match act
    case Hear(env, reply) => if Accepts(s, env) { HookMoves(s, env, reply, now); } else { HeldStaysBy(s, s); }
    case Rehook(env, reply) => HookMoves(s, env, reply, now);
    case Take(env) => HeldStaysBy(s, s);
    case SendConfirm(marked) => HeldStaysBy(s, t);
    case SendCommit(marked) => MarkCommittedKeepsValid(s, now); HeldStaysBy(s, t);
    case Maintain(order, stopped) => SweepMoves(s, order, stopped, now);
    case Say => HeldStaysBy(s, s);
  }

  lemma HookMoves(s: Store, env: Env, reply: bool, now: int)
    requires Valid(s) && !env.msg.AckMsg?
    ensures RotatingMoves(s, Hook(s, env, reply, now).0, None)
  {
    match env.msg
    case PrepareMsg(id, p) => PrepareMoves(s, p, id, now);
    case ConfirmMsg(e) => HeldStaysBy(s, OnConfirm(s, e).0);
    case CommitMsg(e) => CommitMoves(s, e, now);
    case DataMsg => NotesMove(s, env.stamp, now);
  }

  lemma PrepareMoves(s: Store, p: Prepare, id: EventId, now: int)
    requires Valid(s)
    ensures RotatingMoves(s, OnPrepare(s, p, id, now).0, None)
  {
    var t := OnPrepare(s, p, id, now).0;
    if t != s { FreshPrepareShape(s, p, id, now); }
    HeldStaysBy(s, t);
  }

  lemma CommitMoves(s: Store, e: Epoch, now: int)
    requires Valid(s)
    ensures RotatingMoves(s, OnCommit(s, e, now).0, None)
  {
    OnCommitKeepsValid(s, e, now);
    HeldStaysBy(s, OnCommit(s, e, now).0);
  }

  lemma NotesMove(s: Store, e: Epoch, now: int)
    requires Valid(s)
    ensures RotatingMoves(s, NoteAcceptedEvent(NoteDecryptedNewWrap(s, e, now)), None)
  {
    NoteMoves(s, e, now);
    CountMoves(NoteDecryptedNewWrap(s, e, now));
  }

  lemma NoteMoves(s: Store, e: Epoch, now: int)
    ensures RotatingMoves(s, NoteDecryptedNewWrap(s, e, now), None)
  {
    HeldStaysBy(s, NoteDecryptedNewWrap(s, e, now));
  }

  lemma CountMoves(s: Store)
    ensures RotatingMoves(s, NoteAcceptedEvent(s), None)
  {
    HeldStaysBy(s, NoteAcceptedEvent(s));
  }

  lemma SweepMoves(s: Store, order: seq<Epoch>, stopped: bool, now: int)
    requires Valid(s)
    ensures RotatingMoves(s, Sweep(s, order, stopped, now), None)
  {
    CompactKeepsValid(s, now);
    var s1 := Compact(s, now);
    HeldStaysBy(s, s1);
    if stopped {
    } else if TimedOut(s1, now) != {} {
      DiscardMoves(s1, Min(TimedOut(s1, now)));
    } else {
      RetireAllMoves(s1, order, now);
    }
  }

  lemma DiscardMoves(s: Store, e: Epoch)
    requires Valid(s) && e in s.rotating && s.rotating[e].phase == Candidate
    ensures RotatingMoves(s, DiscardRotating(s, e), None)
  {
    var t := DiscardRotating(s, e);
    assert IsLive(s.rotating, e) && RotatingRowOk(s, e, s.rotating[e]);
    forall d: Epoch, key: Key | Held(s, d, key) ensures Held(t, d, key) {
      if exists e2: Epoch :: OwnRow(s.keys, e2) && d < e2 <= s.keyEpoch {
        var e2: Epoch :| OwnRow(s.keys, e2) && d < e2 <= s.keyEpoch;
        assert OwnRow(t.keys, e2);
      }
    }
  }

  lemma RetireOneMoves(s: Store, e: Epoch, now: int)
    requires Valid(s)
    ensures RotatingMoves(s, RetireOne(s, e, now), None)
  {
    var t := RetireOne(s, e, now);
    if t == s {
      HeldStaysBy(s, s);
    } else {
      assert OwnRow(t.keys, e) && e <= t.keyEpoch;
      forall d: Epoch, key: Key | Held(s, d, key) ensures Held(t, d, key) {
        if exists e2: Epoch :: OwnRow(s.keys, e2) && d < e2 <= s.keyEpoch {
          var e2: Epoch :| OwnRow(s.keys, e2) && d < e2 <= s.keyEpoch;
          assert OwnRow(t.keys, e2) || e2 == s.rotating[e].prior;
        }
      }
    }
  }

  lemma {:induction false} RetireAllMoves(s: Store, order: seq<Epoch>, now: int)
    requires Valid(s)
    ensures RotatingMoves(s, RetireAll(s, order, now), None)
    decreases |order|
  {
    if order != [] {
      RetireOneMoves(s, order[0], now);
      RetireOneKeepsValid(s, order[0], now);
      RetireAllMoves(RetireOne(s, order[0], now), order[1..], now);
    } else {
      HeldStaysBy(s, s);
    }
  }

  // ---- What an action can do to the acking half ----

  /** Peer rows and acking rows are kept, dropped when finished, or `taken` up;
      a row is agreed only if it was or its confirm is heard. */
  ghost predicate AckingMoves(s: Store, t: Store, heard: Option<Epoch>) {
    && s.keyEpoch <= t.keyEpoch
    && (forall e: Epoch :: PeerRow(t.keys, e) ==> PeerRow(s.keys, e) && t.keys[e] == s.keys[e])
    && (forall e | e in t.acking ::
          e in s.acking && t.acking[e].newKey == s.acking[e].newKey && t.acking[e].prepareId == s.acking[e].prepareId
          && (Agreed(t.acking[e]) ==> Agreed(s.acking[e]) || heard == Some(e)))
    && (forall e: Epoch :: IsLive(s.acking, e) ==> IsLive(t.acking, e) || e <= t.keyEpoch)
  }

  lemma {:induction false} RetireAllAcking(s: Store, order: seq<Epoch>, now: int)
    requires Valid(s)
    ensures AckingMoves(s, RetireAll(s, order, now), None)
    ensures RetireAll(s, order, now).acking == s.acking
    decreases |order|
  {
    if order != [] {
      var s1 := RetireOne(s, order[0], now);
      RetireOneKeepsValid(s, order[0], now);
      RetireAllAcking(s1, order[1..], now);
      assert AckingMoves(s, s1, None);
    }
  }

  lemma SweepAcking(s: Store, order: seq<Epoch>, stopped: bool, now: int)
    requires Valid(s)
    ensures AckingMoves(s, Sweep(s, order, stopped, now), None)
  {
    CompactKeepsValid(s, now);
    var s1 := Compact(s, now);
    assert AckingMoves(s, s1, None);
    if stopped {
    } else if TimedOut(s1, now) != {} {
      assert AckingMoves(s1, DiscardRotating(s1, Min(TimedOut(s1, now))), None);
    } else {
      RetireAllAcking(s1, order, now);
    }
  }

  /** The epoch whose confirm this action hears, if any. */
  function HeardConfirm(act: Act): Option<Epoch> {
    if (act.Hear? || act.Rehook?) && act.env.msg.ConfirmMsg? then Some(act.env.msg.confirmEpoch) else None
  }

  lemma AckingRest(s: Store, act: Act, now: int)
    requires Valid(s)
    requires act.Hear? || act.Rehook? ==> !act.env.msg.PrepareMsg?
    ensures AckingMoves(s, Local(s, act, now).0, HeardConfirm(act))
  {
    var t := Local(s, act, now).0;
    match act
    case Rotate(key, id, bound, sent) =>
      BeginKeepsValid(s, key, if bound then Some(id) else None, now);
    case Hear(env, reply) => HookAcking(s, env, reply, now);
    case Rehook(env, reply) => HookAcking(s, env, reply, now);
    case Take(env) =>
    case SendConfirm(marked) =>
    case SendCommit(marked) => MarkCommittedAcking(s, now);
    case Maintain(order, stopped) => SweepAcking(s, order, stopped, now);
    case Say =>
  }

  lemma MarkCommittedAcking(s: Store, now: int)
    requires Valid(s)
    ensures AckingMoves(s, MarkCommitted(s, now).0, None)
  {
    MarkCommittedKeepsValid(s, now);
  }

  lemma HookAcking(s: Store, env: Env, reply: bool, now: int)
    requires Valid(s) && !env.msg.PrepareMsg?
    ensures AckingMoves(s, Hook(s, env, reply, now).0, if env.msg.ConfirmMsg? then Some(env.msg.confirmEpoch) else None)
  {
    match env.msg
    case AckMsg(e, id) => assert AckingMoves(s, OnAck(s, e, id, now).0, None);
    case ConfirmMsg(e) => ConfirmAcking(s, e);
    case CommitMsg(e) =>
      OnCommitKeepsValid(s, e, now);
      assert AckingMoves(s, OnCommit(s, e, now).0, None);
    case DataMsg => assert AckingMoves(s, NoteAcceptedEvent(NoteDecryptedNewWrap(s, env.stamp, now)), None);
  }

  lemma ConfirmAcking(s: Store, e: Epoch)
    requires Valid(s)
    ensures AckingMoves(s, OnConfirm(s, e).0, Some(e))
  {
    var t := OnConfirm(s, e).0;
    assert forall d: Epoch :: IsLive(s.acking, d) ==> IsLive(t.acking, d);
  }

  // ---- What an action sends ----

  lemma SentBy(x: Agent, act: Act, now: int, env: Env)
    requires env in Moved(x, act, now).out && env !in x.out
    ensures env in Local(x.store, act, now).1
    ensures env.msg.PrepareMsg? ==> act.Rotate? && env.msg.id == act.id && env.msg.id in Moved(x, act, now).prepares && Moved(x, act, now).prepares[act.id] == env.msg.p
    ensures env.msg.ConfirmMsg? ==> act.SendConfirm? && BuildConfirm(x.store) == EpochReply(env.msg.confirmEpoch)
    ensures env.msg.AckMsg? ==> (act.Hear? || act.Rehook?) && act.env.msg.PrepareMsg? && env.msg.prepareId == act.env.msg.id
    ensures env.msg.AckMsg? ==> OnPrepare(x.store, act.env.msg.p, act.env.msg.id, now).1 == AckFor(env.msg.epoch)
    ensures env.msg.CommitMsg? ==> act.SendCommit? && BuildCommit(x.store) == EpochReply(env.msg.commitEpoch)
  {
  }

  // ---- Preservation: the rotating side moves ----

  lemma RotatorMoves(r: Agent, s: Agent, act: Act, now: int)
    requires Half(r, s) && Allowed(r, s, act) && AnswersOwn(r, act, now)
    ensures Half(Moved(r, act, now), s)
  {
    var r' := Moved(r, act, now);
    MovedValid(r.store, act, now);
    if act.Rotate? {
      BeganRotator(r, s, act, now);
    } else if (act.Hear? || act.Rehook?) && act.env.msg.AckMsg? {
      AckMoves(r.store, act.env.msg.epoch, act.env.msg.prepareId, now);
      AckPromotes(r, s, act, now);
    } else {
      RestMoves(r.store, act, now);
      KeptRotator(r, s, act, now, None);
    }
  }

  lemma MovedValid(s: Store, act: Act, now: int)
    requires Valid(s)
    ensures Valid(Local(s, act, now).0)
    ensures s.keyEpoch <= Local(s, act, now).0.keyEpoch
  {
    match act
    case Rotate(key, id, bound, sent) => BeginKeepsValid(s, key, if bound then Some(id) else None, now);
    case Hear(env, reply) => HookValid(s, env, reply, now);
    case Rehook(env, reply) => HookValid(s, env, reply, now);
    case Take(env) =>
    case SendConfirm(marked) => MarkConfirmedKeepsValid(s);
    case SendCommit(marked) => MarkCommittedKeepsValid(s, now);
    case Maintain(order, stopped) => SweepKeepsValid(s, order, stopped, now);
    case Say =>
  }

  lemma HookValid(s: Store, env: Env, reply: bool, now: int)
    requires Valid(s)
    ensures Valid(Hook(s, env, reply, now).0)
    ensures s.keyEpoch <= Hook(s, env, reply, now).0.keyEpoch
  {
    match env.msg
    case PrepareMsg(id, p) => OnPrepareKeepsValid(s, p, id, now);
    case AckMsg(e, id) => OnAckKeepsValid(s, e, id, now);
    case ConfirmMsg(e) => OnConfirmKeepsValid(s, e);
    case CommitMsg(e) => OnCommitKeepsValid(s, e, now);
    case DataMsg =>
      NotesKeepValid(s, env.stamp, now);
      CountKeepsValid(NoteDecryptedNewWrap(s, env.stamp, now));
  }

  /** The rotating half after rows moved as `RotatingMoves` says. */
  lemma KeptRotator(r: Agent, s: Agent, act: Act, now: int, promoted: Option<Epoch>)
    requires Half(r, s) && !act.Rotate? && Valid(Moved(r, act, now).store)
    requires RotatingMoves(r.store, Moved(r, act, now).store, promoted)
    requires promoted.Some? && promoted.value in r.store.rotating ==>
               promoted.value in s.acked && s.acked[promoted.value] == r.store.rotating[promoted.value].newKey
    ensures Half(Moved(r, act, now), s)
  {
    var r' := Moved(r, act, now);
    forall env | env in r'.out && env.msg.ConfirmMsg? ensures ConfirmHonest(r', s, env.msg.confirmEpoch) {
      var e := env.msg.confirmEpoch;
      if env !in r.out {
        SentBy(r, act, now, env);
        assert IsLive(r.store.rotating, e) by { assert e in LiveIn(r.store.rotating); }
        assert RotatingRowOk(r.store, e, r.store.rotating[e]);
        assert Held(r.store, e, s.acked[e]);
      } else {
        assert ConfirmHonest(r, s, e);
      }
    }
    forall env | env in r'.out && env.msg.PrepareMsg?
      ensures env.msg.id in r'.prepares && r'.prepares[env.msg.id] == env.msg.p
    {
      if env !in r.out { SentBy(r, act, now, env); }
    }
    forall env | env in s.out && env.msg.AckMsg? ensures AckHonest(r', s, env.msg.epoch, env.msg.prepareId) {
      assert AckHonest(r, s, env.msg.epoch, env.msg.prepareId);
    }
    forall e | e in s.store.acking && Agreed(s.store.acking[e]) ensures Said(r', ConfirmMsg(e)) {
      assert Said(r, ConfirmMsg(e));
      var env :| env in r.out && env.msg == ConfirmMsg(e);
      assert env in r'.out;
    }
  }

  /** A candidate moves on only with an ack of its own prepare, so it is acknowledged
      only for the key the peer stored. */
  lemma AckPromotes(r: Agent, s: Agent, act: Act, now: int)
    requires Half(r, s) && Allowed(r, s, act) && AnswersOwn(r, act, now) && Valid(Moved(r, act, now).store)
    requires (act.Hear? || act.Rehook?) && act.env.msg.AckMsg?
    requires var m := act.env.msg; RotatingMoves(r.store, OnAck(r.store, m.epoch, m.prepareId, now).0,
                                                 if OnAck(r.store, m.epoch, m.prepareId, now).1.Done? then Some(m.epoch) else None)
    ensures Half(Moved(r, act, now), s)
  {
    var m := act.env.msg;
    assert AckHonest(r, s, m.epoch, m.prepareId);
    var applied := act.Rehook? || Accepts(r.store, act.env);
    if applied {
      var promoted := if OnAck(r.store, m.epoch, m.prepareId, now).1.Done? then Some(m.epoch) else None;
      assert promoted.Some? ==> RowBegun(r, m.epoch, r.store.rotating[m.epoch]);
      KeptRotator(r, s, act, now, promoted);
    } else {
      HeldStaysBy(r.store, r.store);
      KeptRotator(r, s, act, now, None);
    }
  }

  lemma BeganRotator(r: Agent, s: Agent, act: Act, now: int)
    requires Half(r, s) && Allowed(r, s, act) && act.Rotate? && Valid(Moved(r, act, now).store)
    ensures Half(Moved(r, act, now), s)
  {
    var r' := Moved(r, act, now);
    BeginRows(r.store, act.key, if act.bound then Some(act.id) else None, now);
    BeganMessages(r, s, act, now);
    forall e | e in r'.store.rotating ensures RowBegun(r', e, r'.store.rotating[e]) {
      if e in r.store.rotating && r'.store.rotating[e] == r.store.rotating[e] { assert RowBegun(r, e, r.store.rotating[e]); }
    }
    forall e | e in r'.store.rotating && Past(r'.store.rotating[e])
      ensures e in s.acked && s.acked[e] == r'.store.rotating[e].newKey
    {
      assert e in r.store.rotating && r.store.rotating[e] == r'.store.rotating[e];
    }
  }

  /** Beginning adds one candidate row and loses nothing. */
  lemma BeginRows(s: Store, key: Key, id: Option<EventId>, now: int)
    requires Valid(s)
    ensures var t := Begin(s, key, id, now);
            && HeldStays(s, t.0)
            && (t.1.Prepared? ==> t.1.prepare.newKey == key)
            && (forall e | e in t.0.rotating ::
                  || (e in s.rotating && t.0.rotating[e] == s.rotating[e] && (t.1.Prepared? ==> e != t.1.epoch))
                  || (t.1.Prepared? && e == t.1.epoch && t.0.rotating[e].phase == Candidate && t.0.rotating[e].prepareId == id && t.0.rotating[e].newKey == key))
  {
    BeginKeepsValid(s, key, id, now);
    if !InFlight(s) { assert BeginShape(s, key, id, now); }
    HeldStaysBy(s, Begin(s, key, id, now).0);
  }

  lemma BeganMessages(r: Agent, s: Agent, act: Act, now: int)
    requires Half(r, s) && Allowed(r, s, act) && act.Rotate?
    requires HeldStays(r.store, Moved(r, act, now).store)
    ensures var r' := Moved(r, act, now);
            && (forall env | env in r'.out && env.msg.ConfirmMsg? :: ConfirmHonest(r', s, env.msg.confirmEpoch))
            && (forall env | env in r'.out && env.msg.PrepareMsg? ::
                  env.msg.id in r'.prepares && r'.prepares[env.msg.id] == env.msg.p)
            && (forall env | env in s.out && env.msg.AckMsg? :: AckHonest(r', s, env.msg.epoch, env.msg.prepareId))
            && (forall e | e in s.store.acking && Agreed(s.store.acking[e]) :: Said(r', ConfirmMsg(e)))
  {
    var r' := Moved(r, act, now);
    forall env | env in r'.out && env.msg.ConfirmMsg? ensures ConfirmHonest(r', s, env.msg.confirmEpoch) {
      if env !in r.out { SentBy(r, act, now, env); }
      assert ConfirmHonest(r, s, env.msg.confirmEpoch);
    }
    forall env | env in r'.out && env.msg.PrepareMsg?
      ensures env.msg.id in r'.prepares && r'.prepares[env.msg.id] == env.msg.p
    {
      if env !in r.out { SentBy(r, act, now, env); }
    }
    forall env | env in s.out && env.msg.AckMsg? ensures AckHonest(r', s, env.msg.epoch, env.msg.prepareId) {
      assert AckHonest(r, s, env.msg.epoch, env.msg.prepareId);
    }
    forall e | e in s.store.acking && Agreed(s.store.acking[e]) ensures Said(r', ConfirmMsg(e)) {
      assert Said(r, ConfirmMsg(e));
      var env :| env in r.out && env.msg == ConfirmMsg(e);
      assert env in r'.out;
    }
  }

  // ---- Preservation: the acking side moves ----

  lemma AckerMoves(r: Agent, s: Agent, act: Act, now: int)
    requires Half(r, s) && Valid(s.store) && Allowed(s, r, act)
    ensures Half(r, Moved(s, act, now))
  {
    MovedValid(s.store, act, now);
    if (act.Hear? || act.Rehook?) && act.env.msg.PrepareMsg? {
      PrepareAcker(r, s, act, now);
    } else {
      AckingRest(s.store, act, now);
      KeptAcker(r, s, act, now);
    }
  }

  lemma AckedGrows(s: Agent, act: Act, now: int)
    ensures forall e | e in s.acked :: e in Moved(s, act, now).acked && Moved(s, act, now).acked[e] == s.acked[e]
  {
  }

  lemma LinkRotatorPart(r: Agent, s: Agent, act: Act, now: int)
    requires Half(r, s)
    ensures var s' := Moved(s, act, now);
            && (forall e | e in r.store.rotating && Past(r.store.rotating[e]) :: e in s'.acked && s'.acked[e] == r.store.rotating[e].newKey)
            && (forall env | env in r.out && env.msg.ConfirmMsg? :: ConfirmHonest(r, s', env.msg.confirmEpoch))
  {
    AckedGrows(s, act, now);
    var s' := Moved(s, act, now);
    forall env | env in r.out && env.msg.ConfirmMsg? ensures ConfirmHonest(r, s', env.msg.confirmEpoch) {
      assert ConfirmHonest(r, s, env.msg.confirmEpoch);
    }
  }

  lemma KeptAcker(r: Agent, s: Agent, act: Act, now: int)
    requires Half(r, s) && Valid(s.store) && Allowed(s, r, act)
    requires act.Hear? || act.Rehook? ==> !act.env.msg.PrepareMsg?
    requires AckingMoves(s.store, Local(s.store, act, now).0, HeardConfirm(act))
    ensures Half(r, Moved(s, act, now))
  {
    var s' := Moved(s, act, now);
    LinkRotatorPart(r, s, act, now);
    AckedGrows(s, act, now);
    forall e | e in s'.store.acking && Agreed(s'.store.acking[e]) ensures Said(r, ConfirmMsg(e)) {
      if HeardConfirm(act) == Some(e) {
        assert act.env in r.out;
      } else {
        assert e in s.store.acking && Agreed(s.store.acking[e]);
      }
    }
    forall env | env in s'.out && env.msg.AckMsg? ensures AckHonest(r, s', env.msg.epoch, env.msg.prepareId) {
      if env !in s.out { SentBy(s, act, now, env); }
      assert AckHonest(r, s, env.msg.epoch, env.msg.prepareId);
    }
    assert AckerOk(s');
  }

  lemma PrepareAcker(r: Agent, s: Agent, act: Act, now: int)
    requires Half(r, s) && Valid(s.store) && Allowed(s, r, act)
    requires (act.Hear? || act.Rehook?) && act.env.msg.PrepareMsg?
    ensures Half(r, Moved(s, act, now))
  {
    LinkRotatorPart(r, s, act, now);
    PrepareStore(s, act, now);
    PrepareAckerOk(s, act, now);
    PrepareReplies(r, s, act, now);
  }

  lemma PrepareStore(s: Agent, act: Act, now: int)
    requires Valid(s.store) && (act.Hear? || act.Rehook?) && act.env.msg.PrepareMsg?
    ensures var t := Moved(s, act, now).store;
            && (forall e | e in t.acking && Agreed(t.acking[e]) :: e in s.store.acking && Agreed(s.store.acking[e]))
            && (t != s.store ==>
                  && !InFlight(s.store) && s.store.keyEpoch + 1 !in s.store.keys
                  && t == TakenUp(s.store, act.env.msg.p, act.env.msg.id))
  {
    PrepareEither(s.store, act.env.msg.p, act.env.msg.id, now);
    assert Moved(s, act, now).store == s.store || Moved(s, act, now).store == OnPrepare(s.store, act.env.msg.p, act.env.msg.id, now).0;
  }

  lemma PrepareEither(s: Store, p: Prepare, id: EventId, now: int)
    requires Valid(s)
    ensures OnPrepare(s, p, id, now).0 == s
            || (!InFlight(s) && s.keyEpoch + 1 !in s.keys && OnPrepare(s, p, id, now).0 == TakenUp(s, p, id))
  {
    if OnPrepare(s, p, id, now).0 != s { FreshPrepareShape(s, p, id, now); }
  }

  lemma PrepareReplies(r: Agent, s: Agent, act: Act, now: int)
    requires Half(r, s) && Valid(s.store) && Allowed(s, r, act) && AckerOk(Moved(s, act, now))
    requires (act.Hear? || act.Rehook?) && act.env.msg.PrepareMsg?
    ensures forall env | env in Moved(s, act, now).out && env.msg.AckMsg? ::
              AckHonest(r, Moved(s, act, now), env.msg.epoch, env.msg.prepareId)
  {
    var s' := Moved(s, act, now);
    AckedGrows(s, act, now);
    forall env | env in s'.out && env.msg.AckMsg? ensures AckHonest(r, s', env.msg.epoch, env.msg.prepareId) {
      if env in s.out {
        assert AckHonest(r, s, env.msg.epoch, env.msg.prepareId);
      } else {
        SentBy(s, act, now, env);
        AckMeansStored(s.store, act.env.msg.p, act.env.msg.id, now);
        assert PeerRow(s'.store.keys, env.msg.epoch);
      }
    }
  }

  lemma PrepareAckerOk(s: Agent, act: Act, now: int)
    requires AckerOk(s) && Valid(s.store) && (act.Hear? || act.Rehook?) && act.env.msg.PrepareMsg?
    requires Moved(s, act, now).store != s.store ==>
               && !InFlight(s.store) && s.store.keyEpoch + 1 !in s.store.keys
               && Moved(s, act, now).store == TakenUp(s.store, act.env.msg.p, act.env.msg.id)
    ensures AckerOk(Moved(s, act, now))
  {
    var s' := Moved(s, act, now);
    var p, id := act.env.msg.p, act.env.msg.id;
    if s'.store != s.store {
      TakenUpAcks(s, act, now);
      TakenUpAcked(s, s', p, id);
    } else {
      NothingNewAcked(s, act, now);
    }
  }

  /** An ack that changed no table is for an epoch already acknowledged. */
  lemma NothingNewAcked(s: Agent, act: Act, now: int)
    requires AckerOk(s) && Valid(s.store) && (act.Hear? || act.Rehook?) && act.env.msg.PrepareMsg?
    requires Moved(s, act, now).store == s.store
    ensures Moved(s, act, now).acked == s.acked
  {
    var p, id := act.env.msg.p, act.env.msg.id;
    if (act.Rehook? || Accepts(s.store, act.env)) && OnPrepare(s.store, p, id, now).1.AckFor? {
      AckMeansStored(s.store, p, id, now);
      assert PeerRow(s.store.keys, OnPrepare(s.store, p, id, now).1.ackEpoch);
    }
  }

  lemma TakenUpAcks(s: Agent, act: Act, now: int)
    requires Valid(s.store) && (act.Hear? || act.Rehook?) && act.env.msg.PrepareMsg?
    requires Moved(s, act, now).store != s.store
    ensures Moved(s, act, now).acked ==
              var e := s.store.keyEpoch + 1;
              if e !in s.acked then s.acked[e := act.env.msg.p.newKey] else s.acked
  {
    FreshPrepareShape(s.store, act.env.msg.p, act.env.msg.id, now);
  }

  lemma TakenUpAcked(s: Agent, s': Agent, p: Prepare, id: EventId)
    requires AckerOk(s) && Valid(s.store) && !InFlight(s.store) && s.store.keyEpoch + 1 !in s.store.keys
    requires s'.store == TakenUp(s.store, p, id)
    requires s'.acked == if s.store.keyEpoch + 1 !in s.acked then s.acked[s.store.keyEpoch + 1 := p.newKey] else s.acked
    ensures AckerOk(s')
  {
    var epoch := s.store.keyEpoch + 1;
    CurrentIsKeyEpoch(s.store);
    assert epoch !in s.acked;
    assert forall d: Epoch :: PeerRow(s'.store.keys, d) ==> d == epoch || PeerRow(s.store.keys, d);
    assert IsLive(s'.store.acking, epoch);
  }

  /** An ack is sent only for a prepare whose key is the stored peer key of that epoch. */
  lemma AckMeansStored(s: Store, p: Prepare, id: EventId, now: int)
    requires Valid(s) && OnPrepare(s, p, id, now).1.AckFor?
    ensures var r := OnPrepare(s, p, id, now); PeerRow(r.0.keys, r.1.ackEpoch) && r.0.keys[r.1.ackEpoch].pub == p.newKey
  {
    var prior := FindPrior(s, p.prior).value;
    if PeerRow(s.keys, prior + 1) {
      RedeliveryNeverReopens(s, prior + 1, prior, p, id);
    } else if OnPrepare(s, p, id, now).0 != s {
      FreshPrepareShape(s, p, id, now);
    }
  }

  // ---- Whole runs ----

  datatype Step = Step(first: bool, act: Act, now: int)

  ghost predicate StepAllowed(a: Agent, b: Agent, st: Step) {
    if st.first then Allowed(a, b, st.act) else Allowed(b, a, st.act)
  }

  predicate StepAnswers(a: Agent, b: Agent, st: Step) { AnswersOwn(if st.first then a else b, st.act, st.now) }

  /** Whenever a side takes an ack for a candidate, it is an ack of that candidate's
      own prepare.  `OnAck` sees to it for rows that carry their event id. */
  predicate AcksAnswer(a: Agent, b: Agent, run: seq<Step>)
    decreases |run|
  {
    run == [] || (StepAnswers(a, b, run[0]) && AcksAnswer(After(a, b, run[0]).0, After(a, b, run[0]).1, run[1..]))
  }

  predicate StepBound(st: Step) { st.act.Rotate? ==> st.act.bound }

  function After(a: Agent, b: Agent, st: Step): (Agent, Agent) {
    if st.first then (Moved(a, st.act, st.now), b) else (a, Moved(b, st.act, st.now))
  }

  ghost predicate LegalRun(a: Agent, b: Agent, run: seq<Step>)
    decreases |run|
  {
    run == [] || (StepAllowed(a, b, run[0]) && LegalRun(After(a, b, run[0]).0, After(a, b, run[0]).1, run[1..]))
  }

  function RunAll(a: Agent, b: Agent, run: seq<Step>): (Agent, Agent)
    decreases |run|
  {
    if run == [] then (a, b) else RunAll(After(a, b, run[0]).0, After(a, b, run[0]).1, run[1..])
  }

  function NewAgent(own: Key, peer: Key): Agent { Agent(Paired(own, peer), {}, map[], map[], map[]) }

  lemma {:induction false} RunKeepsInv(a: Agent, b: Agent, run: seq<Step>)
    requires Inv(a, b) && LegalRun(a, b, run) && AcksAnswer(a, b, run)
    ensures Inv(RunAll(a, b, run).0, RunAll(a, b, run).1)
    decreases |run|
  {
    if run != [] {
      var st := run[0];
      if st.first {
        RotatorMoves(a, b, st.act, st.now);
        AckerMoves(b, a, st.act, st.now);
      } else {
        RotatorMoves(b, a, st.act, st.now);
        AckerMoves(a, b, st.act, st.now);
      }
      RunKeepsInv(After(a, b, st).0, After(a, b, st).1, run[1..]);
    }
  }

  // ---- Rows that carry their event id ----

  ghost predicate RowsBound(s: Store) { forall e | e in s.rotating :: s.rotating[e].prepareId.Some? }

  lemma BoundStep(x: Agent, y: Agent, act: Act, now: int)
    requires Half(x, y) && RowsBound(x.store) && (act.Rotate? ==> act.bound)
    ensures AnswersOwn(x, act, now) && RowsBound(Moved(x, act, now).store)
  {
    if act.Rotate? {
      BeginRows(x.store, act.key, Some(act.id), now);
    } else if (act.Hear? || act.Rehook?) && act.env.msg.AckMsg? {
      var m := act.env.msg;
      if Promotes(x, act, now) { assert RowBegun(x, m.epoch, x.store.rotating[m.epoch]); }
      AckRows(x.store, m.epoch, m.prepareId, now);
    } else {
      RestMoves(x.store, act, now);
    }
  }

  /** When every prepare is begun with its event id, every ack that is taken answers
      the candidate's own prepare. */
  lemma {:induction false} BoundRunAnswers(a: Agent, b: Agent, run: seq<Step>)
    requires Inv(a, b) && RowsBound(a.store) && RowsBound(b.store)
    requires LegalRun(a, b, run) && forall st | st in run :: StepBound(st)
    ensures AcksAnswer(a, b, run)
    decreases |run|
  {
    if run != [] {
      var st := run[0];
      assert StepBound(st);
      if st.first {
        BoundStep(a, b, st.act, st.now);
        RotatorMoves(a, b, st.act, st.now);
        AckerMoves(b, a, st.act, st.now);
      } else {
        BoundStep(b, a, st.act, st.now);
        RotatorMoves(b, a, st.act, st.now);
        AckerMoves(a, b, st.act, st.now);
      }
      BoundRunAnswers(After(a, b, st).0, After(a, b, st).1, run[1..]);
    }
  }

  lemma BoundMeansAnswered(ka: Key, kb: Key, run: seq<Step>)
    requires LegalRun(NewAgent(ka, kb), NewAgent(kb, ka), run) && forall st | st in run :: StepBound(st)
    ensures AcksAnswer(NewAgent(ka, kb), NewAgent(kb, ka), run)
  {
    PairedValid(ka, kb);
    PairedValid(kb, ka);
    BoundRunAnswers(NewAgent(ka, kb), NewAgent(kb, ka), run);
  }

  /** Key agreement.  Whatever the network and the crashes did, as long as each ack a
      candidate takes answers that candidate's own prepare: whenever the acking
      side has a confirmed or committed row for `e`, the rotating side holds exactly
      that key at `e`, or has itself committed a later rotation. */
  lemma KeyAgreement(ka: Key, kb: Key, run: seq<Step>, e: Epoch)
    requires LegalRun(NewAgent(ka, kb), NewAgent(kb, ka), run) && AcksAnswer(NewAgent(ka, kb), NewAgent(kb, ka), run)
    ensures var (a, b) := RunAll(NewAgent(ka, kb), NewAgent(kb, ka), run);
            && (e in b.store.acking && Agreed(b.store.acking[e]) ==> Held(a.store, e, b.store.acking[e].newKey))
            && (e in a.store.acking && Agreed(a.store.acking[e]) ==> Held(b.store, e, a.store.acking[e].newKey))
  {
    PairedValid(ka, kb);
    PairedValid(kb, ka);
    RunKeepsInv(NewAgent(ka, kb), NewAgent(kb, ka), run);
    var (a, b) := RunAll(NewAgent(ka, kb), NewAgent(kb, ka), run);
    if e in b.store.acking && Agreed(b.store.acking[e]) { AgreementHolds(a, b, e); }
    if e in a.store.acking && Agreed(a.store.acking[e]) { AgreementHolds(b, a, e); }
  }

  lemma AgreementHolds(r: Agent, s: Agent, e: Epoch)
    requires Half(r, s) && e in s.store.acking && Agreed(s.store.acking[e])
    ensures Held(r.store, e, s.store.acking[e].newKey)
  {
    assert Said(r, ConfirmMsg(e));
    var env :| env in r.out && env.msg == ConfirmMsg(e);
    assert ConfirmHonest(r, s, env.msg.confirmEpoch);
  }
}
