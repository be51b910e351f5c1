// Each step of a rotation told by the rows themselves: when it happens, what it writes
// and what it leaves alone.  Times are given in seconds.

module RotationTold {
  import opened Base
  import opened RotationCore
  import opened RotationInvariant

  /** No rotation is under way, in either role. */
  ghost predicate Idle(s: Store) { forall e: Epoch :: !IsLive(s.rotating, e) && !IsLive(s.acking, e) }

  predicate InPhase(m: map<Epoch, Row>, e: Epoch, phase: Phase) { e in m && m[e].phase == phase }

  lemma IdleIff(s: Store)
    ensures Idle(s) <==> !InFlight(s)
  {
    if !InFlight(s) {
      forall e: Epoch ensures !IsLive(s.rotating, e) && !IsLive(s.acking, e) {
        assert e !in LiveIn(s.rotating) && e !in LiveIn(s.acking);
      }
    }
  }

  lemma TheLive(m: map<Epoch, Row>, e: Epoch)
    requires forall c: Epoch, d: Epoch :: IsLive(m, c) && IsLive(m, d) ==> c == d
    requires IsLive(m, e)
    ensures LiveIn(m) == {e} && Min(LiveIn(m)) == e
  {
    assert e in LiveIn(m);
    assert Min(LiveIn(m)) in LiveIn(m);
  }

  // ---- Rotating side ----

  /** What a new rotation writes: for the epoch after `key_epoch`, from the newest own
      key, to be acknowledged within a day. */
  ghost predicate Begun(s: Store, key: Key, prepareId: Option<EventId>, now: int, prior: Epoch, t: Store, reply: Reply) {
    var next := s.keyEpoch + 1;
    && OwnRow(s.keys, prior) && (forall x: Epoch :: OwnRow(s.keys, x) ==> x <= prior)
    && next !in s.keys
    && reply == Prepared(next, Prepare(key, s.keys[prior].pub, now + 86400))
    && t == s.(keys := s.keys[next := KeyRow(key, true)],
               rotating := s.rotating[next := Row(Candidate, prior, key, prepareId, now + 86400, None, false, 0)])
  }

  /** A rotation begins exactly when none is under way. */
  lemma BeginIff(s: Store, key: Key, prepareId: Option<EventId>, now: int) returns (prior: Epoch)
    requires Valid(s)
    ensures var (t, reply) := Begin(s, key, prepareId, now);
            if Idle(s) then Begun(s, key, prepareId, now, prior, t, reply) else t == s && reply == Refused(RotationInFlight)
  {
    IdleIff(s);
    prior := 0;
    if Idle(s) { prior := BeginsIdle(s, key, prepareId, now); }
  }

  lemma BeginsIdle(s: Store, key: Key, prepareId: Option<EventId>, now: int) returns (prior: Epoch)
    requires Valid(s) && !InFlight(s)
    ensures Begun(s, key, prepareId, now, prior, Begin(s, key, prepareId, now).0, Begin(s, key, prepareId, now).1)
  {
    BeginKeepsValid(s, key, prepareId, now);
    prior :| NewestOwn(s, prior) && Begin(s, key, prepareId, now) == BeginAt(s, prior, key, prepareId, now);
  }

  /** An ack is taken for a candidate up to its deadline, and again while acknowledged, if
      it names the row's own prepare or the row names none.  It takes up a parked wrap. */
  lemma AckIff(s: Store, e: Epoch, id: EventId, now: int)
    ensures var (t, reply) := OnAck(s, e, id, now);
            var bound := e in s.rotating && (s.rotating[e].prepareId == None || s.rotating[e].prepareId == Some(id));
            var taken := bound && (s.rotating[e].phase == Acknowledged || (s.rotating[e].phase == Candidate && now <= s.rotating[e].deadline));
            && reply == (if taken then Done else Refused(ConfirmRejected))
            && (!taken ==> t == s)
            && (taken ==>
                  && t.rotating == s.rotating[e := s.rotating[e].(phase := Acknowledged, wrapSeen := s.rotating[e].wrapSeen || e in s.parked)]
                  && t.parked == s.parked - {e}
                  && t == s.(rotating := t.rotating, parked := t.parked))
  {
    if e in s.rotating && s.rotating[e].phase == Acknowledged { assert s.rotating == s.rotating[e := s.rotating[e]]; }
    if e !in s.parked { assert s.parked - {e} == s.parked; }
  }

  /** A decrypted new wrap marks the live row, or is kept for it under the time it came. */
  lemma WrapNoted(s: Store, e: Epoch, now: int)
    ensures var t := NoteDecryptedNewWrap(s, e, now);
            if e in s.rotating && s.rotating[e].phase in {Candidate, Acknowledged, Confirmed}
            then t == s.(rotating := s.rotating[e := s.rotating[e].(wrapSeen := true)])
            else t == s.(parked := s.parked[e := now])
  {
  }

  /** Accepted events count for the rotation to the current epoch, once it is committed. */
  lemma EventCounted(s: Store)
    ensures var (t, e) := (NoteAcceptedEvent(s), s.keyEpoch);
            if InPhase(s.rotating, e, Committed)
            then t == s.(rotating := s.rotating[e := s.rotating[e].(accepted := s.rotating[e].accepted + 1)])
            else t == s
  {
  }

  /** A confirm is built for the acknowledged or confirmed rotation, and only when a wrap
      to its new key was decrypted. */
  lemma ConfirmBuiltIff(s: Store, e: Epoch)
    requires Valid(s)
    ensures BuildConfirm(s) == EpochReply(e)
            <==> e in s.rotating && (s.rotating[e].phase == Acknowledged || s.rotating[e].phase == Confirmed) && s.rotating[e].wrapSeen
    ensures e in s.rotating && (s.rotating[e].phase == Acknowledged || s.rotating[e].phase == Confirmed) && !s.rotating[e].wrapSeen
            ==> BuildConfirm(s) == Refused(NoNewWrapSeen)
    ensures (forall d: Epoch | d in s.rotating :: s.rotating[d].phase != Acknowledged && s.rotating[d].phase != Confirmed)
            ==> BuildConfirm(s) == Refused(NothingToConfirm)
  {
    if IsLive(s.rotating, e) { TheLive(s.rotating, e); }
    if LiveIn(s.rotating) != {} {
      var d := Min(LiveIn(s.rotating));
      assert d in LiveIn(s.rotating);
    }
  }

  /** Marking the confirm moves exactly the acknowledged rotation on, and may be repeated. */
  lemma ConfirmMarkedIff(s: Store, e: Epoch)
    requires Valid(s)
    ensures var (t, reply) := MarkConfirmed(s);
            && (InPhase(s.rotating, e, Acknowledged) ==> reply == Done && t == s.(rotating := s.rotating[e := s.rotating[e].(phase := Confirmed)]))
            && (InPhase(s.rotating, e, Confirmed) ==> reply == Done && t == s)
            && ((forall d: Epoch | d in s.rotating :: s.rotating[d].phase != Acknowledged && s.rotating[d].phase != Confirmed)
                ==> reply == Refused(NothingToConfirm) && t == s)
  {
    if IsLive(s.rotating, e) { TheLive(s.rotating, e); }
    if LiveIn(s.rotating) != {} { assert Min(LiveIn(s.rotating)) in LiveIn(s.rotating); }
  }

  /** A commit promotes a confirmed rotation together with `key_epoch`; it may be repeated. */
  lemma CommitIff(s: Store, e: Epoch, now: int)
    ensures var (t, reply) := OnCommit(s, e, now);
            && (InPhase(s.rotating, e, Confirmed) ==>
                  reply == Done && t == s.(rotating := s.rotating[e := s.rotating[e].(phase := Committed, committedAt := Some(now), accepted := 0)], keyEpoch := e))
            && (!InPhase(s.rotating, e, Confirmed) ==> t == s)
            && (reply == Done <==>
                  InPhase(s.rotating, e, Confirmed) || InPhase(s.rotating, e, Committed) || (e !in s.rotating && e == s.keyEpoch))
            && (reply != Done ==> reply == Refused(ConfirmRejected))
  {
  }

  // ---- Acking side ----

  /** A stored peer key, or the labelled current one. */
  predicate PeerHolds(s: Store, e: Epoch, key: Key) {
    if e in s.keys && !s.keys[e].mine then s.keys[e].pub == key else e == s.keyEpoch && s.peerKey == key
  }

  lemma PriorFound(s: Store, key: Key)
    ensures FindPrior(s, key) == None ==> forall e: Epoch :: !PeerHolds(s, e, key)
    ensures forall e: Epoch :: FindPrior(s, key) == Some(e) ==>
              PeerHolds(s, e, key) && (e != s.keyEpoch ==> !PeerHolds(s, s.keyEpoch, key) && forall d: Epoch :: d < e ==> !PeerHolds(s, d, key))
  {
    var hits := set e | e in s.keys && PeerRow(s.keys, e) && s.keys[e].pub == key;
    forall e: Epoch | PeerHolds(s, e, key) && e != s.keyEpoch ensures e in hits {}
    assert PeerHolds(s, s.keyEpoch, key) <==> PeerKeyAt(s, s.keyEpoch) == key;
    if hits != {} { assert Min(hits) in hits; }
  }

  /** What taking up a prepare writes. */
  ghost predicate TakesUp(s: Store, p: Prepare, id: EventId, t: Store, reply: Reply) {
    var next := s.keyEpoch + 1;
    && next !in s.keys && reply == AckFor(next)
    && t == s.(keys := s.keys[next := KeyRow(p.newKey, false)],
               acking := s.acking[next := Row(Acknowledged, s.keyEpoch, p.newKey, Some(id), p.deadline, None, false, 0)])
  }

  /** A prepare is taken up exactly when no rotation is under way, it continues the peer's
      current key and its deadline has not passed.  A late one, and one that meets a
      rotation of our own from the same epoch, is refused for just that. */
  lemma PrepareIff(s: Store, p: Prepare, id: EventId, now: int)
    requires Valid(s)
    ensures var (t, reply) := OnPrepare(s, p, id, now);
            && (Idle(s) && p.prior == s.peerKey && now <= p.deadline ==> TakesUp(s, p, id, t, reply))
            && (!(Idle(s) && p.prior == s.peerKey && now <= p.deadline) ==> t == s)
            && (reply == Refused(PrepareExpired) <==> Idle(s) && p.prior == s.peerKey && p.deadline < now)
            && (IsLive(s.rotating, s.keyEpoch + 1) && p.prior == s.peerKey ==> reply == Refused(ConflictingPrepare))
            && (reply == Refused(UnknownPrior) <==> forall e: Epoch :: !PeerHolds(s, e, p.prior))
  {
    IdleIff(s);
    PriorFound(s, p.prior);
    if OnPrepare(s, p, id, now).0 != s { FreshPrepareShape(s, p, id, now); }
    if Idle(s) { PrepareIdle(s, p, id, now); }
    if IsLive(s.rotating, s.keyEpoch + 1) && p.prior == s.peerKey { PrepareCrossed(s, p, id, now); }
  }

  lemma PrepareIdle(s: Store, p: Prepare, id: EventId, now: int)
    requires Valid(s) && !InFlight(s)
    ensures p.prior == s.peerKey && now <= p.deadline ==> TakesUp(s, p, id, OnPrepare(s, p, id, now).0, OnPrepare(s, p, id, now).1)
    ensures OnPrepare(s, p, id, now).1 == Refused(PrepareExpired) <==> p.prior == s.peerKey && p.deadline < now
  {
    CurrentIsKeyEpoch(s);
    PriorFound(s, p.prior);
    if p.prior == s.peerKey {
      assert PeerHolds(s, s.keyEpoch, p.prior);
      assert FindPrior(s, p.prior) == Some(s.keyEpoch);
      assert s.keyEpoch + 1 !in Own(s);
    }
  }

  lemma PrepareCrossed(s: Store, p: Prepare, id: EventId, now: int)
    requires Valid(s) && IsLive(s.rotating, s.keyEpoch + 1) && p.prior == s.peerKey
    ensures OnPrepare(s, p, id, now).1 == Refused(ConflictingPrepare)
  {
    assert FindPrior(s, p.prior) == Some(s.keyEpoch);
    assert forall e: Epoch :: PeerRow(s.keys, e) ==> e <= s.keyEpoch;
    forall e: Epoch | e in PeerEpochs(s) ensures e <= s.keyEpoch { assert e == s.keyEpoch || PeerRow(s.keys, e); }
    assert s.keyEpoch + 1 in Own(s);
  }

  /** An ack answers a prepare whose key is stored as the peer's for that epoch, from the
      key the prepare names as its prior. */
  lemma AckStores(s: Store, p: Prepare, id: EventId, now: int, e: Epoch)
    requires Valid(s) && OnPrepare(s, p, id, now).1 == AckFor(e)
    ensures var t := OnPrepare(s, p, id, now).0;
            0 < e && PeerRow(t.keys, e) && t.keys[e].pub == p.newKey && PeerHolds(s, e - 1, p.prior)
  {
    PriorFound(s, p.prior);
  }

  /** A confirm moves exactly the acknowledged row of its epoch on, and may be repeated. */
  lemma PeerConfirmIff(s: Store, e: Epoch)
    ensures var (t, reply) := OnConfirm(s, e);
            && (InPhase(s.acking, e, Acknowledged) ==> t == s.(acking := s.acking[e := s.acking[e].(phase := Confirmed)]))
            && (!InPhase(s.acking, e, Acknowledged) ==> t == s)
            && reply == (if InPhase(s.acking, e, Acknowledged) || InPhase(s.acking, e, Confirmed) then Done else Refused(ConfirmRejected))
  {
  }

  /** Marking the commit promotes the confirmed row, `key_epoch` and the peer's key together. */
  lemma CommitMarkedIff(s: Store, e: Epoch, now: int)
    requires Valid(s)
    ensures var (t, reply) := MarkCommitted(s, now);
            && (InPhase(s.acking, e, Confirmed) ==>
                  && reply == Done
                  && t == s.(acking := s.acking[e := s.acking[e].(phase := Committed, committedAt := Some(now))], keyEpoch := e, peerKey := s.acking[e].newKey))
            && (InPhase(s.acking, e, Acknowledged) ==> reply == Refused(NothingToCommit))
            && ((forall d: Epoch :: !InPhase(s.acking, d, Confirmed)) ==> t == s)
            && ((forall d: Epoch :: !IsLive(s.acking, d)) ==>
                  reply == if exists d: Epoch :: InPhase(s.acking, d, Committed) then Done else Refused(NothingToCommit))
  {
    if IsLive(s.acking, e) { TheLive(s.acking, e); }
    if LiveIn(s.acking) != {} {
      var d := Min(LiveIn(s.acking));
      assert d in LiveIn(s.acking) && IsLive(s.acking, d);
      assert InPhase(s.acking, d, Confirmed) <==> s.acking[d].phase == Confirmed;
    } else {
      assert forall d: Epoch :: IsLive(s.acking, d) ==> d in LiveIn(s.acking);
    }
    CommittedRows(s.acking);
  }

  lemma CommittedRows(m: map<Epoch, Row>)
    ensures CommittedIn(m) == {} <==> forall d: Epoch :: !InPhase(m, d, Committed)
    ensures forall d: Epoch :: InPhase(m, d, Committed) <==> d in CommittedIn(m)
  {
    forall d: Epoch ensures InPhase(m, d, Committed) <==> d in CommittedIn(m) {}
    if CommittedIn(m) != {} {
      var d :| d in CommittedIn(m);
      assert InPhase(m, d, Committed);
    }
  }

  /** The commit is for the confirmed row, or else repeated for the newest committed one. */
  lemma CommitBuiltIff(s: Store, e: Epoch)
    requires Valid(s)
    ensures InPhase(s.acking, e, Confirmed) ==> BuildCommit(s) == EpochReply(e)
    ensures (forall d: Epoch :: !InPhase(s.acking, d, Confirmed)) ==>
              && (BuildCommit(s) == EpochReply(e) <==>
                    InPhase(s.acking, e, Committed) && forall d: Epoch :: InPhase(s.acking, d, Committed) ==> d <= e)
              && (BuildCommit(s) == Refused(NothingToCommit) <==> forall d: Epoch :: !InPhase(s.acking, d, Committed))
  {
    if IsLive(s.acking, e) { TheLive(s.acking, e); }
    if LiveIn(s.acking) != {} {
      var d := Min(LiveIn(s.acking));
      assert d in LiveIn(s.acking);
      assert InPhase(s.acking, d, Confirmed) <==> s.acking[d].phase == Confirmed;
    }
    CommittedRows(s.acking);
    if CommittedIn(s.acking) != {} {
      var top := Max(CommittedIn(s.acking));
      assert top in CommittedIn(s.acking) && InPhase(s.acking, top, Committed);
    }
  }

  // ---- Sealing and unsealing ----

  /** Envelopes are sealed to the current peer key; from the ack to the commit, to the
      current and the new one, under the new epoch's stamp. */
  lemma SealedTo(s: Store)
    requires Valid(s)
    ensures (forall e: Epoch :: !IsLive(s.acking, e)) ==> RecipientsFor(s) == Recipients({s.peerKey}, s.keyEpoch)
    ensures forall e: Epoch :: IsLive(s.acking, e) ==> RecipientsFor(s) == Recipients({s.peerKey, s.acking[e].newKey}, e)
  {
    if LiveIn(s.acking) != {} { assert Min(LiveIn(s.acking)) in LiveIn(s.acking); }
    forall e: Epoch | IsLive(s.acking, e) ensures RecipientsFor(s) == Recipients({s.peerKey, s.acking[e].newKey}, e) {
      TheLive(s.acking, e);
      DualWrapFindsBoth(s, e);
    }
  }

  /** Own keys between two epochs. */
  ghost predicate NoneBetween(s: Store, lo: Epoch, hi: Epoch) { forall d: Epoch | lo < d < hi :: !OwnRow(s.keys, d) }

  /** Unsealing tries the current epoch's own key and the newest one below it; without an
      own key of the current epoch, the two newest. */
  lemma TriedIff(s: Store, e: Epoch)
    ensures OwnRow(s.keys, s.keyEpoch) ==>
              (e in Tried(s) <==> OwnRow(s.keys, e) && e <= s.keyEpoch && NoneBetween(s, e, s.keyEpoch))
    ensures !OwnRow(s.keys, s.keyEpoch) ==>
              (e in Tried(s) <==> OwnRow(s.keys, e) && forall c: Epoch, d: Epoch :: OwnRow(s.keys, c) && OwnRow(s.keys, d) && e < c && e < d ==> c == d)
  {
    var own := Own(s);
    assert forall d: Epoch :: OwnRow(s.keys, d) <==> d in own;
    if s.keyEpoch in own { TriedCurrent(s, e, own); } else if own != {} { TriedNewest(s, e, own); }
  }

  lemma TriedCurrent(s: Store, e: Epoch, own: set<Epoch>)
    requires own == Own(s) && s.keyEpoch in own && forall d: Epoch :: OwnRow(s.keys, d) <==> d in own
    ensures e in Tried(s) <==> e in own && e <= s.keyEpoch && NoneBetween(s, e, s.keyEpoch)
  {
    var lower := set d | d in own && d < s.keyEpoch;
    if lower != {} {
      var top := Max(lower);
      assert top in lower && OwnRow(s.keys, top);
      assert e in own && e < s.keyEpoch ==> e in lower;
      forall d: Epoch | top < d < s.keyEpoch ensures !OwnRow(s.keys, d) { assert d in own ==> d in lower; }
    } else {
      assert e in own && e < s.keyEpoch ==> e in lower;
    }
  }

  lemma TriedNewest(s: Store, e: Epoch, own: set<Epoch>)
    requires own == Own(s) && own != {} && s.keyEpoch !in own && forall d: Epoch :: OwnRow(s.keys, d) <==> d in own
    ensures e in Tried(s) <==> e in own && forall c: Epoch, d: Epoch :: OwnRow(s.keys, c) && OwnRow(s.keys, d) && e < c && e < d ==> c == d
  {
    var top := Max(own);
    var rest := own - {top};
    assert top in own;
    if rest != {} {
      var second := Max(rest);
      assert second in rest && OwnRow(s.keys, second) && OwnRow(s.keys, top);
      forall c: Epoch | OwnRow(s.keys, c) && second < c ensures c == top {
        assert c == top || c in rest;
      }
      assert e in own && e != top && e != second ==> e in rest && e < second && e < top;
    }
  }

  // ---- A whole rotation, message by message ----

  /** From rest, the rotating side prepares for the next epoch from its newest key, and
      takes the ack that comes within a day. */
  lemma RotatingBegins(a: Store, newest: Epoch, key: Key, id: EventId, t0: int, t2: int) returns (a1: Store, a2: Store)
    requires Valid(a) && Idle(a) && NewestOwn(a, newest) && t2 <= t0 + 86400
    ensures Begin(a, key, Some(id), t0) == (a1, Prepared(a.keyEpoch + 1, Prepare(key, a.keys[newest].pub, t0 + 86400)))
    ensures OnAck(a1, a.keyEpoch + 1, id, t2) == (a2, Done)
    ensures Valid(a2) && a2.keyEpoch == a.keyEpoch && InPhase(a2.rotating, a.keyEpoch + 1, Acknowledged)
    ensures OwnRow(a2.keys, a.keyEpoch + 1) && a2.keys[a.keyEpoch + 1].pub == key
  {
    var prior := BeginIff(a, key, Some(id), t0);
    assert prior <= newest <= prior;
    BeginKeepsValid(a, key, Some(id), t0);
    a1 := Begin(a, key, Some(id), t0).0;
    AckIff(a1, a.keyEpoch + 1, id, t2);
    OnAckKeepsValid(a1, a.keyEpoch + 1, id, t2);
    a2 := OnAck(a1, a.keyEpoch + 1, id, t2).0;
  }

  /** From rest, the acking side takes up a prepare that continues the peer's current key
      and comes in time, and wraps to both keys from then on. */
  lemma AckingTakes(b: Store, p: Prepare, id: EventId, t1: int) returns (b1: Store)
    requires Valid(b) && Idle(b) && p.prior == b.peerKey && t1 <= p.deadline
    ensures OnPrepare(b, p, id, t1) == (b1, AckFor(b.keyEpoch + 1))
    ensures Valid(b1) && b1.keyEpoch == b.keyEpoch
    ensures InPhase(b1.acking, b.keyEpoch + 1, Acknowledged) && b1.acking[b.keyEpoch + 1].newKey == p.newKey
    ensures RecipientsFor(b1) == Recipients({b.peerKey, p.newKey}, b.keyEpoch + 1)
  {
    PrepareIff(b, p, id, t1);
    OnPrepareKeepsValid(b, p, id, t1);
    b1 := OnPrepare(b, p, id, t1).0;
    SealedTo(b1);
    assert IsLive(b1.acking, b.keyEpoch + 1);
  }

  /** Once acknowledged, the decrypted wrap, the confirm and the commit leave the rotating
      side at rest at the new epoch, with its key the newest and among those it tries. */
  lemma RotatingEnds(a: Store, e: Epoch, t3: int, t5: int) returns (a3: Store)
    requires Valid(a) && InPhase(a.rotating, e, Acknowledged)
    ensures BuildConfirm(NoteDecryptedNewWrap(a, e, t3)) == EpochReply(e)
    ensures a3 == OnCommit(MarkConfirmed(NoteDecryptedNewWrap(a, e, t3)).0, e, t5).0
    ensures Valid(a3) && Idle(a3) && a3.keyEpoch == e && NewestOwn(a3, e) && a3.keys == a.keys && e in Tried(a3)
  {
    assert IsLive(a.rotating, e);
    var a1 := NoteDecryptedNewWrap(a, e, t3);
    WrapNoted(a, e, t3);
    NotesKeepValid(a, e, t3);
    ConfirmBuiltIff(a1, e);
    ConfirmMarkedIff(a1, e);
    MarkConfirmedKeepsValid(a1);
    var a2 := MarkConfirmed(a1).0;
    CommitIff(a2, e, t5);
    OnCommitKeepsValid(a2, e, t5);
    a3 := OnCommit(a2, e, t5).0;
    OnlyOne(a2, a3, e);
    TriedIff(a3, e);
  }

  /** The one rotation under way has been committed. */
  lemma OnlyOne(s: Store, t: Store, e: Epoch)
    requires Valid(s) && IsLive(s.rotating, e) && !IsLive(t.rotating, e)
    requires forall d: Epoch :: d != e ==> (IsLive(t.rotating, d) <==> IsLive(s.rotating, d))
    requires t.acking == s.acking && t.keys == s.keys && t.keyEpoch == e
    ensures Idle(t) && NewestOwn(t, e)
  {
    assert RotatingRowOk(s, e, s.rotating[e]);
    forall d: Epoch ensures !IsLive(t.rotating, d) && !IsLive(t.acking, d) {
      assert d != e ==> !IsLive(s.rotating, d);
      assert !IsLive(s.acking, d);
    }
  }

  /** The confirm and its own commit leave the acking side at rest at the new epoch,
      sealing to the new key alone. */
  lemma AckingEnds(b: Store, e: Epoch, t4: int) returns (b3: Store)
    requires Valid(b) && InPhase(b.acking, e, Acknowledged)
    ensures BuildCommit(OnConfirm(b, e).0) == EpochReply(e) && b3 == MarkCommitted(OnConfirm(b, e).0, t4).0
    ensures Valid(b3) && Idle(b3) && b3.keyEpoch == e && b3.peerKey == b.acking[e].newKey
    ensures RecipientsFor(b3) == Recipients({b3.peerKey}, e)
  {
    assert IsLive(b.acking, e);
    PeerConfirmIff(b, e);
    OnConfirmKeepsValid(b, e);
    var b2 := OnConfirm(b, e).0;
    CommitBuiltIff(b2, e);
    CommitMarkedIff(b2, e, t4);
    MarkCommittedKeepsValid(b2, t4);
    b3 := MarkCommitted(b2, t4).0;
    assert IsLive(b2.acking, e);
    forall d: Epoch ensures !IsLive(b3.rotating, d) && !IsLive(b3.acking, d) {
      assert d != e ==> !IsLive(b2.acking, d);
      assert !IsLive(b2.rotating, d);
    }
    SealedTo(b3);
  }
}
