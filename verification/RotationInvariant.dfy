// What one side keeps, whatever its peer, its operator and its clock do.

module RotationInvariant {
  import opened Base
  import opened RotationCore

  /** Own rows past `key_epoch` belong to a live rotation of the same role. */
  ghost predicate OwnRowsKnown(s: Store) {
    && (exists e: Epoch :: OwnRow(s.keys, e))
    && (forall e: Epoch :: OwnRow(s.keys, e) ==> e <= s.keyEpoch || IsLive(s.rotating, e))
  }

  ghost predicate PeerRowsKnown(s: Store) {
    && (forall e: Epoch :: PeerRow(s.keys, e) ==> e <= s.keyEpoch || IsLive(s.acking, e))
    && (PeerRow(s.keys, s.keyEpoch) ==> s.keys[s.keyEpoch].pub == s.peerKey)
  }

  /** A live rotating row is ahead of `key_epoch`, owns its key, and its prior is the newest other own key. */
  ghost predicate RotatingRowOk(s: Store, e: Epoch, r: Row) {
    && s.keyEpoch < e && OwnRow(s.keys, e) && s.keys[e].pub == r.newKey
    && OwnRow(s.keys, r.prior) && r.prior <= s.keyEpoch
    && (forall x: Epoch :: OwnRow(s.keys, x) ==> x == e || x <= r.prior)
  }

  ghost predicate RotatingOk(s: Store) {
    && (forall e: Epoch :: IsLive(s.rotating, e) ==> RotatingRowOk(s, e, s.rotating[e]))
    && (forall e: Epoch | e in s.rotating && s.rotating[e].phase == Committed ::
          e <= s.keyEpoch && s.rotating[e].prior < e && s.rotating[e].committedAt.Some?)
  }

  /** A live acking row is ahead of `key_epoch`, which is its prior; finished ones are not. */
  ghost predicate AckingRowOk(s: Store, e: Epoch, r: Row) {
    s.keyEpoch < e && PeerRow(s.keys, e) && s.keys[e].pub == r.newKey && r.prior == s.keyEpoch
  }

  ghost predicate AckingOk(s: Store) {
    && (forall e: Epoch :: IsLive(s.acking, e) ==> AckingRowOk(s, e, s.acking[e]))
    && (forall e: Epoch | e in s.acking ::
          && s.acking[e].phase != Candidate && s.acking[e].phase != Discarded
          && (s.acking[e].phase == Committed ==> e <= s.keyEpoch && s.acking[e].committedAt.Some?))
  }

  ghost predicate OneLive(s: Store) {
    && (forall d: Epoch, e: Epoch :: IsLive(s.rotating, d) && IsLive(s.rotating, e) ==> d == e)
    && (forall d: Epoch, e: Epoch :: IsLive(s.acking, d) && IsLive(s.acking, e) ==> d == e)
    && (forall d: Epoch, e: Epoch :: IsLive(s.rotating, d) ==> !IsLive(s.acking, e))
  }

  /** Compaction's footprint: a peer row may lack its acking row only when it is
      the oldest peer row and its rotation is over; the newest acking row keeps its peer row. */
  ghost predicate NoReopen(s: Store) {
    && (forall e: Epoch :: PeerRow(s.keys, e) && e !in s.acking ==> e <= s.keyEpoch && OldestPeerRow(s, e))
    && (s.acking == map[] || exists top: Epoch :: PeerRow(s.keys, top) && AckingUpTo(s, top))
  }

  ghost predicate OldestPeerRow(s: Store, e: Epoch) { forall d: Epoch :: PeerRow(s.keys, d) ==> e <= d }

  ghost predicate AckingUpTo(s: Store, top: Epoch) { forall e: Epoch | e in s.acking :: e <= top }

  ghost predicate Valid(s: Store) {
    OwnRowsKnown(s) && PeerRowsKnown(s) && RotatingOk(s) && AckingOk(s) && OneLive(s) && NoReopen(s)
  }

  /** The state pairing leaves: epoch 1, one own key, the peer's key. */
  function Paired(own: Key, peer: Key): Store {
    Store(1, peer, map[1 := KeyRow(own, true)], map[], map[], map[])
  }

  lemma PairedValid(own: Key, peer: Key)
    ensures Valid(Paired(own, peer))
  {
    assert OwnRow(Paired(own, peer).keys, 1);
  }

  // ---- Consequences read off the invariant ----

  /** With nothing in flight, every known epoch is at most `key_epoch`. */
  lemma CurrentIsKeyEpoch(s: Store)
    requires Valid(s) && !InFlight(s)
    ensures CurrentEpoch(s) == s.keyEpoch
    ensures Max(PeerEpochs(s)) == s.keyEpoch
    ensures forall e: Epoch :: !IsLive(s.rotating, e) && !IsLive(s.acking, e)
    ensures forall e | e in s.keys :: e <= s.keyEpoch
  {
    NothingLive(s);
    assert forall e | e in s.keys :: OwnRow(s.keys, e) || PeerRow(s.keys, e);
    forall e: Epoch | e in Own(s) ensures e <= s.keyEpoch { assert OwnRow(s.keys, e); }
    forall e: Epoch | e in PeerEpochs(s) ensures e <= s.keyEpoch { assert e == s.keyEpoch || PeerRow(s.keys, e); }
  }

  lemma NothingLive(s: Store)
    ensures InFlight(s) <==> exists e: Epoch :: IsLive(s.rotating, e) || IsLive(s.acking, e)
  {
    if LiveIn(s.rotating) != {} {
      var e :| e in LiveIn(s.rotating);
      assert IsLive(s.rotating, e);
    } else if LiveIn(s.acking) != {} {
      var e :| e in LiveIn(s.acking);
      assert IsLive(s.acking, e);
    } else {
      forall e: Epoch ensures !IsLive(s.rotating, e) && !IsLive(s.acking, e) {
        assert IsLive(s.rotating, e) ==> e in LiveIn(s.rotating);
        assert IsLive(s.acking, e) ==> e in LiveIn(s.acking);
      }
    }
  }

  /** While a rotation is acknowledged, `dual_wrap_keys` always finds both keys:
      the current peer key and the new one. */
  lemma DualWrapFindsBoth(s: Store, e: Epoch)
    requires Valid(s) && IsLive(s.acking, e)
    ensures RecipientsFor(s) == Recipients({s.peerKey, s.acking[e].newKey}, e)
  {
    assert e in LiveIn(s.acking);
    assert IsLive(s.acking, Min(LiveIn(s.acking)));
    assert Min(LiveIn(s.acking)) == e;
    assert AckingRowOk(s, e, s.acking[e]);
    assert e in PeerEpochs(s);
  }

  // ---- Preservation ----

  /** Rewriting one rotating row, live before and after, changes nothing else the invariant sees. */
  lemma RotatingTouch(s: Store, t: Store, e: Epoch)
    requires Valid(s) && IsLive(s.rotating, e) && IsLive(t.rotating, e)
    requires t.rotating[e].prior == s.rotating[e].prior && t.rotating[e].newKey == s.rotating[e].newKey
    requires t.rotating == s.rotating[e := t.rotating[e]]
    requires t == s.(rotating := t.rotating, parked := t.parked)
    ensures Valid(t)
  {
    assert forall d: Epoch :: IsLive(t.rotating, d) <==> IsLive(s.rotating, d);
    assert RotatingRowOk(s, e, s.rotating[e]);
    SameSides(s, t);
  }

  /** The acking half and the key rows are untouched. */
  lemma SameSides(s: Store, t: Store)
    requires Valid(s) && t.keys == s.keys && t.acking == s.acking && t.keyEpoch == s.keyEpoch && t.peerKey == s.peerKey
    requires forall d: Epoch :: IsLive(t.rotating, d) <==> IsLive(s.rotating, d)
    ensures OwnRowsKnown(t) && PeerRowsKnown(t) && AckingOk(t) && NoReopen(t) && OneLive(t)
  {
    assert forall e: Epoch :: OldestPeerRow(s, e) ==> OldestPeerRow(t, e);
    assert forall e: Epoch :: AckingUpTo(s, e) ==> AckingUpTo(t, e);
    assert forall e: Epoch :: IsLive(s.acking, e) && AckingRowOk(s, e, s.acking[e]) ==> AckingRowOk(t, e, t.acking[e]);
  }

  lemma BeginKeepsValid(s: Store, key: Key, prepareId: Option<EventId>, now: int)
    requires Valid(s)
    ensures Valid(Begin(s, key, prepareId, now).0)
    ensures Begin(s, key, prepareId, now).0.keyEpoch == s.keyEpoch
    ensures Begin(s, key, prepareId, now).1.Prepared? <==> !InFlight(s)
    ensures !InFlight(s) ==> BeginShape(s, key, prepareId, now)
  {
    if !InFlight(s) {
      CurrentIsKeyEpoch(s);
      var epoch := s.keyEpoch + 1;
      var w :| OwnRow(s.keys, w);
      assert w in Own(s);
      var prior := Max(Own(s));
      assert NewestOwn(s, prior) by {
        forall x: Epoch | OwnRow(s.keys, x) ensures x <= prior { assert x in Own(s); }
      }
      assert epoch in s.rotating ==> IsLive(s.rotating, epoch) || s.rotating[epoch].phase in {Committed, Discarded};
      var t := Begin(s, key, prepareId, now).0;
      BegunValid(s, t, prior, key, prepareId, now);
    }
  }

  ghost predicate BeginShape(s: Store, key: Key, prepareId: Option<EventId>, now: int) {
    var epoch := s.keyEpoch + 1;
    && epoch !in s.keys
    && exists prior: Epoch :: NewestOwn(s, prior) && Begin(s, key, prepareId, now) == BeginAt(s, prior, key, prepareId, now)
  }

  ghost predicate NewestOwn(s: Store, prior: Epoch) {
    OwnRow(s.keys, prior) && (forall x: Epoch :: OwnRow(s.keys, x) ==> x <= prior)
  }

  function BeginAt(s: Store, prior: Epoch, key: Key, prepareId: Option<EventId>, now: int): (Store, Reply)
    requires OwnRow(s.keys, prior)
  {
    var epoch := s.keyEpoch + 1;
    var row := Row(Candidate, prior, key, prepareId, now + ROTATION_WINDOW, None, false, 0);
    (s.(keys := s.keys[epoch := KeyRow(key, true)], rotating := s.rotating[epoch := row]),
     Prepared(epoch, Prepare(key, s.keys[prior].pub, now + ROTATION_WINDOW)))
  }

  lemma BegunValid(s: Store, t: Store, prior: Epoch, key: Key, prepareId: Option<EventId>, now: int)
    requires Valid(s) && NewestOwn(s, prior) && s.keyEpoch + 1 !in s.keys
    requires forall e: Epoch :: !IsLive(s.rotating, e) && !IsLive(s.acking, e)
    requires t == BeginAt(s, prior, key, prepareId, now).0
    ensures Valid(t)
  {
    var epoch := s.keyEpoch + 1;
    assert OwnRow(t.keys, epoch);
    assert forall d: Epoch :: PeerRow(t.keys, d) <==> PeerRow(s.keys, d);
    assert forall d: Epoch :: OwnRow(t.keys, d) <==> d == epoch || OwnRow(s.keys, d);
    assert forall d: Epoch :: IsLive(t.rotating, d) <==> d == epoch;
    assert RotatingRowOk(t, epoch, t.rotating[epoch]);
    PeersUnchanged(s, t);
  }

  /** The acking rows and the peer rows are the same; only own rows moved. */
  lemma PeersUnchanged(s: Store, t: Store)
    requires NoReopen(s) && t.acking == s.acking && t.keyEpoch >= s.keyEpoch
    requires forall d: Epoch :: PeerRow(t.keys, d) <==> PeerRow(s.keys, d)
    ensures NoReopen(t)
  {
    assert forall e: Epoch :: OldestPeerRow(s, e) ==> OldestPeerRow(t, e);
    assert forall e: Epoch :: AckingUpTo(s, e) ==> AckingUpTo(t, e);
  }

  lemma ConsumeParkedKeepsValid(s: Store, epoch: Epoch)
    requires Valid(s)
    ensures Valid(ConsumeParked(s, epoch))
    ensures ConsumeParked(s, epoch).keyEpoch == s.keyEpoch
  {
    var t := ConsumeParked(s, epoch);
    if epoch in s.parked && IsLive(s.rotating, epoch) {
      RotatingTouch(s, t, epoch);
    } else {
      assert RotatingOk(t) by {
        assert forall e: Epoch :: IsLive(s.rotating, e) && RotatingRowOk(s, e, s.rotating[e]) ==> RotatingRowOk(t, e, t.rotating[e]);
      }
      SameSides(s, t);
    }
  }

  lemma OnAckKeepsValid(s: Store, epoch: Epoch, prepareId: EventId, now: int)
    requires Valid(s)
    ensures Valid(OnAck(s, epoch, prepareId, now).0)
    ensures OnAck(s, epoch, prepareId, now).0.keyEpoch == s.keyEpoch
  {
    if epoch in s.rotating {
      ConsumeParkedKeepsValid(s, epoch);
      if s.rotating[epoch].phase == Candidate {
        var s1 := s.(rotating := s.rotating[epoch := s.rotating[epoch].(phase := Acknowledged)]);
        RotatingTouch(s, s1, epoch);
        ConsumeParkedKeepsValid(s1, epoch);
      }
    }
  }

  lemma NotesKeepValid(s: Store, epoch: Epoch, now: int)
    requires Valid(s)
    ensures Valid(NoteDecryptedNewWrap(s, epoch, now))
    ensures NoteDecryptedNewWrap(s, epoch, now).keyEpoch == s.keyEpoch
  {
    var t := NoteDecryptedNewWrap(s, epoch, now);
    if IsLive(s.rotating, epoch) {
      RotatingTouch(s, t, epoch);
    } else {
      assert forall e: Epoch :: IsLive(s.rotating, e) && RotatingRowOk(s, e, s.rotating[e]) ==> RotatingRowOk(t, e, t.rotating[e]);
      SameSides(s, t);
    }
  }

  lemma CountKeepsValid(s: Store)
    requires Valid(s)
    ensures Valid(NoteAcceptedEvent(s))
    ensures NoteAcceptedEvent(s).keyEpoch == s.keyEpoch
  {
    var u := NoteAcceptedEvent(s);
    assert forall d: Epoch :: IsLive(u.rotating, d) <==> IsLive(s.rotating, d);
    assert forall e: Epoch :: IsLive(s.rotating, e) && RotatingRowOk(s, e, s.rotating[e]) ==> RotatingRowOk(u, e, u.rotating[e]);
    SameSides(s, u);
  }

  lemma MarkConfirmedKeepsValid(s: Store)
    requires Valid(s)
    ensures Valid(MarkConfirmed(s).0)
    ensures MarkConfirmed(s).0.keyEpoch == s.keyEpoch
  {
    if LiveIn(s.rotating) != {} {
      var e := Min(LiveIn(s.rotating));
      if s.rotating[e].phase == Acknowledged { RotatingTouch(s, MarkConfirmed(s).0, e); }
    }
  }

  lemma OnCommitKeepsValid(s: Store, epoch: Epoch, now: int)
    requires Valid(s)
    ensures Valid(OnCommit(s, epoch, now).0)
    ensures OnCommit(s, epoch, now).0.keyEpoch >= s.keyEpoch
    ensures OnCommit(s, epoch, now).0 != s ==> OnCommit(s, epoch, now).0.keyEpoch == epoch > s.keyEpoch
  {
    if epoch in s.rotating && s.rotating[epoch].phase == Confirmed {
      var t := OnCommit(s, epoch, now).0;
      assert IsLive(s.rotating, epoch) && RotatingRowOk(s, epoch, s.rotating[epoch]);
      assert forall d: Epoch :: !IsLive(t.rotating, d) && !IsLive(t.acking, d) by {
        forall d: Epoch ensures !IsLive(t.rotating, d) { if IsLive(t.rotating, d) { assert IsLive(s.rotating, d); } }
      }
      PeersUnchanged(s, t);
    }
  }

  /** A redelivered prepare finds its row: it never reopens a rotation. */
  lemma RedeliveryNeverReopens(s: Store, epoch: Epoch, prior: Epoch, p: Prepare, id: EventId)
    requires Valid(s) && PeerRow(s.keys, epoch) && epoch == prior + 1
    requires prior in PeerEpochs(s)
    ensures RecordAcking(s, epoch, prior, p, id) == s
  {
    assert prior != s.keyEpoch ==> PeerRow(s.keys, prior);
    assert epoch !in s.acking ==> OldestPeerRow(s, epoch);
  }

  /** A prepare is taken up only when nothing is in flight and it continues the
      peer's current key; its epoch is the successor of `key_epoch`. */
  lemma FreshPrepareShape(s: Store, p: Prepare, id: EventId, now: int)
    requires Valid(s) && OnPrepare(s, p, id, now).0 != s
    ensures !InFlight(s) && now <= p.deadline && p.prior == s.peerKey && s.keyEpoch + 1 !in s.keys
    ensures OnPrepare(s, p, id, now) == (TakenUp(s, p, id), AckFor(s.keyEpoch + 1))
  {
    var prior := FindPrior(s, p.prior).value;
    var epoch := prior + 1;
    if PeerRow(s.keys, epoch) {
      RedeliveryNeverReopens(s, epoch, prior, p, id);
    } else {
      CurrentIsKeyEpoch(s);
      if epoch in s.acking { assert false; }
      assert epoch in s.keys ==> epoch in Own(s);
    }
  }

  function TakenUp(s: Store, p: Prepare, id: EventId): Store {
    var row := Row(Acknowledged, s.keyEpoch, p.newKey, Some(id), p.deadline, None, false, 0);
    s.(keys := s.keys[s.keyEpoch + 1 := KeyRow(p.newKey, false)], acking := s.acking[s.keyEpoch + 1 := row])
  }

  lemma OnPrepareKeepsValid(s: Store, p: Prepare, id: EventId, now: int)
    requires Valid(s)
    ensures Valid(OnPrepare(s, p, id, now).0)
    ensures OnPrepare(s, p, id, now).0.keyEpoch == s.keyEpoch
  {
    if OnPrepare(s, p, id, now).0 != s {
      FreshPrepareShape(s, p, id, now);
      CurrentIsKeyEpoch(s);
      TakenUpValid(s, p, id);
    }
  }

  lemma TakenUpValid(s: Store, p: Prepare, id: EventId)
    requires Valid(s) && s.keyEpoch + 1 !in s.keys
    requires forall e: Epoch :: !IsLive(s.rotating, e) && !IsLive(s.acking, e)
    ensures Valid(TakenUp(s, p, id))
  {
    var t := TakenUp(s, p, id);
    var epoch := s.keyEpoch + 1;
    assert forall d: Epoch :: OwnRow(t.keys, d) <==> OwnRow(s.keys, d);
    assert forall d: Epoch :: PeerRow(t.keys, d) <==> d == epoch || PeerRow(s.keys, d);
    assert forall d: Epoch :: IsLive(t.acking, d) <==> d == epoch;
    assert AckingRowOk(t, epoch, t.acking[epoch]);
    assert AckingUpTo(t, epoch);
    assert forall e: Epoch :: PeerRow(s.keys, e) && OldestPeerRow(s, e) ==> OldestPeerRow(t, e);
  }

  lemma OnConfirmKeepsValid(s: Store, epoch: Epoch)
    requires Valid(s)
    ensures Valid(OnConfirm(s, epoch).0)
    ensures OnConfirm(s, epoch).0.keyEpoch == s.keyEpoch
  {
    if epoch in s.acking && s.acking[epoch].phase == Acknowledged {
      var t := OnConfirm(s, epoch).0;
      assert IsLive(s.acking, epoch) && AckingRowOk(s, epoch, s.acking[epoch]);
      assert forall d: Epoch :: IsLive(t.acking, d) <==> IsLive(s.acking, d);
      assert forall d: Epoch :: IsLive(s.acking, d) && AckingRowOk(s, d, s.acking[d]) ==> AckingRowOk(t, d, t.acking[d]);
      AckingRowsKept(s, t);
    }
  }

  lemma AckingRowsKept(s: Store, t: Store)
    requires NoReopen(s) && t.acking.Keys == s.acking.Keys && t.keyEpoch >= s.keyEpoch
    requires forall d: Epoch :: PeerRow(t.keys, d) <==> PeerRow(s.keys, d)
    ensures NoReopen(t)
  {
    assert forall e: Epoch :: OldestPeerRow(s, e) ==> OldestPeerRow(t, e);
    forall e: Epoch | AckingUpTo(s, e) ensures AckingUpTo(t, e) {}
    if t.acking != map[] {
      var e :| e in t.acking;
      assert e in s.acking;
    }
  }

  lemma MarkCommittedKeepsValid(s: Store, now: int)
    requires Valid(s)
    ensures Valid(MarkCommitted(s, now).0)
    ensures MarkCommitted(s, now).0.keyEpoch >= s.keyEpoch
    ensures MarkCommitted(s, now).0 != s ==> MarkCommitted(s, now).0.keyEpoch > s.keyEpoch
  {
    if LiveIn(s.acking) != {} {
      var e := Min(LiveIn(s.acking));
      if s.acking[e].phase == Confirmed {
        var t := MarkCommitted(s, now).0;
        assert IsLive(s.acking, e) && AckingRowOk(s, e, s.acking[e]);
        forall d: Epoch ensures !IsLive(t.acking, d) { if IsLive(t.acking, d) { assert IsLive(s.acking, d); } }
        AckingRowsKept(s, t);
      }
    }
  }

  lemma DiscardKeepsValid(s: Store, epoch: Epoch)
    requires Valid(s)
    ensures Valid(DiscardRotating(s, epoch))
    ensures DiscardRotating(s, epoch).keyEpoch == s.keyEpoch
  {
    if IsLive(s.rotating, epoch) {
      var t := DiscardRotating(s, epoch);
      assert RotatingRowOk(s, epoch, s.rotating[epoch]);
      assert epoch in Own(s);
      forall d: Epoch ensures !IsLive(t.rotating, d) { if IsLive(t.rotating, d) { assert IsLive(s.rotating, d); } }
      assert OwnRow(t.keys, s.rotating[epoch].prior);
      assert forall d: Epoch :: OwnRow(t.keys, d) <==> d != epoch && OwnRow(s.keys, d);
      assert forall d: Epoch :: PeerRow(t.keys, d) <==> PeerRow(s.keys, d);
      PeersUnchanged(s, t);
    }
  }

  lemma CompactKeepsValid(s: Store, now: int)
    requires Valid(s)
    ensures Valid(Compact(s, now))
    ensures CompactShape(s, Compact(s, now))
  {
    var t := Compact(s, now);
    assert CompactShape(s, t);
    assert forall d: Epoch :: IsLive(s.rotating, d) && RotatingRowOk(s, d, s.rotating[d]) ==> RotatingRowOk(t, d, t.rotating[d]);
    forall e: Epoch | IsLive(t.acking, e) ensures AckingRowOk(t, e, t.acking[e]) {
      assert AckingRowOk(s, e, s.acking[e]);
      assert forall d: Epoch :: PeerRow(s.keys, d) && e < d ==> IsLive(s.acking, d);
    }
    CompactNoReopen(s, now);
  }

  /** Compaction drops finished rows and old peer rows, nothing else. */
  ghost predicate CompactShape(s: Store, t: Store) {
    && t.keyEpoch == s.keyEpoch && t.peerKey == s.peerKey
    && (forall d: Epoch :: OwnRow(t.keys, d) <==> OwnRow(s.keys, d))
    && (forall d: Epoch :: PeerRow(t.keys, d) ==> PeerRow(s.keys, d))
    && (forall d: Epoch :: d in t.keys ==> d in s.keys && t.keys[d] == s.keys[d])
    && (forall d: Epoch :: IsLive(t.rotating, d) <==> IsLive(s.rotating, d))
    && (forall d: Epoch :: IsLive(t.acking, d) <==> IsLive(s.acking, d))
    && (forall d: Epoch | d in t.rotating :: d in s.rotating && t.rotating[d] == s.rotating[d])
    && (forall d: Epoch | d in t.acking :: d in s.acking && t.acking[d] == s.acking[d])
  }

  lemma OldRowDropped(keys: map<Epoch, KeyRow>, d: Epoch, a: Epoch, b: Epoch)
    requires PeerRow(keys, d) && PeerRow(keys, a) && PeerRow(keys, b) && d < a < b
    ensures d !in CompactPeers(keys)
  {
  }

  lemma CompactNoReopen(s: Store, now: int)
    requires Valid(s)
    ensures NoReopen(Compact(s, now))
  {
    var t := Compact(s, now);
    forall e: Epoch | PeerRow(t.keys, e) && e !in t.acking
      ensures e <= t.keyEpoch && OldestPeerRow(t, e)
    {
      if e in s.acking {
        assert Superseded(s.acking, e, now - COMMITTED_RETENTION);
        var e2 :| e2 in s.acking && s.acking[e2].phase == Committed && e < e2;
        var top: Epoch :| PeerRow(s.keys, top) && AckingUpTo(s, top);
        assert e2 <= top;
        forall d: Epoch | PeerRow(t.keys, d) ensures e <= d {
          if d < e {
            assert PeerRow(s.keys, d);
            OldRowDropped(s.keys, d, e, top);
          }
        }
      } else {
        forall d: Epoch | PeerRow(t.keys, d) ensures e <= d { assert PeerRow(s.keys, d); }
      }
    }
    if s.acking != map[] {
      var top :| PeerRow(s.keys, top) && AckingUpTo(s, top);
      var peers := set x | x in s.keys && PeerRow(s.keys, x);
      assert top in peers;
      assert forall x: Epoch :: PeerRow(s.keys, x) ==> x in peers;
      assert PeerRow(t.keys, Max(peers));
      assert AckingUpTo(t, Max(peers));
    }
  }

  lemma RetireOneKeepsValid(s: Store, epoch: Epoch, now: int)
    requires Valid(s)
    ensures Valid(RetireOne(s, epoch, now))
    ensures RetireOne(s, epoch, now).keyEpoch == s.keyEpoch
  {
    var t := RetireOne(s, epoch, now);
    if t != s {
      var prior := s.rotating[epoch].prior;
      assert OwnRow(s.keys, epoch) && OwnRow(t.keys, epoch);
      assert forall d: Epoch :: IsLive(t.rotating, d) <==> IsLive(s.rotating, d);
      assert forall d: Epoch :: PeerRow(t.keys, d) <==> PeerRow(s.keys, d);
      assert forall d: Epoch :: OwnRow(t.keys, d) <==> d != prior && OwnRow(s.keys, d);
      forall e: Epoch | IsLive(t.rotating, e) ensures RotatingRowOk(t, e, t.rotating[e]) {
        assert RotatingRowOk(s, e, s.rotating[e]);
      }
      assert forall d: Epoch :: IsLive(s.acking, d) && AckingRowOk(s, d, s.acking[d]) ==> AckingRowOk(t, d, t.acking[d]);
      PeersUnchanged(s, t);
    }
  }

  lemma {:induction false} RetireAllKeepsValid(s: Store, order: seq<Epoch>, now: int)
    requires Valid(s)
    ensures Valid(RetireAll(s, order, now))
    ensures RetireAll(s, order, now).keyEpoch == s.keyEpoch
    decreases |order|
  {
    if order != [] {
      RetireOneKeepsValid(s, order[0], now);
      RetireAllKeepsValid(RetireOne(s, order[0], now), order[1..], now);
    }
  }

  lemma SweepKeepsValid(s: Store, order: seq<Epoch>, stopped: bool, now: int)
    requires Valid(s)
    ensures Valid(Sweep(s, order, stopped, now))
    ensures Sweep(s, order, stopped, now).keyEpoch == s.keyEpoch
  {
    CompactKeepsValid(s, now);
    var s1 := Compact(s, now);
    if stopped {
    } else if TimedOut(s1, now) != {} {
      DiscardKeepsValid(s1, Min(TimedOut(s1, now)));
    } else {
      RetireAllKeepsValid(s1, order, now);
    }
  }

  // ---- Whole runs of one side ----

  datatype Op =
    | BeginOp(key: Key, id: Option<EventId>)
    | AckOp(epoch: Epoch, ackId: EventId)
    | DataOp(epoch: Epoch)
    | ConfirmOp
    | CommitOp(epoch: Epoch)
    | PrepareOp(p: Prepare, prepareId: EventId)
    | PeerConfirmOp(epoch: Epoch)
    | MarkCommittedOp
    | TheirsOp(epoch: Epoch, p: Prepare, prepareId: EventId)
    | SweepOp(order: seq<Epoch>, stopped: bool)

  function Apply(s: Store, op: Op, now: int): Store {
    match op
    case BeginOp(key, id) => Begin(s, key, id, now).0
    case AckOp(e, id) => OnAck(s, e, id, now).0
    case DataOp(e) => NoteAcceptedEvent(NoteDecryptedNewWrap(s, e, now))
    case ConfirmOp => MarkConfirmed(s).0
    case CommitOp(e) => OnCommit(s, e, now).0
    case PrepareOp(p, id) => OnPrepare(s, p, id, now).0
    case PeerConfirmOp(e) => OnConfirm(s, e).0
    case MarkCommittedOp => MarkCommitted(s, now).0
    case TheirsOp(e, p, id) => ResolveTheirs(s, e, p, id, now).0
    case SweepOp(order, stopped) => Sweep(s, order, stopped, now)
  }

  /** Every operation keeps the invariant, never lowers `key_epoch`, and a live
      rotation is always for an epoch that no commit has reached. */
  lemma ApplyKeepsValid(s: Store, op: Op, now: int)
    requires Valid(s)
    ensures Valid(Apply(s, op, now))
    ensures s.keyEpoch <= Apply(s, op, now).keyEpoch
  {
    match op
    case BeginOp(key, id) => BeginKeepsValid(s, key, id, now);
    case AckOp(e, id) => OnAckKeepsValid(s, e, id, now);
    case DataOp(e) =>
      NotesKeepValid(s, e, now);
      CountKeepsValid(NoteDecryptedNewWrap(s, e, now));
    case ConfirmOp => MarkConfirmedKeepsValid(s);
    case CommitOp(e) => OnCommitKeepsValid(s, e, now);
    case PrepareOp(p, id) => OnPrepareKeepsValid(s, p, id, now);
    case PeerConfirmOp(e) => OnConfirmKeepsValid(s, e);
    case MarkCommittedOp => MarkCommittedKeepsValid(s, now);
    case TheirsOp(e, p, id) => TheirsKeepsValid(s, e, p, id, now);
    case SweepOp(order, stopped) => SweepKeepsValid(s, order, stopped, now);
  }

  lemma TheirsKeepsValid(s: Store, e: Epoch, p: Prepare, id: EventId, now: int)
    requires Valid(s)
    ensures Valid(ResolveTheirs(s, e, p, id, now).0)
    ensures ResolveTheirs(s, e, p, id, now).0.keyEpoch == s.keyEpoch
  {
    DiscardKeepsValid(s, e);
    OnPrepareKeepsValid(DiscardRotating(s, e), p, id, now);
  }

  function RunOps(s: Store, ops: seq<(Op, int)>): Store
    decreases |ops|
  {
    if ops == [] then s else RunOps(Apply(s, ops[0].0, ops[0].1), ops[1..])
  }

  /** After any run from pairing: own keys exist, at most one rotation is live over both
      roles and it is ahead of `key_epoch`, sends always find their keys, and a
      finished epoch never becomes live again. */
  lemma {:induction false} OneSideSafety(s: Store, ops: seq<(Op, int)>)
    requires Valid(s)
    ensures Valid(RunOps(s, ops))
    ensures s.keyEpoch <= RunOps(s, ops).keyEpoch
    ensures RecipientsFor(RunOps(s, ops)).Recipients?
    ensures forall e: Epoch | e <= s.keyEpoch :: e !in LiveIn(RunOps(s, ops).rotating) + LiveIn(RunOps(s, ops).acking)
    decreases |ops|
  {
    if ops != [] {
      ApplyKeepsValid(s, ops[0].0, ops[0].1);
      OneSideSafety(Apply(s, ops[0].0, ops[0].1), ops[1..]);
    } else {
      if LiveIn(s.acking) != {} { DualWrapFindsBoth(s, Min(LiveIn(s.acking))); }
      forall e: Epoch | e <= s.keyEpoch ensures e !in LiveIn(s.rotating) + LiveIn(s.acking) {
        assert IsLive(s.rotating, e) ==> s.keyEpoch < e;
        assert IsLive(s.acking, e) ==> s.keyEpoch < e;
      }
    }
  }
}
