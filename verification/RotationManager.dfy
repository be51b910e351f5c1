// `RotationManager` (crypto/rotation.py) over one relationship's rows: each
// method changes the tables statement by statement, one transaction per call,
// and is proved to do exactly what the table functions say.

module RotationService {
  import opened Base
  import opened RotationCore
  import opened RotationGate
  import opened RotationSweep
  import RotationInvariant

  class RotationManager {
    var keyEpoch: Epoch
    var peerKey: Key
    var keys: map<Epoch, KeyRow>
    var rotating: map<Epoch, Row>
    var acking: map<Epoch, Row>
    var parked: map<Epoch, int>
    var firstSeen: map<Epoch, Sighting>
    var quarantine: seq<Entry>
    var nextId: nat

    function Tables(): Store
      reads this
    {
      Store(keyEpoch, peerKey, keys, rotating, acking, parked)
    }

    function GateTables(): Gate
      reads this
    {
      Gate(firstSeen, quarantine, nextId)
    }

    /** The rows pairing leaves. */
    constructor (own: Key, peer: Key)
      ensures Tables() == Store(1, peer, map[1 := KeyRow(own, true)], map[], map[], map[])
      ensures GateTables() == Gate(map[], [], 0)
    {
      keyEpoch, peerKey := 1, peer;
      keys, rotating, acking, parked := map[1 := KeyRow(own, true)], map[], map[], map[];
      firstSeen, quarantine, nextId := map[], [], 0;
    }

    // ---- Rotating side ----

    method BeginRotation(key: Key, prepareId: Option<EventId>, now: int) returns (reply: Reply)
      modifies this`keys, this`rotating
      ensures (Tables(), reply) == Begin(old(Tables()), key, prepareId, now)
    {
      if LiveIn(rotating) != {} || LiveIn(acking) != {} { return Refused(RotationInFlight); }
      var own := Own(Tables());
      if own == {} { return Refused(NoOwnKey); }
      var prior := Max(own);
      var epoch := CurrentEpoch(Tables()) + 1;
      if epoch <= prior { return Refused(StalePrior); }
      var priorKey := keys[prior].pub;
      var deadline := now + ROTATION_WINDOW;
      if epoch in keys { return Refused(IntegrityConflict); }
      if epoch in rotating && rotating[epoch].phase != Discarded { return Refused(IntegrityConflict); }
      keys := keys[epoch := KeyRow(key, true)];
      rotating := rotating - {epoch};
      rotating := rotating[epoch := Row(Candidate, prior, key, prepareId, deadline, None, false, 0)];
      assert rotating == old(rotating)[epoch := rotating[epoch]];
      reply := Prepared(epoch, Prepare(key, priorKey, deadline));
    }

    method ConsumePendingWrapSeen(epoch: Epoch)
      modifies this`parked, this`rotating
      ensures Tables() == ConsumeParked(old(Tables()), epoch)
    {
      if epoch in parked {
        parked := parked - {epoch};
        if epoch in rotating && Live(rotating[epoch]) {
          rotating := rotating[epoch := rotating[epoch].(wrapSeen := true)];
        }
      }
    }

    method AckReceived(epoch: Epoch, prepareId: EventId, now: int) returns (reply: Reply)
      modifies this`parked, this`rotating
      ensures (Tables(), reply) == OnAck(old(Tables()), epoch, prepareId, now)
    {
      if epoch !in rotating { return Refused(ConfirmRejected); }
      var row := rotating[epoch];
      if row.prepareId.Some? && row.prepareId.value != prepareId { return Refused(ConfirmRejected); }
      if row.phase == Acknowledged {
        ConsumePendingWrapSeen(epoch);
        return Done;
      }
      if row.phase != Candidate || now > row.deadline { return Refused(ConfirmRejected); }
      rotating := rotating[epoch := row.(phase := Acknowledged)];
      ConsumePendingWrapSeen(epoch);
      reply := Done;
    }

    method NewWrapDecrypted(epoch: Epoch, now: int)
      modifies this`parked, this`rotating
      ensures Tables() == NoteDecryptedNewWrap(old(Tables()), epoch, now)
    {
      if epoch in rotating && Live(rotating[epoch]) {
        rotating := rotating[epoch := rotating[epoch].(wrapSeen := true)];
      } else {
        parked := parked[epoch := now];
      }
    }

    method EventAccepted()
      modifies this`rotating
      ensures Tables() == NoteAcceptedEvent(old(Tables()))
    {
      if keyEpoch in rotating && rotating[keyEpoch].phase == Committed {
        var row := rotating[keyEpoch];
        rotating := rotating[keyEpoch := row.(accepted := row.accepted + 1)];
      }
    }

    method ConfirmSent() returns (reply: Reply)
      modifies this`rotating
      ensures (Tables(), reply) == MarkConfirmed(old(Tables()))
    {
      var live := LiveIn(rotating);
      if live == {} { return Refused(NothingToConfirm); }
      var epoch := Min(live);
      if rotating[epoch].phase == Confirmed { return Done; }
      if rotating[epoch].phase != Acknowledged { return Refused(NothingToConfirm); }
      rotating := rotating[epoch := rotating[epoch].(phase := Confirmed)];
      reply := Done;
    }

    method CommitReceived(epoch: Epoch, now: int) returns (reply: Reply)
      modifies this`rotating, this`keyEpoch
      ensures (Tables(), reply) == OnCommit(old(Tables()), epoch, now)
    {
      if epoch !in rotating {
        return if keyEpoch == epoch then Done else Refused(ConfirmRejected);
      }
      var row := rotating[epoch];
      if row.phase == Committed { return Done; }
      if row.phase != Confirmed { return Refused(ConfirmRejected); }
      rotating := rotating[epoch := row.(phase := Committed, committedAt := Some(now), accepted := 0)];
      keyEpoch := epoch;
      reply := Done;
    }

    // ---- Acking side ----

    /** The loop over `_peer_key_epochs`: the labelled current key, then the stored rows. */
    method FindPriorEpoch(prior: Key) returns (found: Option<Epoch>)
      ensures found == FindPrior(Tables(), prior)
    {
      if PeerKeyAt(Tables(), keyEpoch) == prior { return Some(keyEpoch); }
      ghost var hits := set e | e in keys && PeerRow(keys, e) && keys[e].pub == prior;
      var rest := set e | e in keys && PeerRow(keys, e);
      while rest != {}
        invariant hits <= rest && forall e | e in rest :: PeerRow(keys, e)
      {
        var epoch := Min(rest);
        if keys[epoch].pub == prior {
          assert epoch in hits && Min(hits) in rest;
          return Some(epoch);
        }
        rest := rest - {epoch};
      }
      found := None;
    }

    method RecordAckingRotation(epoch: Epoch, prior: Epoch, p: Prepare, id: EventId)
      modifies this`acking, this`firstSeen, this`quarantine
      ensures Tables() == RecordAcking(old(Tables()), epoch, prior, p, id)
      ensures GateTables() ==
              if epoch in old(acking) && old(acking)[epoch].phase != Discarded then old(GateTables())
              else ClearKnown(old(GateTables()), epoch)
    {
      if epoch in acking && acking[epoch].phase != Discarded { return; }
      acking := acking - {epoch};
      acking := acking[epoch := Row(Acknowledged, prior, p.newKey, Some(id), p.deadline, None, false, 0)];
      assert acking == old(acking)[epoch := acking[epoch]];
      quarantine := Without(quarantine, e => Resolved(e, epoch));
      firstSeen := firstSeen - set e | e in firstSeen && e <= epoch;
    }

    method Quarantine(epoch: Epoch, reason: Reason, now: int)
      modifies this`quarantine, this`nextId
      ensures GateTables() == Quarantined(old(GateTables()), epoch, reason, now)
    {
      quarantine := quarantine + [Entry(nextId, epoch, reason, now)];
      nextId := nextId + 1;
      if |quarantine| > QUARANTINE_CAP { quarantine := quarantine[|quarantine| - QUARANTINE_CAP..]; }
    }

    method PrepareReceived(p: Prepare, id: EventId, now: int) returns (reply: Reply)
      modifies this`keys, this`acking, this`firstSeen, this`quarantine, this`nextId
      ensures (Tables(), reply) == OnPrepare(old(Tables()), p, id, now)
      ensures GateTables() == PrepareGate(old(Tables()), old(GateTables()), p, id, now)
    {
      var found := FindPriorEpoch(p.prior);
      if found.None? { return Refused(UnknownPrior); }
      var prior := found.value;
      var epoch := prior + 1;
      if PeerRow(keys, epoch) {
        if keys[epoch].pub != p.newKey {
          Quarantine(epoch, ConflictingPrepares(p, id), now);
          return Refused(ConflictingPrepare);
        }
        RecordAckingRotation(epoch, prior, p, id);
        return AckFor(epoch);
      }
      if prior != Max(PeerEpochs(Tables())) { return Refused(StalePriorFingerprint); }
      if epoch in Own(Tables()) {
        if epoch !in rotating || Live(rotating[epoch]) {
          Quarantine(epoch, ConflictingPrepares(p, id), now);
          return Refused(ConflictingPrepare);
        }
        return Refused(StaleEpoch);
      }
      if epoch <= CurrentEpoch(Tables()) { return Refused(StaleEpoch); }
      if LiveIn(rotating) != {} || LiveIn(acking) != {} { return Refused(RotationInFlight); }
      if now > p.deadline { return Refused(PrepareExpired); }
      keys := keys[epoch := KeyRow(p.newKey, false)];
      RecordAckingRotation(epoch, prior, p, id);
      reply := AckFor(epoch);
    }

    method ConfirmReceived(epoch: Epoch) returns (reply: Reply)
      modifies this`acking
      ensures (Tables(), reply) == OnConfirm(old(Tables()), epoch)
    {
      if epoch !in acking { return Refused(ConfirmRejected); }
      var row := acking[epoch];
      if row.phase == Confirmed { return Done; }
      if row.phase != Acknowledged { return Refused(ConfirmRejected); }
      acking := acking[epoch := row.(phase := Confirmed)];
      reply := Done;
    }

    method CommitSent(now: int) returns (reply: Reply)
      modifies this`acking, this`keyEpoch, this`peerKey
      ensures (Tables(), reply) == MarkCommitted(old(Tables()), now)
    {
      var live := LiveIn(acking);
      if live == {} {
        return if CommittedIn(acking) != {} then Done else Refused(NothingToCommit);
      }
      var epoch := Min(live);
      var row := acking[epoch];
      if row.phase != Confirmed { return Refused(NothingToCommit); }
      acking := acking[epoch := row.(phase := Committed, committedAt := Some(now))];
      keyEpoch := epoch;
      peerKey := row.newKey;
      reply := Done;
    }

    // ---- Gate and quarantine ----

    method DataEventEpoch(epoch: Epoch, now: int) returns (verdict: Verdict)
      modifies this`firstSeen, this`quarantine, this`nextId
      ensures (GateTables(), verdict) == OnDataEpoch(old(Tables()), old(GateTables()), epoch, now)
    {
      if epoch <= CurrentEpoch(Tables()) { return Known; }
      if epoch !in firstSeen { firstSeen := firstSeen[epoch := Sighting(now, false)]; }
      firstSeen := CapFirstSeen(firstSeen);
      var rejected := false;
      if epoch in firstSeen {
        if firstSeen[epoch].rejected {
          rejected := true;
        } else if now > firstSeen[epoch].at + ROTATION_WINDOW {
          rejected := true;
        }
      }
      if rejected { firstSeen := firstSeen[epoch := firstSeen[epoch].(rejected := true)]; }
      Quarantine(epoch, if rejected then FutureEpochRejected else FutureEpoch, now);
      verdict := if rejected then RejectedForGood else Retryable;
    }

    method DiscardCandidate(epoch: Epoch)
      modifies this`rotating, this`keys
      ensures Tables() == DiscardRotating(old(Tables()), epoch)
    {
      if epoch in rotating && Live(rotating[epoch]) {
        rotating := rotating[epoch := rotating[epoch].(phase := Discarded)];
        if OwnRow(keys, epoch) { keys := keys - {epoch}; }
      }
    }

    method ResolveQuarantine(index: int, choice: Choice, now: int) returns (outcome: Resolution)
      modifies this`rotating, this`keys, this`acking, this`firstSeen, this`quarantine, this`nextId
      ensures (Tables(), GateTables(), outcome) == Resolve(old(Tables()), old(GateTables()), index, choice, now)
    {
      if index < 0 || index >= |quarantine| { return BadIndex; }
      if choice == Neither { return BadChoice; }
      var entry := quarantine[index];
      if !entry.reason.ConflictingPrepares? { return NotResolvable; }
      if choice == Mine {
        quarantine := Without(quarantine, (e: Entry) => e.id == entry.id);
        return KeptMine;
      }
      DiscardCandidate(entry.epoch);
      var reply := PrepareReceived(entry.reason.p, entry.reason.id, now);
      if reply.AckFor? { quarantine := Without(quarantine, (e: Entry) => e.id == entry.id); }
      outcome := TookTheirs(reply);
    }

    // ---- Maintenance ----

    /** The first transaction of `sweep`. */
    method CompactTables(now: int)
      modifies this`keys, this`rotating, this`acking, this`parked, this`quarantine
      ensures Tables() == Compact(old(Tables()), now)
      ensures GateTables() == SweepGate(old(GateTables()), now)
    {
      quarantine := Without(quarantine, e => Expired(e, now));
      parked := parked - set e | e in parked && parked[e] <= now - ROTATION_WINDOW;
      rotating := CompactCommitted(rotating, now - COMMITTED_RETENTION);
      acking := CompactCommitted(acking, now - COMMITTED_RETENTION);
      keys := CompactPeers(keys);
    }

    /** The retirement loop of `sweep`; `order` is the order in which its scan returned the committed rows. */
    method RetireOldKeys(now: int) returns (ghost order: seq<Epoch>)
      modifies this`keys, this`rotating
      ensures Tables() == RetireAll(old(Tables()), order, now)
      ensures forall e :: e in order <==> e in CommittedIn(old(rotating))
    {
      order := [];
      var snapshot := rotating;
      var rows := CommittedIn(snapshot);
      while rows != {}
        invariant Tables() == RetireAll(old(Tables()), order, now)
        invariant rows <= CommittedIn(snapshot) && forall e | e in rows :: e in rotating && rotating[e] == snapshot[e]
        invariant forall e :: e in CommittedIn(snapshot) <==> e in order || e in rows
      {
        var epoch :| epoch in rows;
        rows := rows - {epoch};
        RetireOneMore(old(Tables()), order, epoch, now);
        order := order + [epoch];
        RetireRow(epoch, snapshot[epoch], now);
      }
    }

    method RetireRow(epoch: Epoch, row: Row, now: int)
      requires epoch in rotating && rotating[epoch] == row && row.phase == Committed
      modifies this`keys, this`rotating
      ensures Tables() == RetireOne(old(Tables()), epoch, now)
      ensures rotating == old(rotating) || rotating == old(rotating) - {epoch}
    {
      if RetireDue(row, now) && OwnRow(keys, epoch) {
        if OwnRow(keys, row.prior) { keys := keys - {row.prior}; }
        rotating := rotating - {epoch};
      }
    }

    /** Compacts, then discards one timed-out candidate or else retires old keys. */
    method Sweep(now: int) returns (timedOut: Option<Epoch>, ghost order: seq<Epoch>)
      modifies this`keys, this`rotating, this`acking, this`parked, this`quarantine
      ensures Tables() == RotationCore.Sweep(old(Tables()), order, false, now)
      ensures GateTables() == SweepGate(old(GateTables()), now)
      ensures timedOut == None <==> NoneDue(old(Tables()), now)
      ensures timedOut != None ==> Due(old(Tables()), timedOut.value, now)
      ensures timedOut != None && RotationInvariant.Valid(old(Tables())) ==>
                && rotating[timedOut.value := old(rotating)[timedOut.value]] == Compact(old(Tables()), now).rotating
                && timedOut.value in rotating && rotating[timedOut.value].phase == Discarded && timedOut.value !in keys
      ensures timedOut == None ==> forall e :: e in order <==> e in CommittedIn(Compact(old(Tables()), now).rotating)
    {
      DueIff(Tables(), now);
      CompactTables(now);
      var late := TimedOut(Tables(), now);
      if late != {} {
        DiscardCandidate(Min(late));
        return Some(Min(late)), [];
      }
      timedOut := None;
      order := RetireOldKeys(now);
    }
  }

  /** `_try_unseal`: the relationship's own current epoch first when it is one of
      ours, then the newest older key; otherwise the two newest.  It finds a key
      exactly when one of the two tried epochs can open the envelope. */
  method TryUnseal(m: RotationManager, wraps: set<Key>) returns (found: Option<Epoch>)
    ensures found.Some? <==> Opens(m.Tables(), wraps)
    ensures found.Some? ==> found.value in Tried(m.Tables()) && m.keys[found.value].pub in wraps
    ensures OwnRow(m.keys, m.keyEpoch) && m.keys[m.keyEpoch].pub in wraps ==> found == Some(m.keyEpoch)
  {
    var own := Own(m.Tables());
    if own == {} { return None; }
    var first := if m.keyEpoch in own then m.keyEpoch else Max(own);
    var candidates := [first];
    var lower := set e | e in own && e < first;
    if lower != {} { candidates := candidates + [Max(lower)]; }
    assert m.keyEpoch !in own ==> lower == own - {first};
    assert forall e :: e in candidates <==> e in Tried(m.Tables());
    var i := 0;
    while i < |candidates|
      invariant 0 <= i <= |candidates|
      invariant forall j | 0 <= j < i :: m.keys[candidates[j]].pub !in wraps
    {
      assert candidates[i] in Tried(m.Tables());
      if m.keys[candidates[i]].pub in wraps { return Some(candidates[i]); }
      i := i + 1;
    }
    found := None;
  }

  lemma {:induction false} RetireOneMore(s: Store, order: seq<Epoch>, epoch: Epoch, now: int)
    ensures RetireAll(s, order + [epoch], now) == RetireOne(RetireAll(s, order, now), epoch, now)
    decreases |order|
  {
    if order == [] {
      assert [] + [epoch] == [epoch] && [epoch][1..] == [];
    } else {
      assert (order + [epoch])[0] == order[0] && (order + [epoch])[1..] == order[1..] + [epoch];
      RetireOneMore(RetireOne(s, order[0], now), order[1..], epoch, now);
    }
  }
}
