// The epoch gate and the human's desk told by their rows: which envelope is held back
// and for how long, which rows the caps drop, and what a human's choice does.

module RotationDesk {
  import opened Base
  import opened RotationCore
  import opened RotationInvariant
  import opened RotationGate
  import opened RotationTold

  // ---- The caps ----

  /** Open sightings that came after `e`'s, the greater epoch counting as later. */
  function Later(fs: map<Epoch, Sighting>, e: Epoch): set<Epoch>
    requires e in fs
  {
    set d | d in fs && !fs[d].rejected && (fs[e].at < fs[d].at || (fs[e].at == fs[d].at && e < d))
  }

  lemma LaterIs(fs: map<Epoch, Sighting>, e: Epoch)
    requires e in fs
    ensures NewerThan(fs, e) == Later(fs, e)
  {
  }

  /** The cap drops a sighting exactly when it is open and a thousand later ones are. */
  lemma CapIff(fs: map<Epoch, Sighting>, e: Epoch)
    ensures e in CapFirstSeen(fs) <==> e in fs && (fs[e].rejected || |Later(fs, e)| < 1000)
    ensures e in CapFirstSeen(fs) ==> CapFirstSeen(fs)[e] == fs[e]
  {
    if e in fs { LaterIs(fs, e); }
  }

  /** A quarantine row is added at the end under the next id, and the oldest rows past
      fifty go. */
  lemma QuarantinedIs(g: Gate, epoch: Epoch, reason: Reason, now: int)
    ensures var h := Quarantined(g, epoch, reason, now);
            var all := g.quarantine + [Entry(g.nextId, epoch, reason, now)];
            && h.firstSeen == g.firstSeen && h.nextId == g.nextId + 1
            && h.quarantine == if |all| <= 50 then all else all[|all| - 50..]
  {
  }

  // ---- The gate ----

  /** Some key of either side is known for an epoch that is at least this one. */
  ghost predicate Reached(s: Store, e: Epoch) { e <= s.keyEpoch || exists d: Epoch :: d in s.keys && e <= d }

  lemma ReachedIff(s: Store, e: Epoch)
    ensures Reached(s, e) <==> e <= CurrentEpoch(s)
  {
    var all := Own(s) + PeerEpochs(s);
    assert s.keyEpoch in all;
    var top := Max(all);
    assert top in all && (top == s.keyEpoch || top in s.keys);
    if d: Epoch :| d in s.keys && e <= d { assert OwnRow(s.keys, d) || PeerRow(s.keys, d); assert d in all; }
  }

  // ---- The refusals of the two ends ----

  /** The peer has a key for a later epoch than this one. */
  ghost predicate PeerPast(s: Store, k: Epoch) { k < s.keyEpoch || exists d: Epoch :: PeerRow(s.keys, d) && k < d }

  lemma PeerPastIff(s: Store, k: Epoch)
    requires k in PeerEpochs(s)
    ensures PeerPast(s, k) <==> k != Max(PeerEpochs(s))
  {
    var top := Max(PeerEpochs(s));
    assert top in PeerEpochs(s) && s.keyEpoch in PeerEpochs(s);
    if d: Epoch :| PeerRow(s.keys, d) && k < d { assert d in PeerEpochs(s); }
    if k < top { assert top == s.keyEpoch || PeerRow(s.keys, top); }
  }

  /** The answers to a prepare whose prior key is the peer's of epoch `k`, each with its
      exact condition: a key already stored for the next epoch is acknowledged again or in
      conflict; a later peer key makes the prior stale; our own key there is a conflict
      while its rotation is under way and stale after it; and so on to the deadline. */
  lemma PrepareAnswers(s: Store, p: Prepare, id: EventId, now: int, k: Epoch)
    requires FindPrior(s, p.prior) == Some(k)
    ensures var (t, reply) := OnPrepare(s, p, id, now);
            var (n, late) := (k + 1, PeerPast(s, k));
            var kept := PeerRow(s.keys, n);
            var own := OwnRow(s.keys, n);
            && (reply == Refused(StalePriorFingerprint) <==> !kept && late)
            && (reply == Refused(ConflictingPrepare) <==>
                  || (kept && s.keys[n].pub != p.newKey)
                  || (!kept && !late && own && (n !in s.rotating || IsLive(s.rotating, n))))
            && (reply == Refused(StaleEpoch) <==>
                  !kept && !late && (if own then n in s.rotating && !IsLive(s.rotating, n) else Reached(s, n)))
            && (reply == Refused(RotationInFlight) <==> !kept && !late && !own && !Reached(s, n) && !Idle(s))
            && (reply == Refused(PrepareExpired) <==> !kept && !late && !own && !Reached(s, n) && Idle(s) && p.deadline < now)
            && (reply == AckFor(n) <==>
                  (kept && s.keys[n].pub == p.newKey) || (!kept && !late && !own && !Reached(s, n) && Idle(s) && now <= p.deadline))
            && (!reply.AckFor? ==> t == s)
  {
    ReachedIff(s, k + 1);
    PeerPastIff(s, k);
    IdleIff(s);
  }

  /** The refusals to begin: something under way, no own key at all, or a finished
      rotation already recorded for the epoch. */
  lemma BeginAnswers(s: Store, key: Key, prepareId: Option<EventId>, now: int)
    ensures var (t, reply) := Begin(s, key, prepareId, now);
            var e := CurrentEpoch(s) + 1;
            && (reply == Refused(RotationInFlight) <==> !Idle(s))
            && (reply == Refused(NoOwnKey) <==> Idle(s) && forall d: Epoch :: !OwnRow(s.keys, d))
            && (reply == Refused(IntegrityConflict) <==>
                  Idle(s) && (exists d: Epoch :: OwnRow(s.keys, d)) && e in s.rotating && s.rotating[e].phase != Discarded)
            && (!reply.Prepared? ==> t == s)
  {
    IdleIff(s);
    var e := CurrentEpoch(s) + 1;
    ReachedIff(s, e);
    assert e !in s.keys;
    assert forall d: Epoch :: OwnRow(s.keys, d) <==> d in Own(s);
    if Own(s) != {} {
      assert Max(Own(s)) in Own(s) && OwnRow(s.keys, Max(Own(s)));
      ReachedIff(s, Max(Own(s)));
    }
  }

  /** Since when an epoch has been waited for. */
  function Since(g: Gate, e: Epoch, now: int): int { if e in g.firstSeen then g.firstSeen[e].at else now }

  /** The gate passes exactly the epochs that are reached.  Another is held back for a day
      from its first sighting, then rejected for good, unless a thousand later sightings
      displaced the first one; each call leaves a quarantine row that says so. */
  lemma GateIff(s: Store, g: Gate, e: Epoch, now: int)
    ensures var (h, v) := OnDataEpoch(s, g, e, now);
            var gone := e in g.firstSeen && (g.firstSeen[e].rejected || (g.firstSeen[e].at + 86400 < now && |Later(g.firstSeen, e)| < 1000));
            && (v == Known <==> Reached(s, e))
            && (v == Known ==> h == g)
            && (v == RejectedForGood <==> !Reached(s, e) && gone)
            && (v == Retryable <==> !Reached(s, e) && !gone)
            && (v != Known ==>
                  && h.quarantine != [] && h.nextId == g.nextId + 1
                  && h.quarantine[|h.quarantine| - 1] == Entry(g.nextId, e, if gone then FutureEpochRejected else FutureEpoch, now)
                  && (e in h.firstSeen ==> h.firstSeen[e] == Sighting(Since(g, e, now), gone)))
  {
    ReachedIff(s, e);
    if e in g.firstSeen { CapIff(g.firstSeen, e); }
    var seen := if e in g.firstSeen then g.firstSeen else g.firstSeen[e := Sighting(now, false)];
    CapIff(seen, e);
  }

  /** Other epochs' sightings are dropped by the cap alone. */
  lemma OthersKept(s: Store, g: Gate, e: Epoch, now: int, d: Epoch)
    requires d != e && d in g.firstSeen
    ensures var h := OnDataEpoch(s, g, e, now).0;
            d in h.firstSeen ==> h.firstSeen[d] == g.firstSeen[d]
    ensures var h := OnDataEpoch(s, g, e, now).0;
            g.firstSeen[d].rejected ==> d in h.firstSeen
  {
    CapIff(if e in g.firstSeen then g.firstSeen else g.firstSeen[e := Sighting(now, false)], d);
  }

  // ---- What clears them ----

  /** A prepare that is taken up for an epoch clears what waited for epochs up to it, and
      nothing else; one that conflicts is put before the human with its own words. */
  lemma PrepareTells(s: Store, g: Gate, p: Prepare, id: EventId, now: int)
    requires Valid(s)
    ensures var (t, reply) := OnPrepare(s, p, id, now);
            var h := PrepareGate(s, g, p, id, now);
            && (t != s ==>
                  && h.nextId == g.nextId
                  && (forall e: Epoch :: e in h.firstSeen <==> e in g.firstSeen && s.keyEpoch + 1 < e)
                  && (forall e: Epoch | e in h.firstSeen :: h.firstSeen[e] == g.firstSeen[e])
                  && (forall x: Entry :: x in h.quarantine <==> x in g.quarantine && !(x.reason == FutureEpoch && x.epoch <= s.keyEpoch + 1)))
            && (reply == Refused(ConflictingPrepare) ==>
                  h.quarantine != [] && h.nextId == g.nextId + 1
                  && var x := h.quarantine[|h.quarantine| - 1]; x.id == g.nextId && x.reason == ConflictingPrepares(p, id) && x.receivedAt == now)
            && (t == s && reply != Refused(ConflictingPrepare) ==> h == g)
  {
    if OnPrepare(s, p, id, now).0 != s {
      FreshPrepareShape(s, p, id, now);
      TakenUpGate(s, g, p, id, now);
    } else if OnPrepare(s, p, id, now).1 == Refused(ConflictingPrepare) {
      var e := ConflictKept(s, g, p, id, now);
    } else {
      NotTakenUp(s, g, p, id, now);
    }
  }

  lemma TakenUpGate(s: Store, g: Gate, p: Prepare, id: EventId, now: int)
    requires Valid(s) && OnPrepare(s, p, id, now) == (TakenUp(s, p, id), AckFor(s.keyEpoch + 1)) && s.keyEpoch + 1 !in s.keys
    ensures PrepareGate(s, g, p, id, now) == ClearKnown(g, s.keyEpoch + 1)
  {
    assert TakenUp(s, p, id).acking[s.keyEpoch + 1].phase == Acknowledged;
    assert !IsLive(s.acking, s.keyEpoch + 1);
  }

  lemma ConflictKept(s: Store, g: Gate, p: Prepare, id: EventId, now: int) returns (e: Epoch)
    requires OnPrepare(s, p, id, now).1 == Refused(ConflictingPrepare)
    ensures PrepareGate(s, g, p, id, now) == Quarantined(g, e, ConflictingPrepares(p, id), now)
  {
    e := FindPrior(s, p.prior).value + 1;
  }

  lemma NotTakenUp(s: Store, g: Gate, p: Prepare, id: EventId, now: int)
    requires OnPrepare(s, p, id, now).0 == s && OnPrepare(s, p, id, now).1 != Refused(ConflictingPrepare)
    ensures PrepareGate(s, g, p, id, now) == g
  {
    if OnPrepare(s, p, id, now).1.AckFor? {
      var prior := FindPrior(s, p.prior).value;
      AckedAgain(s, prior + 1, prior, p, id);
    }
  }

  lemma AckedAgain(s: Store, epoch: Epoch, prior: Epoch, p: Prepare, id: EventId)
    requires RecordAcking(s, epoch, prior, p, id) == s
    ensures epoch in s.acking && s.acking[epoch].phase != Discarded
  {
    var row := Row(Acknowledged, prior, p.newKey, Some(id), p.deadline, None, false, 0);
    assert s.acking[epoch := row][epoch] == row;
  }

  /** A sweep removes the rejections received thirty days ago or earlier, and nothing else. */
  lemma SweepTells(g: Gate, now: int)
    ensures var h := SweepGate(g, now);
            && h.firstSeen == g.firstSeen && h.nextId == g.nextId
            && forall x: Entry :: x in h.quarantine <==> x in g.quarantine && !(x.reason == FutureEpochRejected && x.receivedAt + 2592000 <= now)
  {
  }

  // ---- The human's choice ----

  /** "Mine" only closes the entry; "theirs" gives up one's own rotation for that epoch,
      then takes the quarantined prepare as if it had just come, and closes the entry
      exactly when that was answered with an ack.  Anything else changes nothing. */
  lemma ResolveIff(s: Store, g: Gate, index: int, choice: Choice, now: int)
    ensures var (t, h, outcome) := Resolve(s, g, index, choice, now);
            var there := 0 <= index < |g.quarantine|;
            && (outcome == BadIndex <==> !there)
            && (outcome == BadChoice <==> there && choice == Neither)
            && (outcome == NotResolvable <==> there && choice != Neither && !g.quarantine[index].reason.ConflictingPrepares?)
            && (outcome == KeptMine <==> there && choice == Mine && g.quarantine[index].reason.ConflictingPrepares?)
            && (outcome.TookTheirs? <==> there && choice == Theirs && g.quarantine[index].reason.ConflictingPrepares?)
            && (outcome != KeptMine && !outcome.TookTheirs? ==> t == s && h == g)
            && (outcome == KeptMine ==>
                  && t == s && h.firstSeen == g.firstSeen && h.nextId == g.nextId
                  && forall x: Entry :: x in h.quarantine <==> x in g.quarantine && x.id != g.quarantine[index].id)
            && (outcome.TookTheirs? ==>
                  && (t, outcome.reply) == ResolveTheirs(s, g.quarantine[index].epoch, g.quarantine[index].reason.p, g.quarantine[index].reason.id, now)
                  && (outcome.reply.AckFor? ==> forall x: Entry | x in h.quarantine :: x.id != g.quarantine[index].id))
  {
  }

  /** Giving up a rotation marks its row and deletes its private key, whatever its phase
      under way; a finished one stays. */
  lemma GiveUpIff(s: Store, e: Epoch)
    requires Valid(s)
    ensures var t := DiscardRotating(s, e);
            if e in s.rotating && s.rotating[e].phase in {Candidate, Acknowledged, Confirmed}
            then t == s.(rotating := s.rotating[e := s.rotating[e].(phase := Discarded)], keys := s.keys - {e}) && OwnRow(s.keys, e)
            else t == s
  {
    if IsLive(s.rotating, e) { assert RotatingRowOk(s, e, s.rotating[e]); assert e in Own(s); }
  }
}
