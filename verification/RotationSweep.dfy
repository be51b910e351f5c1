// Maintenance told by the rows themselves: which rotation a sweep times out, what it
// deletes, and what survives it.

module RotationSweep {
  import opened Base
  import opened RotationCore
  import opened RotationInvariant

  // ---- Compaction ----

  ghost predicate NewestCommitted(m: map<Epoch, Row>, e: Epoch) {
    forall d: Epoch | d in m && m[d].phase == Committed :: d <= e
  }

  ghost predicate TwoNewerPeers(keys: map<Epoch, KeyRow>, e: Epoch) {
    exists a: Epoch, b: Epoch :: a in keys && b in keys && !keys[a].mine && !keys[b].mine && e < a < b
  }

  /** A committed row goes thirty days after its commit, unless it is the newest one. */
  ghost predicate RowKept(m: map<Epoch, Row>, e: Epoch, now: int)
    requires e in m
  {
    m[e].phase != Committed || NewestCommitted(m, e) || m[e].committedAt == None || now - 2592000 < m[e].committedAt.value
  }

  /** Compaction removes old finished rows, peer keys with two newer ones, and signals
      parked for a day, and nothing else; it changes no row. */
  lemma CompactIff(s: Store, now: int)
    ensures var t := Compact(s, now);
            && t.keyEpoch == s.keyEpoch && t.peerKey == s.peerKey
            && (forall e: Epoch :: e in t.rotating <==> e in s.rotating && RowKept(s.rotating, e, now))
            && (forall e: Epoch :: e in t.acking <==> e in s.acking && RowKept(s.acking, e, now))
            && (forall e: Epoch :: e in t.keys <==> e in s.keys && (s.keys[e].mine || !TwoNewerPeers(s.keys, e)))
            && (forall e: Epoch :: e in t.parked <==> e in s.parked && now - 86400 < s.parked[e])
  {
    forall e: Epoch ensures e in Compact(s, now).rotating <==> e in s.rotating && RowKept(s.rotating, e, now) { KeptIff(s.rotating, e, now); }
    forall e: Epoch ensures e in Compact(s, now).acking <==> e in s.acking && RowKept(s.acking, e, now) { KeptIff(s.acking, e, now); }
    forall e: Epoch | e in s.keys ensures OldPeerRow(s.keys, e) <==> !s.keys[e].mine && TwoNewerPeers(s.keys, e) { PeersIff(s.keys, e); }
  }

  lemma KeptIff(m: map<Epoch, Row>, e: Epoch, now: int)
    ensures e in CompactCommitted(m, now - COMMITTED_RETENTION) <==> e in m && RowKept(m, e, now)
  {
  }

  lemma PeersIff(keys: map<Epoch, KeyRow>, e: Epoch)
    requires e in keys
    ensures OldPeerRow(keys, e) <==> !keys[e].mine && TwoNewerPeers(keys, e)
  {
    if a, b :| a in keys && b in keys && PeerRow(keys, a) && PeerRow(keys, b) && e < a < b {
      assert !keys[a].mine && !keys[b].mine;
    }
    if a: Epoch, b: Epoch :| a in keys && b in keys && !keys[a].mine && !keys[b].mine && e < a < b {
      assert PeerRow(keys, a) && PeerRow(keys, b);
    }
  }

  lemma CompactRows(s: Store, now: int)
    ensures var t := Compact(s, now);
            && (forall e: Epoch | e in t.rotating :: e in s.rotating && t.rotating[e] == s.rotating[e])
            && (forall e: Epoch | e in t.acking :: e in s.acking && t.acking[e] == s.acking[e])
            && (forall e: Epoch | e in t.keys :: e in s.keys && t.keys[e] == s.keys[e])
            && (forall e: Epoch | e in s.rotating && s.rotating[e].phase != Committed :: e in t.rotating)
            && (forall e: Epoch | OwnRow(s.keys, e) :: e in t.keys)
  {
    CommittedRowsGo(s.rotating, now - COMMITTED_RETENTION);
    CommittedRowsGo(s.acking, now - COMMITTED_RETENTION);
    PeerRowsGo(s.keys);
  }

  lemma CommittedRowsGo(m: map<Epoch, Row>, cutoff: int)
    ensures var t := CompactCommitted(m, cutoff);
            && (forall e: Epoch | e in t :: e in m && t[e] == m[e])
            && (forall e: Epoch | e in m && m[e].phase != Committed :: e in t)
  {
  }

  lemma PeerRowsGo(keys: map<Epoch, KeyRow>)
    ensures var t := CompactPeers(keys);
            && (forall e: Epoch | e in t :: e in keys && t[e] == keys[e])
            && (forall e: Epoch | OwnRow(keys, e) :: e in t)
  {
  }

  // ---- Time-outs ----

  /** A candidate that has reached its deadline. */
  predicate Due(s: Store, e: Epoch, now: int) { e in s.rotating && s.rotating[e].phase == Candidate && s.rotating[e].deadline <= now }

  ghost predicate NoneDue(s: Store, now: int) { forall e: Epoch :: !Due(s, e, now) }

  /** Compaction leaves the candidates alone, so it does not matter when they are looked at. */
  lemma DueIff(s: Store, now: int)
    ensures forall e: Epoch :: e in TimedOut(Compact(s, now), now) <==> Due(s, e, now)
    ensures TimedOut(Compact(s, now), now) == {} <==> NoneDue(s, now)
  {
    CompactRows(s, now);
    forall e: Epoch ensures e in TimedOut(Compact(s, now), now) <==> Due(s, e, now) {}
  }

  lemma {:induction false} RetireAllSpares(s: Store, order: seq<Epoch>, now: int, e: Epoch)
    requires Valid(s)
    ensures var t := RetireAll(s, order, now);
            && (e in t.rotating ==> e in s.rotating && t.rotating[e] == s.rotating[e])
            && (e in s.rotating && s.rotating[e].phase != Committed ==> e in t.rotating)
            && (IsLive(s.rotating, e) ==> OwnRow(t.keys, e) && t.keys[e] == s.keys[e])
    decreases |order|
  {
    if order != [] {
      RetireOneKeepsValid(s, order[0], now);
      RetireOneSpares(s, order[0], now, e);
      RetireAllSpares(RetireOne(s, order[0], now), order[1..], now, e);
    }
  }

  lemma RetireOneSpares(s: Store, d: Epoch, now: int, e: Epoch)
    requires Valid(s)
    ensures var t := RetireOne(s, d, now);
            && (e in t.rotating ==> e in s.rotating && t.rotating[e] == s.rotating[e])
            && (e in s.rotating && s.rotating[e].phase != Committed ==> e in t.rotating)
            && (IsLive(s.rotating, e) ==> IsLive(t.rotating, e) && OwnRow(t.keys, e) && t.keys[e] == s.keys[e])
  {
    if IsLive(s.rotating, e) { assert RotatingRowOk(s, e, s.rotating[e]); }
  }

  /** Whatever its state, a sweep discards a rotation only as a candidate that has reached
      its deadline. */
  lemma DiscardsOnlyDue(s: Store, order: seq<Epoch>, stopped: bool, now: int, e: Epoch)
    requires Valid(s)
    ensures var t := Sweep(s, order, stopped, now);
            InPhaseOf(t, e, Discarded) ==> InPhaseOf(s, e, Discarded) || Due(s, e, now)
    ensures var t := Sweep(s, order, stopped, now);
            IsLive(s.rotating, e) && !Due(s, e, now) ==> e in t.rotating && t.rotating[e] == s.rotating[e]
  {
    CompactRows(s, now);
    CompactKeepsValid(s, now);
    DueIff(s, now);
    var s1 := Compact(s, now);
    if TimedOut(s1, now) != {} { assert Min(TimedOut(s1, now)) in TimedOut(s1, now); }
    RetireAllSpares(s1, order, now, e);
  }

  predicate InPhaseOf(s: Store, e: Epoch, phase: Phase) { e in s.rotating && s.rotating[e].phase == phase }

  /** While no candidate has reached its deadline, a rotation under way survives every
      sweep, row and private key. */
  lemma SweepSpares(s: Store, order: seq<Epoch>, stopped: bool, now: int, e: Epoch)
    requires Valid(s) && NoneDue(s, now) && IsLive(s.rotating, e)
    ensures var t := Sweep(s, order, stopped, now);
            && e in t.rotating && t.rotating[e] == s.rotating[e]
            && OwnRow(s.keys, e) && e in t.keys && t.keys[e] == s.keys[e]
  {
    CompactRows(s, now);
    CompactKeepsValid(s, now);
    DueIff(s, now);
    RetireAllSpares(Compact(s, now), order, now, e);
    assert RotatingRowOk(s, e, s.rotating[e]);
  }

  /** Once a candidate has reached its deadline, a sweep that is not stopped discards it,
      that one rotation only, with its private key, and retires nothing. */
  lemma SweepDiscards(s: Store, order: seq<Epoch>, now: int, e: Epoch)
    requires Valid(s) && Due(s, e, now)
    ensures var t := Sweep(s, order, false, now);
            && e in t.rotating && t.rotating[e] == s.rotating[e].(phase := Discarded) && e !in t.keys
            && (forall d: Epoch | d != e && d in s.rotating && RowKept(s.rotating, d, now) :: d in t.rotating && t.rotating[d] == s.rotating[d])
            && (forall d: Epoch | d != e && OwnRow(s.keys, d) :: d in t.keys && t.keys[d] == s.keys[d])
  {
    CompactIff(s, now);
    CompactRows(s, now);
    CompactKeepsValid(s, now);
    DueIff(s, now);
    var late := TimedOut(Compact(s, now), now);
    assert IsLive(s.rotating, e) && RotatingRowOk(s, e, s.rotating[e]);
    assert e in late && Min(late) in late && IsLive(s.rotating, Min(late));
  }

  // ---- Deletion of old keys ----

  /** A finished rotation's old key is due a day after its commit, or after a hundred events. */
  predicate Overdue(r: Row, now: int) {
    r.accepted >= 100 || (r.committedAt != None && r.committedAt.value + 86400 <= now)
  }

  /** What has gone since: a private key as the prior of a finished rotation that was
      overdue, and whose own new key was held. */
  ghost predicate RetiredFor(s: Store, x: Epoch, now: int, d: Epoch) {
    && InPhaseOf(s, d, Committed) && Overdue(s.rotating[d], now) && s.rotating[d].prior == x && OwnRow(s.keys, d)
  }

  lemma {:induction false} KeysGoAsPriors(s: Store, order: seq<Epoch>, now: int, x: Epoch)
    ensures var t := RetireAll(s, order, now);
            && (forall e: Epoch | e in t.keys :: e in s.keys && t.keys[e] == s.keys[e])
            && (forall e: Epoch | e in t.rotating :: e in s.rotating && t.rotating[e] == s.rotating[e])
            && (OwnRow(s.keys, x) && x !in t.keys ==> exists d: Epoch :: RetiredFor(s, x, now, d))
            && (x in s.keys && !s.keys[x].mine ==> x in t.keys)
    decreases |order|
  {
    if order != [] {
      var d := order[0];
      var s1 := RetireOne(s, d, now);
      KeysGoAsPriors(s1, order[1..], now, x);
      if OwnRow(s.keys, x) && x !in s1.keys {
        assert RetiredFor(s, x, now, d);
      } else if OwnRow(s.keys, x) && x !in RetireAll(s, order, now).keys {
        var c :| RetiredFor(s1, x, now, c);
        assert RetiredFor(s, x, now, c);
      }
    }
  }

  /** No sweep deletes a private key but that of a timed-out candidate, or the prior one
      of a finished, overdue rotation whose new key is still held. */
  lemma SweepDeletes(s: Store, order: seq<Epoch>, stopped: bool, now: int, x: Epoch)
    requires Valid(s) && OwnRow(s.keys, x) && x !in Sweep(s, order, stopped, now).keys
    ensures !stopped && (Due(s, x, now) || (NoneDue(s, now) && exists d: Epoch :: RetiredFor(s, x, now, d)))
  {
    var s1 := Compact(s, now);
    CompactRows(s, now);
    DueIff(s, now);
    var late := TimedOut(s1, now);
    if late != {} {
      assert Min(late) in late;
    } else {
      KeysGoAsPriors(s1, order, now, x);
      if !stopped {
        var d :| RetiredFor(s1, x, now, d);
        assert RetiredFor(s, x, now, d);
      }
    }
  }

  // ---- Confirms wait ----

  /** An envelope wrapped to the new key of `e` was decrypted in the run. */
  ghost predicate WrapMet(ops: seq<(Op, int)>, e: Epoch) { exists i :: 0 <= i < |ops| && ops[i].0 == DataOp(e) }

  /** An ack for `e` was met in the run. */
  ghost predicate AckMet(ops: seq<(Op, int)>, e: Epoch) { exists i :: 0 <= i < |ops| && ops[i].0.AckOp? && ops[i].0.epoch == e }

  predicate Seen(s: Store, e: Epoch) { e in s.parked || (e in s.rotating && s.rotating[e].wrapSeen) }

  predicate Acked(s: Store, e: Epoch) {
    e in s.rotating && (s.rotating[e].phase == Acknowledged || s.rotating[e].phase == Confirmed || s.rotating[e].phase == Committed)
  }

  lemma SweepTraces(s: Store, order: seq<Epoch>, stopped: bool, now: int, e: Epoch)
    ensures Seen(Sweep(s, order, stopped, now), e) ==> Seen(s, e)
    ensures Acked(Sweep(s, order, stopped, now), e) ==> Acked(s, e)
  {
    CompactRows(s, now);
    KeysGoAsPriors(Compact(s, now), order, now, e);
    RetireParked(Compact(s, now), order, now);
  }

  lemma {:induction false} RetireParked(s: Store, order: seq<Epoch>, now: int)
    ensures RetireAll(s, order, now).parked == s.parked
    decreases |order|
  {
    if order != [] { RetireParked(RetireOne(s, order[0], now), order[1..], now); }
  }

  lemma AckTraces(s: Store, op: Op, now: int, e: Epoch)
    requires op.AckOp?
    ensures Seen(Apply(s, op, now), e) ==> Seen(s, e)
    ensures Acked(Apply(s, op, now), e) ==> Acked(s, e) || op.epoch == e
  {
  }

  lemma BeginTraces(s: Store, op: Op, now: int, e: Epoch)
    requires op.BeginOp?
    ensures Seen(Apply(s, op, now), e) ==> Seen(s, e)
    ensures Acked(Apply(s, op, now), e) ==> Acked(s, e)
  {
  }

  lemma PrepareTraces(s: Store, p: Prepare, id: EventId, now: int)
    ensures OnPrepare(s, p, id, now).0.rotating == s.rotating && OnPrepare(s, p, id, now).0.parked == s.parked
  {
  }

  lemma PhaseTraces(s: Store, op: Op, now: int, e: Epoch)
    requires op.DataOp? || op.ConfirmOp? || op.CommitOp? || op.PeerConfirmOp? || op.MarkCommittedOp?
    ensures Seen(Apply(s, op, now), e) ==> Seen(s, e) || op == DataOp(e)
    ensures Acked(Apply(s, op, now), e) ==> Acked(s, e)
  {
  }

  lemma ApplyTraces(s: Store, op: Op, now: int, e: Epoch)
    ensures Seen(Apply(s, op, now), e) ==> Seen(s, e) || op == DataOp(e)
    ensures Acked(Apply(s, op, now), e) ==> Acked(s, e) || (op.AckOp? && op.epoch == e)
  {
    match op
    case AckOp(_, _) => AckTraces(s, op, now, e);
    case SweepOp(order, stopped) => SweepTraces(s, order, stopped, now, e);
    case BeginOp(_, _) => BeginTraces(s, op, now, e);
    case PrepareOp(p, id) => PrepareTraces(s, p, id, now);
    case TheirsOp(d, p, id) => PrepareTraces(DiscardRotating(s, d), p, id, now);
    case _ => PhaseTraces(s, op, now, e);
  }

  lemma {:induction false} RunTraces(s: Store, ops: seq<(Op, int)>, e: Epoch)
    ensures Seen(RunOps(s, ops), e) ==> Seen(s, e) || WrapMet(ops, e)
    ensures Acked(RunOps(s, ops), e) ==> Acked(s, e) || AckMet(ops, e)
    decreases |ops|
  {
    if ops != [] {
      ApplyTraces(s, ops[0].0, ops[0].1, e);
      RunTraces(Apply(s, ops[0].0, ops[0].1), ops[1..], e);
      if i :| 0 <= i < |ops[1..]| && ops[1..][i].0 == DataOp(e) { assert ops[i + 1].0 == DataOp(e); }
      if i :| 0 <= i < |ops[1..]| && ops[1..][i].0.AckOp? && ops[1..][i].0.epoch == e {
        assert ops[i + 1].0.AckOp? && ops[i + 1].0.epoch == e;
      }
    }
  }

  /** Over every run from pairing: a confirm is built only after an ack for its epoch came
      in and an envelope wrapped to its new key was decrypted. */
  lemma ConfirmWaits(own: Key, peer: Key, ops: seq<(Op, int)>, e: Epoch)
    ensures BuildConfirm(RunOps(Paired(own, peer), ops)) == EpochReply(e) ==> WrapMet(ops, e) && AckMet(ops, e)
  {
    RunTraces(Paired(own, peer), ops, e);
    var t := RunOps(Paired(own, peer), ops);
    if BuildConfirm(t) == EpochReply(e) { assert Min(LiveIn(t.rotating)) in LiveIn(t.rotating); }
  }
}
