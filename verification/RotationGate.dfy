// The data-plane epoch gate and the human quarantine of one relationship:
// `unknown_epoch_first_seen` and `rotation_quarantine` (crypto/rotation.py).

module RotationGate {
  import opened Base
  import opened RotationCore
  import opened RotationInvariant

  const FIRST_SEEN_CAP: nat := 1000
  const QUARANTINE_CAP: nat := 50
  const REJECTED_RETENTION: int := 30 * 24 * 3600

  /** An `unknown_epoch_first_seen` row. */
  datatype Sighting = Sighting(at: int, rejected: bool)

  datatype Reason =
    | ConflictingPrepares(p: Prepare, id: EventId)
    | FutureEpoch
    | FutureEpochRejected

  /** A `rotation_quarantine` row; the table is kept in id order and never reuses an id. */
  datatype Entry = Entry(id: nat, epoch: Epoch, reason: Reason, receivedAt: int)

  datatype Gate = Gate(firstSeen: map<Epoch, Sighting>, quarantine: seq<Entry>, nextId: nat)

  datatype Verdict = Known | Retryable | RejectedForGood

  // ---- Caps ----

  predicate Open(fs: map<Epoch, Sighting>, e: Epoch) { e in fs && !fs[e].rejected }

  function OpenEpochs(fs: map<Epoch, Sighting>): set<Epoch> { set e | e in fs && Open(fs, e) }

  /** `ORDER BY first_seen_at DESC, epoch DESC` puts `b` before `a`. */
  predicate Newer(fs: map<Epoch, Sighting>, a: Epoch, b: Epoch)
    requires a in fs && b in fs
  {
    fs[a].at < fs[b].at || (fs[a].at == fs[b].at && a < b)
  }

  function NewerThan(fs: map<Epoch, Sighting>, e: Epoch): set<Epoch>
    requires e in fs
  {
    set d | d in fs && Open(fs, d) && Newer(fs, e, d)
  }

  /** `_cap_first_seen`: only the newest thousand rows that are not rejected survive. */
  function CapFirstSeen(fs: map<Epoch, Sighting>): map<Epoch, Sighting> {
    fs - set e | e in fs && Open(fs, e) && |NewerThan(fs, e)| >= FIRST_SEEN_CAP
  }

  /** `_cap_quarantine`: the newest fifty rows. */
  function CapQuarantine(q: seq<Entry>): (r: seq<Entry>)
    ensures |r| <= QUARANTINE_CAP && (|q| <= QUARANTINE_CAP ==> r == q)
    ensures q != [] ==> r != [] && r[|r| - 1] == q[|q| - 1]
  {
    if |q| <= QUARANTINE_CAP then q else q[|q| - QUARANTINE_CAP..]
  }

  /** `_quarantine_in_txn`. */
  function Quarantined(g: Gate, epoch: Epoch, reason: Reason, now: int): Gate {
    g.(quarantine := CapQuarantine(g.quarantine + [Entry(g.nextId, epoch, reason, now)]), nextId := g.nextId + 1)
  }

  lemma {:induction false} OldestExists(fs: map<Epoch, Sighting>, es: set<Epoch>)
    requires es != {} && forall e | e in es :: e in fs
    ensures exists m :: m in es && forall e | e in es :: e == m || Newer(fs, m, e)
    decreases |es|
  {
    var x :| x in es;
    var rest := es - {x};
    if rest == {} {
      assert es == {x};
    } else {
      OldestExists(fs, rest);
      var m :| m in rest && forall e | e in rest :: e == m || Newer(fs, m, e);
      var low := if Newer(fs, m, x) then m else x;
      assert forall e | e in es :: e == x || e in rest;
      assert low in es && forall e | e in es :: e == low || Newer(fs, low, e);
    }
  }

  /** The cap holds, and it drops nothing while there is room. */
  lemma CapHolds(fs: map<Epoch, Sighting>)
    ensures |OpenEpochs(CapFirstSeen(fs))| <= FIRST_SEEN_CAP
    ensures |OpenEpochs(fs)| <= FIRST_SEEN_CAP ==> CapFirstSeen(fs) == fs
    ensures forall e | e in fs && fs[e].rejected :: e in CapFirstSeen(fs)
    ensures forall e | e in CapFirstSeen(fs) :: e in fs && CapFirstSeen(fs)[e] == fs[e]
  {
    var kept := OpenEpochs(CapFirstSeen(fs));
    if |kept| > FIRST_SEEN_CAP {
      OldestExists(fs, kept);
      var m :| m in kept && forall e | e in kept :: e == m || Newer(fs, m, e);
      assert kept - {m} <= NewerThan(fs, m);
      Smaller(kept - {m}, NewerThan(fs, m));
    }
    forall e | e in fs && Open(fs, e) && |OpenEpochs(fs)| <= FIRST_SEEN_CAP
      ensures |NewerThan(fs, e)| < FIRST_SEEN_CAP
    {
      assert e in OpenEpochs(fs) && NewerThan(fs, e) <= OpenEpochs(fs) - {e};
      Smaller(NewerThan(fs, e), OpenEpochs(fs) - {e});
    }
  }

  lemma {:induction false} Smaller(a: set<Epoch>, b: set<Epoch>)
    requires a <= b
    ensures |a| <= |b|
    decreases |a|
  {
    if a != {} {
      var x :| x in a;
      Smaller(a - {x}, b - {x});
    }
  }

  // ---- The gate ----

  /** `on_data_event_epoch` for an authenticated envelope. */
  function OnDataEpoch(s: Store, g: Gate, epoch: Epoch, now: int): (Gate, Verdict) {
    if epoch <= CurrentEpoch(s) then (g, Known)
    else
      var seen := if epoch in g.firstSeen then g.firstSeen else g.firstSeen[epoch := Sighting(now, false)];
      var capped := CapFirstSeen(seen);
      var rejected := epoch in capped && (capped[epoch].rejected || now > capped[epoch].at + ROTATION_WINDOW);
      var fs := if rejected then capped[epoch := capped[epoch].(rejected := true)] else capped;
      var reason := if rejected then FutureEpochRejected else FutureEpoch;
      (Quarantined(g.(firstSeen := fs), epoch, reason, now), if rejected then RejectedForGood else Retryable)
  }

  // ---- The other writers of these two tables ----

  predicate Resolved(e: Entry, epoch: Epoch) { e.reason == FutureEpoch && e.epoch <= epoch }

  predicate Expired(e: Entry, now: int) { e.reason == FutureEpochRejected && e.receivedAt <= now - REJECTED_RETENTION }

  function Without(q: seq<Entry>, gone: Entry -> bool): (r: seq<Entry>)
    ensures |r| <= |q|
    ensures forall e :: e in r <==> e in q && !gone(e)
  {
    if q == [] then [] else if gone(q[0]) then Without(q[1..], gone) else [q[0]] + Without(q[1..], gone)
  }

  /** The tail of `_record_acking_rotation`: the epoch is known now. */
  function ClearKnown(g: Gate, epoch: Epoch): Gate {
    g.(firstSeen := g.firstSeen - (set e | e in g.firstSeen && e <= epoch),
       quarantine := Without(g.quarantine, e => Resolved(e, epoch)))
  }

  /** What `on_prepare` does to these tables beside its reply. */
  function PrepareGate(s: Store, g: Gate, p: Prepare, id: EventId, now: int): Gate {
    var r := OnPrepare(s, p, id, now);
    var epoch := if FindPrior(s, p.prior).Some? then FindPrior(s, p.prior).value + 1 else 0;
    if r.1 == Refused(ConflictingPrepare) then
      Quarantined(g, epoch, ConflictingPrepares(p, id), now)
    else if r.1.AckFor? && !(epoch in s.acking && s.acking[epoch].phase != Discarded) then ClearKnown(g, epoch)
    else g
  }

  function SweepGate(g: Gate, now: int): Gate { g.(quarantine := Without(g.quarantine, e => Expired(e, now))) }

  datatype Choice = Mine | Theirs | Neither

  datatype Resolution = BadIndex | BadChoice | NotResolvable | KeptMine | TookTheirs(reply: Reply)

  /** `resolve_quarantine`: "theirs" discards my candidate first and deletes the entry only when their prepare is taken. */
  function Resolve(s: Store, g: Gate, index: int, choice: Choice, now: int): (Store, Gate, Resolution) {
    if index < 0 || index >= |g.quarantine| then (s, g, BadIndex)
    else if choice == Neither then (s, g, BadChoice)
    else if !g.quarantine[index].reason.ConflictingPrepares? then (s, g, NotResolvable)
    else
      var entry := g.quarantine[index];
      if choice == Mine then (s, DropEntry(g, entry.id), KeptMine)
      else
        var s1 := DiscardRotating(s, entry.epoch);
        var r := OnPrepare(s1, entry.reason.p, entry.reason.id, now);
        var g1 := PrepareGate(s1, g, entry.reason.p, entry.reason.id, now);
        (r.0, if r.1.AckFor? then DropEntry(g1, entry.id) else g1, TookTheirs(r.1))
  }

  /** `DELETE FROM rotation_quarantine WHERE id=?`. */
  function DropEntry(g: Gate, id: nat): Gate { g.(quarantine := Without(g.quarantine, (e: Entry) => e.id == id)) }

  // ---- Permanence of a rejection ----

  /** The peer's keys have reached this epoch. */
  ghost predicate PeersReach(s: Store, e: Epoch) {
    e <= s.keyEpoch || exists d: Epoch :: PeerRow(s.keys, d) && e <= d
  }

  ghost predicate ForGood(s: Store, g: Gate, e: Epoch) {
    (e in g.firstSeen && g.firstSeen[e].rejected) || PeersReach(s, e)
  }

  lemma ReachedIsKnown(s: Store, e: Epoch)
    requires PeersReach(s, e)
    ensures e <= CurrentEpoch(s)
  {
    assert s.keyEpoch in PeerEpochs(s);
    if d: Epoch :| PeerRow(s.keys, d) && e <= d { assert d in PeerEpochs(s); }
  }

  lemma StillReached(s: Store, t: Store, e: Epoch)
    requires PeersReach(s, e) && s.keyEpoch <= t.keyEpoch
    requires forall d: Epoch :: PeerRow(s.keys, d) ==> PeerRow(t.keys, d) || PeersReach(t, d)
    ensures PeersReach(t, e)
  {
    if d: Epoch :| PeerRow(s.keys, d) && e <= d && !PeerRow(t.keys, d) {
      assert PeersReach(t, d);
    }
  }

  lemma CompactReach(s: Store, now: int, d: Epoch)
    requires PeerRow(s.keys, d)
    ensures PeersReach(Compact(s, now), d)
  {
    var peers := set x | x in s.keys && PeerRow(s.keys, x);
    assert d in peers;
    var top := Max(peers);
    assert forall x: Epoch :: PeerRow(s.keys, x) ==> x in peers;
    assert !OldPeerRow(s.keys, top);
    assert PeerRow(Compact(s, now).keys, top);
  }

  lemma {:induction false} RetireAllPeers(s: Store, order: seq<Epoch>, now: int)
    ensures forall d: Epoch :: PeerRow(s.keys, d) ==> PeerRow(RetireAll(s, order, now).keys, d)
    decreases |order|
  {
    if order != [] {
      assert forall d: Epoch :: PeerRow(s.keys, d) ==> PeerRow(RetireOne(s, order[0], now).keys, d);
      RetireAllPeers(RetireOne(s, order[0], now), order[1..], now);
    }
  }

  lemma SweepReach(s: Store, order: seq<Epoch>, stopped: bool, now: int, e: Epoch)
    requires Valid(s) && PeersReach(s, e)
    ensures PeersReach(Sweep(s, order, stopped, now), e)
  {
    var s1 := Compact(s, now);
    forall d: Epoch | PeerRow(s.keys, d) ensures PeersReach(s1, d) { CompactReach(s, now, d); }
    StillReached(s, s1, e);
    SweepKeepsValid(s, order, stopped, now);
    if !stopped && TimedOut(s1, now) == {} { RetireAllPeers(s1, order, now); }
    StillReached(s1, Sweep(s, order, stopped, now), e);
  }

  /** No operation forgets how far the peer's keys have come. */
  lemma ApplyReach(s: Store, op: Op, now: int, e: Epoch)
    requires Valid(s) && PeersReach(s, e)
    ensures PeersReach(Apply(s, op, now), e)
  {
    match op {
      case SweepOp(order, stopped) => SweepReach(s, order, stopped, now, e);
      case BeginOp(key, id) =>
        BeginKeepsValid(s, key, id, now);
        StillReached(s, Apply(s, op, now), e);
      case PrepareOp(p, id) => PrepareReach(s, p, id, now, e);
      case TheirsOp(d, p, id) =>
        DiscardKeepsValid(s, d);
        StillReached(s, DiscardRotating(s, d), e);
        PrepareReach(DiscardRotating(s, d), p, id, now, e);
      case _ => StepReach(s, op, now, e);
    }
  }

  lemma StepReach(s: Store, op: Op, now: int, e: Epoch)
    requires Valid(s) && PeersReach(s, e) && !op.SweepOp? && !op.BeginOp? && !op.PrepareOp? && !op.TheirsOp?
    ensures PeersReach(Apply(s, op, now), e)
  {
    ApplyKeepsValid(s, op, now);
    StillReached(s, Apply(s, op, now), e);
  }

  lemma PrepareReach(s: Store, p: Prepare, id: EventId, now: int, e: Epoch)
    requires Valid(s) && PeersReach(s, e)
    ensures PeersReach(OnPrepare(s, p, id, now).0, e)
  {
    if OnPrepare(s, p, id, now).0 != s { FreshPrepareShape(s, p, id, now); }
    StillReached(s, OnPrepare(s, p, id, now).0, e);
  }

  /** First-seen rows are cleared only up to an epoch the peer's keys have reached. */
  lemma PrepareClears(s: Store, g: Gate, p: Prepare, id: EventId, now: int, e: Epoch)
    requires Valid(s) && ForGood(s, g, e)
    ensures ForGood(OnPrepare(s, p, id, now).0, PrepareGate(s, g, p, id, now), e)
  {
    var r := OnPrepare(s, p, id, now);
    if PeersReach(s, e) {
      PrepareReach(s, p, id, now, e);
    } else if r.1.AckFor? {
      var epoch := FindPrior(s, p.prior).value + 1;
      if PeerRow(s.keys, epoch) {
        RedeliveryNeverReopens(s, epoch, epoch - 1, p, id);
      } else {
        assert PeerRow(r.0.keys, epoch);
      }
      assert e <= epoch ==> PeersReach(r.0, e);
    }
  }

  // ---- Runs over both halves ----

  datatype DeskOp =
    | Table(op: Op)
    | DataEpoch(epoch: Epoch)
    | ResolveOp(index: int, choice: Choice)

  /** `Table(TheirsOp)` is reached through the quarantine only. */
  predicate Direct(d: DeskOp) { d.Table? ==> !d.op.TheirsOp? }

  function DeskStep(s: Store, g: Gate, d: DeskOp, now: int): (Store, Gate) {
    match d
    case DataEpoch(e) => (s, OnDataEpoch(s, g, e, now).0)
    case ResolveOp(index, choice) => (Resolve(s, g, index, choice, now).0, Resolve(s, g, index, choice, now).1)
    case Table(op) =>
      (Apply(s, op, now),
       if op.PrepareOp? then PrepareGate(s, g, op.p, op.prepareId, now)
       else if op.SweepOp? then SweepGate(g, now) else g)
  }

  function DeskRun(s: Store, g: Gate, ops: seq<(DeskOp, int)>): (Store, Gate)
    decreases |ops|
  {
    if ops == [] then (s, g)
    else
      var n := DeskStep(s, g, ops[0].0, ops[0].1);
      DeskRun(n.0, n.1, ops[1..])
  }

  lemma DataEpochForGood(s: Store, g: Gate, d: Epoch, now: int, e: Epoch)
    requires ForGood(s, g, e)
    ensures ForGood(s, OnDataEpoch(s, g, d, now).0, e)
  {
    CapHolds(if d in g.firstSeen then g.firstSeen else g.firstSeen[d := Sighting(now, false)]);
  }

  lemma DeskStepForGood(s: Store, g: Gate, d: DeskOp, now: int, e: Epoch)
    requires Valid(s) && ForGood(s, g, e) && Direct(d)
    ensures Valid(DeskStep(s, g, d, now).0)
    ensures ForGood(DeskStep(s, g, d, now).0, DeskStep(s, g, d, now).1, e)
  {
    match d
    case DataEpoch(x) => DataEpochForGood(s, g, x, now, e);
    case ResolveOp(index, choice) => ResolveForGood(s, g, index, choice, now, e);
    case Table(op) =>
      ApplyKeepsValid(s, op, now);
      if op.PrepareOp? {
        PrepareClears(s, g, op.p, op.prepareId, now, e);
      } else if PeersReach(s, e) {
        ApplyReach(s, op, now, e);
      }
  }

  lemma ResolveForGood(s: Store, g: Gate, index: int, choice: Choice, now: int, e: Epoch)
    requires Valid(s) && ForGood(s, g, e)
    ensures Valid(Resolve(s, g, index, choice, now).0)
    ensures ForGood(Resolve(s, g, index, choice, now).0, Resolve(s, g, index, choice, now).1, e)
  {
    if Resolve(s, g, index, choice, now).2.TookTheirs? {
      var entry := g.quarantine[index];
      var s1 := DiscardRotating(s, entry.epoch);
      DiscardKeepsValid(s, entry.epoch);
      if PeersReach(s, e) { StillReached(s, s1, e); }
      OnPrepareKeepsValid(s1, entry.reason.p, entry.reason.id, now);
      PrepareClears(s1, g, entry.reason.p, entry.reason.id, now, e);
    }
  }

  lemma {:induction false} DeskRunForGood(s: Store, g: Gate, ops: seq<(DeskOp, int)>, e: Epoch)
    requires Valid(s) && ForGood(s, g, e) && forall i | 0 <= i < |ops| :: Direct(ops[i].0)
    ensures ForGood(DeskRun(s, g, ops).0, DeskRun(s, g, ops).1, e)
    decreases |ops|
  {
    if ops != [] {
      DeskStepForGood(s, g, ops[0].0, ops[0].1, e);
      var n := DeskStep(s, g, ops[0].0, ops[0].1);
      assert forall i | 0 <= i < |ops[1..]| :: ops[1..][i] == ops[i + 1];
      DeskRunForGood(n.0, n.1, ops[1..], e);
    }
  }

  /** Once the gate has rejected an epoch it is never retryable again: over any
      later run, however many other epochs push against the caps, it is rejected
      on sight until the peer's own prepare makes it known, and known from then on. */
  lemma RejectionIsPermanent(s: Store, g: Gate, e: Epoch, now: int, ops: seq<(DeskOp, int)>, later: int)
    requires Valid(s) && forall i | 0 <= i < |ops| :: Direct(ops[i].0)
    requires OnDataEpoch(s, g, e, now).1 == RejectedForGood
    ensures var (t, h) := DeskRun(s, OnDataEpoch(s, g, e, now).0, ops);
            && OnDataEpoch(t, h, e, later).1 != Retryable
            && (!PeersReach(t, e) && CurrentEpoch(t) < e ==> OnDataEpoch(t, h, e, later).1 == RejectedForGood)
            && (PeersReach(t, e) ==> OnDataEpoch(t, h, e, later).1 == Known)
  {
    var g1 := OnDataEpoch(s, g, e, now).0;
    DeskRunForGood(s, g1, ops, e);
    var (t, h) := DeskRun(s, g1, ops);
    if PeersReach(t, e) {
      ReachedIsKnown(t, e);
    } else {
      CapHolds(h.firstSeen);
    }
  }

  /** A call on an unknown epoch leaves both tables within their caps, and answers
      "rejected" exactly when the epoch was rejected before or its surviving
      first sighting is more than a day old. */
  lemma GateCall(s: Store, g: Gate, e: Epoch, now: int)
    requires CurrentEpoch(s) < e
    ensures var (g', v) := OnDataEpoch(s, g, e, now);
            && |OpenEpochs(g'.firstSeen)| <= FIRST_SEEN_CAP
            && 0 < |g'.quarantine| <= QUARANTINE_CAP
            && g'.quarantine[|g'.quarantine| - 1].epoch == e
            && (v == RejectedForGood <==> e in g'.firstSeen && g'.firstSeen[e].rejected)
            && (v == RejectedForGood <==>
                  e in g.firstSeen && (g.firstSeen[e].rejected
                                       || (now > g.firstSeen[e].at + ROTATION_WINDOW && |NewerThan(g.firstSeen, e)| < FIRST_SEEN_CAP)))
  {
    var seen := if e in g.firstSeen then g.firstSeen else g.firstSeen[e := Sighting(now, false)];
    CapHolds(seen);
    var g' := OnDataEpoch(s, g, e, now).0;
    var capped := CapFirstSeen(seen);
    assert OpenEpochs(g'.firstSeen) <= OpenEpochs(capped);
    Smaller(OpenEpochs(g'.firstSeen), OpenEpochs(capped));
  }
}
