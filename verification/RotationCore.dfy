// One side's rotation tables for one relationship, and what each transaction
// of `RotationManager` does to them (crypto/rotation.py).
//
// A key is an abstract value; the SHA-256 fingerprint of a key stands for the
// key itself.  Times are whole seconds.  Each function below is one database
// transaction: it returns the new tables and the reply or the refusal.

module RotationCore {
  import opened Base

  type Epoch = nat
  type Key = nat
  type EventId = nat

  const ROTATION_WINDOW: int := 24 * 3600
  const OLD_KEY_RETENTION: int := 24 * 3600
  const OLD_KEY_EVENT_LIMIT: nat := 100
  const COMMITTED_RETENTION: int := 30 * 24 * 3600

  datatype Phase = Candidate | Acknowledged | Confirmed | Committed | Discarded

  /** A `key_epochs` row; `mine` is `private_key_ref != 'peer'`. */
  datatype KeyRow = KeyRow(pub: Key, mine: bool)

  /** A `key_rotations` row; its role is the table it is kept in. */
  datatype Row = Row(
    phase: Phase,
    prior: Epoch,
    newKey: Key,
    prepareId: Option<EventId>,
    deadline: int,
    committedAt: Option<int>,
    wrapSeen: bool,
    accepted: nat)

  /** The tables: `relationships.key_epoch` and `.peer_agreement_key`,
      `key_epochs`, `key_rotations` by role, and the parked decrypt signals. */
  datatype Store = Store(
    keyEpoch: Epoch,
    peerKey: Key,
    keys: map<Epoch, KeyRow>,
    rotating: map<Epoch, Row>,
    acking: map<Epoch, Row>,
    parked: map<Epoch, int>)

  /** The `security.key.prepare` payload. */
  datatype Prepare = Prepare(newKey: Key, prior: Key, deadline: int)

  datatype Refusal =
    | RotationInFlight | NoOwnKey | StalePrior | IntegrityConflict
    | UnknownPrior | ConflictingPrepare | StalePriorFingerprint | StaleEpoch | PrepareExpired
    | ConfirmRejected | NothingToConfirm | NoNewWrapSeen | NothingToCommit

  datatype Reply =
    | Prepared(epoch: Epoch, prepare: Prepare)
    | AckFor(ackEpoch: Epoch)
    | EpochReply(replyEpoch: Epoch)
    | Done
    | Refused(why: Refusal)

  // ---- Reading the tables ----

  predicate Live(r: Row) { r.phase != Committed && r.phase != Discarded }

  predicate OwnRow(keys: map<Epoch, KeyRow>, e: Epoch) { e in keys && keys[e].mine }

  predicate PeerRow(keys: map<Epoch, KeyRow>, e: Epoch) { e in keys && !keys[e].mine }

  /** The epochs whose private key this side holds. */
  function Own(s: Store): set<Epoch> { set e | e in s.keys && OwnRow(s.keys, e) }

  /** The epochs of the peer's keys: `peer_agreement_key` is labelled with the
      current `key_epoch`; every later peer key has its own row. */
  function PeerEpochs(s: Store): set<Epoch> { {s.keyEpoch} + set e | e in s.keys && PeerRow(s.keys, e) }

  /** The peer's key for an epoch: a stored peer row wins over the label. */
  function PeerKeyAt(s: Store, e: Epoch): Key
    requires e in PeerEpochs(s)
  {
    if PeerRow(s.keys, e) then s.keys[e].pub else s.peerKey
  }

  function CurrentEpoch(s: Store): Epoch { Max(Own(s) + PeerEpochs(s)) }

  predicate IsLive(m: map<Epoch, Row>, e: Epoch) { e in m && Live(m[e]) }

  function LiveIn(m: map<Epoch, Row>): set<Epoch> { set e | e in m && IsLive(m, e) }

  predicate InFlight(s: Store) { LiveIn(s.rotating) != {} || LiveIn(s.acking) != {} }

  // ---- Rotating side ----

  function Begin(s: Store, key: Key, prepareId: Option<EventId>, now: int): (Store, Reply) {
    if InFlight(s) then (s, Refused(RotationInFlight))
    else if Own(s) == {} then (s, Refused(NoOwnKey))
    else
      var prior := Max(Own(s));
      var epoch := CurrentEpoch(s) + 1;
      if epoch <= prior then (s, Refused(StalePrior))
      else if epoch in s.keys || (epoch in s.rotating && s.rotating[epoch].phase != Discarded) then
        (s, Refused(IntegrityConflict))
      else
        var row := Row(Candidate, prior, key, prepareId, now + ROTATION_WINDOW, None, false, 0);
        (s.(keys := s.keys[epoch := KeyRow(key, true)], rotating := s.rotating[epoch := row]),
         Prepared(epoch, Prepare(key, s.keys[prior].pub, now + ROTATION_WINDOW)))
  }

  /** `_consume_pending_wrap_seen`: a parked signal marks the live row. */
  function ConsumeParked(s: Store, epoch: Epoch): Store {
    if epoch !in s.parked then s
    else
      var s1 := s.(parked := s.parked - {epoch});
      if epoch in s.rotating && Live(s.rotating[epoch])
      then s1.(rotating := s.rotating[epoch := s.rotating[epoch].(wrapSeen := true)])
      else s1
  }

  function OnAck(s: Store, epoch: Epoch, prepareId: EventId, now: int): (Store, Reply) {
    if epoch !in s.rotating then (s, Refused(ConfirmRejected))
    else
      var r := s.rotating[epoch];
      if r.prepareId.Some? && r.prepareId.value != prepareId then (s, Refused(ConfirmRejected))
      else if r.phase == Acknowledged then (ConsumeParked(s, epoch), Done)
      else if r.phase != Candidate then (s, Refused(ConfirmRejected))
      else if now > r.deadline then (s, Refused(ConfirmRejected))
      else
        var s1 := s.(rotating := s.rotating[epoch := r.(phase := Acknowledged)]);
        (ConsumeParked(s1, epoch), Done)
  }

  function NoteDecryptedNewWrap(s: Store, epoch: Epoch, now: int): Store {
    if epoch in s.rotating && Live(s.rotating[epoch])
    then s.(rotating := s.rotating[epoch := s.rotating[epoch].(wrapSeen := true)])
    else s.(parked := s.parked[epoch := now])
  }

  function NoteAcceptedEvent(s: Store): Store {
    if s.keyEpoch in s.rotating && s.rotating[s.keyEpoch].phase == Committed
    then
      var r := s.rotating[s.keyEpoch];
      s.(rotating := s.rotating[s.keyEpoch := r.(accepted := r.accepted + 1)])
    else s
  }

  /** `build_confirm_payload`: reads only. */
  function BuildConfirm(s: Store): Reply {
    if LiveIn(s.rotating) == {} then Refused(NothingToConfirm)
    else
      var e := Min(LiveIn(s.rotating));
      if s.rotating[e].phase == Candidate then Refused(NothingToConfirm)
      else if !s.rotating[e].wrapSeen then Refused(NoNewWrapSeen)
      else EpochReply(e)
  }

  function MarkConfirmed(s: Store): (Store, Reply) {
    if LiveIn(s.rotating) == {} then (s, Refused(NothingToConfirm))
    else
      var e := Min(LiveIn(s.rotating));
      var r := s.rotating[e];
      if r.phase == Confirmed then (s, Done)
      else if r.phase != Acknowledged then (s, Refused(NothingToConfirm))
      else (s.(rotating := s.rotating[e := r.(phase := Confirmed)]), Done)
  }

  function OnCommit(s: Store, epoch: Epoch, now: int): (Store, Reply) {
    if epoch !in s.rotating then
      (s, if s.keyEpoch == epoch then Done else Refused(ConfirmRejected))
    else
      var r := s.rotating[epoch];
      if r.phase == Committed then (s, Done)
      else if r.phase != Confirmed then (s, Refused(ConfirmRejected))
      else
        var r' := r.(phase := Committed, committedAt := Some(now), accepted := 0);
        (s.(rotating := s.rotating[epoch := r'], keyEpoch := epoch), Done)
  }

  // ---- Acking side ----

  /** The epoch a prior fingerprint names: the relabelled current peer key is
      looked at first, then the stored peer rows in ascending order. */
  function FindPrior(s: Store, prior: Key): (r: Option<Epoch>)
    ensures r.Some? ==> r.value in PeerEpochs(s) && PeerKeyAt(s, r.value) == prior
  {
    if PeerKeyAt(s, s.keyEpoch) == prior then Some(s.keyEpoch)
    else
      var hits := set e | e in s.keys && PeerRow(s.keys, e) && s.keys[e].pub == prior;
      if hits == {} then None else Some(Min(hits))
  }

  /** `_record_acking_rotation`: never replaces a live or finished row. */
  function RecordAcking(s: Store, epoch: Epoch, prior: Epoch, p: Prepare, id: EventId): Store {
    if epoch in s.acking && s.acking[epoch].phase != Discarded then s
    else
      s.(acking := s.acking[epoch := Row(Acknowledged, prior, p.newKey, Some(id), p.deadline, None, false, 0)])
  }

  function OnPrepare(s: Store, p: Prepare, id: EventId, now: int): (Store, Reply) {
    var found := FindPrior(s, p.prior);
    if found.None? then (s, Refused(UnknownPrior))
    else
      var prior := found.value;
      var epoch := prior + 1;
      if PeerRow(s.keys, epoch) then
        if s.keys[epoch].pub != p.newKey then (s, Refused(ConflictingPrepare))
        else (RecordAcking(s, epoch, prior, p, id), AckFor(epoch))
      else if prior != Max(PeerEpochs(s)) then (s, Refused(StalePriorFingerprint))
      else if epoch in Own(s) then
        if epoch !in s.rotating || Live(s.rotating[epoch])
        then (s, Refused(ConflictingPrepare))
        else (s, Refused(StaleEpoch))
      else if epoch <= CurrentEpoch(s) then (s, Refused(StaleEpoch))
      else if InFlight(s) then (s, Refused(RotationInFlight))
      else if now > p.deadline then (s, Refused(PrepareExpired))
      else
        var s1 := s.(keys := s.keys[epoch := KeyRow(p.newKey, false)]);
        (RecordAcking(s1, epoch, prior, p, id), AckFor(epoch))
  }

  function OnConfirm(s: Store, epoch: Epoch): (Store, Reply) {
    if epoch !in s.acking then (s, Refused(ConfirmRejected))
    else
      var r := s.acking[epoch];
      if r.phase == Confirmed then (s, Done)
      else if r.phase != Acknowledged then (s, Refused(ConfirmRejected))
      else (s.(acking := s.acking[epoch := r.(phase := Confirmed)]), Done)
  }

  function CommittedIn(m: map<Epoch, Row>): set<Epoch> { set e | e in m && m[e].phase == Committed }

  /** `build_commit_payload`: the confirmed row, else the newest committed one. */
  function BuildCommit(s: Store): Reply {
    var live := LiveIn(s.acking);
    if live != {} && s.acking[Min(live)].phase == Confirmed then EpochReply(Min(live))
    else if CommittedIn(s.acking) != {} then EpochReply(Max(CommittedIn(s.acking)))
    else Refused(NothingToCommit)
  }

  function MarkCommitted(s: Store, now: int): (Store, Reply) {
    var live := LiveIn(s.acking);
    if live == {} then
      (s, if CommittedIn(s.acking) != {} then Done else Refused(NothingToCommit))
    else
      var e := Min(live);
      var r := s.acking[e];
      if r.phase != Confirmed then (s, Refused(NothingToCommit))
      else
        (s.(acking := s.acking[e := r.(phase := Committed, committedAt := Some(now))],
            keyEpoch := e, peerKey := r.newKey), Done)
  }

  // ---- Human resolution of a conflicting prepare ----

  /** `_discard_candidate` with its default predicate: any live phase. */
  function DiscardRotating(s: Store, epoch: Epoch): Store {
    if epoch !in s.rotating || !Live(s.rotating[epoch]) then s
    else
      s.(rotating := s.rotating[epoch := s.rotating[epoch].(phase := Discarded)],
         keys := if epoch in Own(s) then s.keys - {epoch} else s.keys)
  }

  /** Choice "theirs": drop my candidate, then process the quarantined prepare. */
  function ResolveTheirs(s: Store, epoch: Epoch, p: Prepare, id: EventId, now: int): (Store, Reply) {
    OnPrepare(DiscardRotating(s, epoch), p, id, now)
  }

  // ---- Maintenance ----

  predicate Superseded(m: map<Epoch, Row>, e: Epoch, cutoff: int)
    requires e in m
  {
    && m[e].phase == Committed && m[e].committedAt.Some? && m[e].committedAt.value <= cutoff
    && exists e2 | e2 in m :: m[e2].phase == Committed && e < e2
  }

  function CompactCommitted(m: map<Epoch, Row>, cutoff: int): map<Epoch, Row> {
    m - set e | e in m && Superseded(m, e, cutoff)
  }

  /** Two newer peer rows exist. */
  predicate OldPeerRow(keys: map<Epoch, KeyRow>, e: Epoch) {
    PeerRow(keys, e) && exists a, b | a in keys && b in keys :: PeerRow(keys, a) && PeerRow(keys, b) && e < a < b
  }

  function CompactPeers(keys: map<Epoch, KeyRow>): map<Epoch, KeyRow> {
    keys - set e | e in keys && OldPeerRow(keys, e)
  }

  function Compact(s: Store, now: int): Store {
    s.(parked := s.parked - (set e | e in s.parked && s.parked[e] <= now - ROTATION_WINDOW),
       rotating := CompactCommitted(s.rotating, now - COMMITTED_RETENTION),
       acking := CompactCommitted(s.acking, now - COMMITTED_RETENTION),
       keys := CompactPeers(s.keys))
  }

  function TimedOut(s: Store, now: int): set<Epoch> {
    set e | e in s.rotating && s.rotating[e].phase == Candidate && s.rotating[e].deadline <= now
  }

  predicate RetireDue(r: Row, now: int) {
    || (r.committedAt.Some? && now >= r.committedAt.value + OLD_KEY_RETENTION)
    || r.accepted >= OLD_KEY_EVENT_LIMIT
  }

  /** One turn of the retirement loop: drop the prior private key and the
      finished row, but only while the new key is still held. */
  function RetireOne(s: Store, epoch: Epoch, now: int): Store {
    if epoch !in s.rotating || s.rotating[epoch].phase != Committed || !RetireDue(s.rotating[epoch], now) then s
    else if epoch !in Own(s) then s
    else
      var prior := s.rotating[epoch].prior;
      s.(keys := if prior in Own(s) then s.keys - {prior} else s.keys,
         rotating := s.rotating - {epoch})
  }

  function RetireAll(s: Store, order: seq<Epoch>, now: int): Store
    decreases |order|
  {
    if order == [] then s else RetireAll(RetireOne(s, order[0], now), order[1..], now)
  }

  /** `sweep`: compaction, then at most one time-out; the retirement loop runs
      only when nothing timed out.  `order` is the row order of its scan, as far as
      the process lives; it may also be `stopped` right after the compaction. */
  function Sweep(s: Store, order: seq<Epoch>, stopped: bool, now: int): Store {
    var s1 := Compact(s, now);
    var late := TimedOut(s1, now);
    if stopped then s1 else if late != {} then DiscardRotating(s1, Min(late)) else RetireAll(s1, order, now)
  }

  // ---- Sealing and unsealing ----

  datatype Recipients = Recipients(wraps: set<Key>, stamp: Epoch) | CannotSend

  /** `_recipients_for` over `dual_wrap_keys`. */
  function RecipientsFor(s: Store): Recipients {
    var live := LiveIn(s.acking);
    if live == {} || s.acking[Min(live)].phase == Candidate then Recipients({s.peerKey}, s.keyEpoch)
    else
      var e := Min(live);
      var prior := s.acking[e].prior;
      if e !in PeerEpochs(s) || prior !in PeerEpochs(s) then CannotSend
      else Recipients({PeerKeyAt(s, prior), PeerKeyAt(s, e)}, if prior < e then e else prior)
  }

  /** The at most two epochs `_try_unseal` tries. */
  function Tried(s: Store): (r: set<Epoch>)
    ensures r <= Own(s)
  {
    var own := Own(s);
    if own == {} then {}
    else if s.keyEpoch in own then
      var lower := set e | e in own && e < s.keyEpoch;
      if lower == {} then {s.keyEpoch} else {s.keyEpoch, Max(lower)}
    else
      var top := Max(own);
      var rest := own - {top};
      if rest == {} then {top} else {top, Max(rest)}
  }

  predicate Opens(s: Store, wraps: set<Key>) {
    exists e | e in Tried(s) :: s.keys[e].pub in wraps
  }
}
