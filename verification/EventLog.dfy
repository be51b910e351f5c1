// The append-only event log: a sender numbers its events, a receiver stores each
// of them once (model/events.py, and _receive_object_inner, _redrain_projection
// in cli.py).

module EventLog {
  import opened Base

  type EventId = nat
  type Sender = nat
  type Nonce = nat

  const ACCEPT_WINDOW: int := 7 * 24 * 3600
  const FUTURE_TOLERANCE: int := 300
  const MAX_SEQ_GAP: nat := 100_000
  const INGRESS_MAX_EVENTS_PER_DAY: nat := 10_000
  const DAY: int := 24 * 3600

  /** A sealed envelope; two envelopes are equal when their bytes are. */
  datatype Envelope = Envelope(id: EventId, sender: Sender, num: nat, nonce: Nonce, created: int, isReceipt: bool, body: nat)

  type Events = map<EventId, Envelope>

  // ---- Sending ----

  predicate From(m: Events, s: Sender, id: EventId) { id in m && m[id].sender == s }

  function Numbers(m: Events, s: Sender): set<nat> { set id | id in m && From(m, s, id) :: m[id].num }

  /** `COALESCE(MAX(sender_seq), 0)`. */
  function LastNumber(m: Events, s: Sender): nat { if Numbers(m, s) == {} then 0 else Max(Numbers(m, s)) }

  datatype PersistReply = Persisted(envelope: Envelope) | DuplicateEvent | DuplicateNonce

  /** `persist_outgoing_in_txn`: the schema's UNIQUE columns refuse a reused id or nonce. */
  function Persist(m: Events, s: Sender, id: EventId, nonce: Nonce, created: int, isReceipt: bool, body: nat): (Events, PersistReply) {
    if id in m then (m, DuplicateEvent)
    else if exists d | d in m :: m[d].nonce == nonce then (m, DuplicateNonce)
    else
      var e := Envelope(id, s, LastNumber(m, s) + 1, nonce, created, isReceipt, body);
      (m[id := e], Persisted(e))
  }

  // ---- Receiving ----

  /** A `replay_guard` row: the envelope stands for its digest. */
  datatype Guard = Guard(id: EventId, envelope: Envelope)

  /** The receiver's tables for one relationship.  `applied` is the history of
      successful projections; `receipts` the targets of persisted receipts, in order. */
  datatype Inbox = Inbox(
    events: Events,
    receivedAt: map<EventId, int>,
    lastSeq: map<Sender, nat>,
    replay: map<Nonce, Guard>,
    queued: set<EventId>,
    applied: seq<Envelope>,
    rejected: set<EventId>,
    receipts: seq<EventId>)

  const EMPTY: Inbox := Inbox(map[], map[], map[], map[], {}, [], {}, [])

  datatype Gate = GateOpen | GateRetry | GateRejected

  /** What surrounds one delivery: the clock, whether a key opened it, the epoch
      gate's answer, and whether policy lets an accepted receipt be sent. */
  datatype Ambient = Ambient(now: int, unseals: bool, gate: Gate, receiptsPermitted: bool)

  datatype Why =
    | EventIdConflict | UnsealFailed | EpochRejected | NonceReuse | ClockFuture | ExpiredWindow
    | SeqGapTooLarge | SequenceFork | IntegrityConflict | ProjectionRefused

  datatype Outcome = Accepted | Retry | Quarantined(why: Why)

  /** `apply_event`: whether it succeeds depends on what was applied before. */
  type Applies = (seq<Envelope>, Envelope) -> bool

  predicate RecentArrival(x: Inbox, id: EventId, now: int) { id in x.receivedAt && x.receivedAt[id] >= now - DAY }

  function RecentArrivals(x: Inbox, now: int): set<EventId> { set id | id in x.receivedAt && RecentArrival(x, id, now) }

  function LastSeq(x: Inbox, s: Sender): nat { if s in x.lastSeq then x.lastSeq[s] else 0 }

  predicate Forks(x: Inbox, e: Envelope) {
    exists d | d in x.events :: x.events[d].sender == e.sender && x.events[d].num == e.num && d != e.id
  }

  predicate NonceStored(x: Inbox, e: Envelope) { exists d | d in x.events :: x.events[d].nonce == e.nonce }

  /** The checks on a new event before and inside the receive commit, in order. */
  function Admit(x: Inbox, e: Envelope, a: Ambient): Option<Outcome> {
    if !a.unseals then Some(Quarantined(UnsealFailed))
    else if a.gate == GateRetry then Some(Retry)
    else if a.gate == GateRejected then Some(Quarantined(EpochRejected))
    else if e.nonce in x.replay then
      Some(if x.replay[e.nonce] == Guard(e.id, e) then Accepted else Quarantined(NonceReuse))
    else if e.created > a.now + FUTURE_TOLERANCE then Some(Quarantined(ClockFuture))
    else if e.created < a.now - ACCEPT_WINDOW then Some(Quarantined(ExpiredWindow))
    else if |RecentArrivals(x, a.now)| >= INGRESS_MAX_EVENTS_PER_DAY then Some(Retry)
    else if e.num > LastSeq(x, e.sender) + MAX_SEQ_GAP then Some(Quarantined(SeqGapTooLarge))
    else if Forks(x, e) then Some(Quarantined(SequenceFork))
    else if NonceStored(x, e) then Some(Quarantined(IntegrityConflict))
    else None
  }

  /** The receive commit: one transaction over all tables. */
  function Commit(x: Inbox, e: Envelope, a: Ambient): Inbox {
    x.(events := x.events[e.id := e],
       receivedAt := x.receivedAt[e.id := a.now],
       lastSeq := x.lastSeq[e.sender := if LastSeq(x, e.sender) < e.num then e.num else LastSeq(x, e.sender)],
       replay := x.replay[e.nonce := Guard(e.id, e)],
       queued := x.queued + {e.id},
       receipts := if a.receiptsPermitted && !e.isReceipt then x.receipts + [e.id] else x.receipts)
  }

  /** The projection transaction of a queued event: applied, or quarantined; either
      way its queue row goes in the same transaction. */
  function Project(x: Inbox, id: EventId, applies: Applies): Inbox
    requires id in x.events
  {
    if id !in x.queued then x
    else if applies(x.applied, x.events[id])
    then x.(applied := x.applied + [x.events[id]], queued := x.queued - {id})
    else x.(rejected := x.rejected + {id}, queued := x.queued - {id})
  }

  /** Where a crash stops a delivery. */
  datatype Stop = BeforeCommit | AfterCommit | Complete

  /** One delivery of an object.  The answer counts only when it completes. */
  function Receive(x: Inbox, e: Envelope, a: Ambient, applies: Applies, stop: Stop): (Inbox, Outcome) {
    if e.id in x.events then
      if x.events[e.id] != e then (x, Quarantined(EventIdConflict))
      else if stop == Complete then (Project(x, e.id, applies), Accepted) else (x, Accepted)
    else if Admit(x, e, a).Some? then (x, Admit(x, e, a).value)
    else if stop == BeforeCommit then (x, Retry)
    else
      var x1 := Commit(x, e, a);
      if stop == AfterCommit then (x1, Retry)
      else
        var x2 := Project(x1, e.id, applies);
        (x2, if e.id in x2.rejected && e.id !in x1.rejected then Quarantined(ProjectionRefused) else Accepted)
  }

  /** Replay-guard hygiene: expired rows go; the event log keeps its own columns. */
  function Prune(x: Inbox, nonces: set<Nonce>): Inbox { x.(replay := x.replay - nonces) }
}
