// The receive path and the send path as statements over mutable tables
// (cli.py: _receive_object_inner, _redrain_projection; model/events.py).

module EventService {
  import opened Base
  import opened EventLog
  import opened EventRuns
  import opened EventForgery

  class Receiver {
    var events: Events
    var receivedAt: map<EventId, int>
    var lastSeq: map<Sender, nat>
    var replay: map<Nonce, Guard>
    var queued: set<EventId>
    var applied: seq<Envelope>
    var rejected: set<EventId>
    var receipts: seq<EventId>

    function Tables(): Inbox
      reads this
    {
      Inbox(events, receivedAt, lastSeq, replay, queued, applied, rejected, receipts)
    }

    constructor ()
      ensures Tables() == EventLog.EMPTY && Sound(Tables())
    {
      events, receivedAt, lastSeq, replay := map[], map[], map[], map[];
      queued, applied, rejected, receipts := {}, [], {}, [];
    }

    /** The pipeline for one object; `stop` is where the process dies. */
    method ReceiveObject(e: Envelope, a: Ambient, applies: Applies, stop: Stop) returns (outcome: Outcome)
      modifies this
      ensures (Tables(), outcome) == Receive(old(Tables()), e, a, applies, stop)
      ensures Sound(old(Tables())) ==> Sound(Tables())
      ensures Sound(old(Tables())) && Collides(old(Tables()), e) ==> events == old(events)
    {
      ghost var before := Tables();
      if Sound(before) {
        ReceiveSound(before, e, a, applies, stop);
        if Collides(before, e) { CollisionKeeps(before, e, a, applies, stop); }
      }
      if e.id in events {
        if events[e.id] != e { return Quarantined(EventIdConflict); }
        if stop == Complete { RedrainProjection(e.id, applies); }
        return Accepted;
      }
      var refusal := Check(e, a);
      if refusal.Some? { return refusal.value; }
      if stop == BeforeCommit { return Retry; }
      ReceiveCommit(e, a);
      if stop == AfterCommit { return Retry; }
      var known := e.id in rejected;
      RedrainProjection(e.id, applies);
      outcome := if e.id in rejected && !known then Quarantined(ProjectionRefused) else Accepted;
    }

    method Check(e: Envelope, a: Ambient) returns (refusal: Option<Outcome>)
      ensures refusal == Admit(Tables(), e, a)
      ensures refusal == None ==> forall d | d in events && d != e.id :: events[d].sender != e.sender || events[d].num != e.num
      ensures refusal == None ==> forall d | d in events :: events[d].nonce != e.nonce
    {
      if !a.unseals { return Some(Quarantined(UnsealFailed)); }
      match a.gate {
        case GateRetry => return Some(Retry);
        case GateRejected => return Some(Quarantined(EpochRejected));
        case GateOpen =>
      }
      if e.nonce in replay {
        var row := replay[e.nonce];
        if row.id == e.id && row.envelope == e { return Some(Accepted); }
        return Some(Quarantined(NonceReuse));
      }
      if e.created > a.now + FUTURE_TOLERANCE { return Some(Quarantined(ClockFuture)); }
      if e.created < a.now - ACCEPT_WINDOW { return Some(Quarantined(ExpiredWindow)); }
      if |RecentArrivals(Tables(), a.now)| >= INGRESS_MAX_EVENTS_PER_DAY { return Some(Retry); }
      var last := if e.sender in lastSeq then lastSeq[e.sender] else 0;
      if e.num - last > MAX_SEQ_GAP { return Some(Quarantined(SeqGapTooLarge)); }
      if Forks(Tables(), e) { return Some(Quarantined(SequenceFork)); }
      if NonceStored(Tables(), e) { return Some(Quarantined(IntegrityConflict)); }
      refusal := None;
    }

    /** The statements of the receive transaction. */
    method ReceiveCommit(e: Envelope, a: Ambient)
      modifies this
      ensures Tables() == Commit(old(Tables()), e, a)
    {
      if e.sender !in lastSeq || lastSeq[e.sender] < e.num {
        lastSeq := lastSeq[e.sender := e.num];
      } else {
        lastSeq := lastSeq[e.sender := lastSeq[e.sender]];
      }
      events := events[e.id := e];
      replay := replay[e.nonce := Guard(e.id, e)];
      receivedAt := receivedAt[e.id := a.now];
      queued := queued + {e.id};
      if a.receiptsPermitted && !e.isReceipt { receipts := receipts + [e.id]; }
    }

    /** The projection transaction; without a queue row there is nothing left to do. */
    method RedrainProjection(id: EventId, applies: Applies)
      requires id in events
      modifies this`queued, this`applied, this`rejected
      ensures Tables() == Project(old(Tables()), id, applies)
    {
      if id !in queued { return; }
      if applies(applied, events[id]) {
        applied := applied + [events[id]];
      } else {
        rejected := rejected + {id};
      }
      queued := queued - {id};
    }
  }

  class SendLog {
    const sender: Sender
    var events: Events

    constructor (s: Sender)
      ensures sender == s && events == map[] && Numbered(events, s, 0) && NoncesDiffer(events)
    {
      sender, events := s, map[];
    }

    /** Assigns the next number; a refused insert changes nothing, so no number is lost. */
    method AssignAndPersist(d: Draft, ghost n: nat) returns (reply: PersistReply)
      requires Numbered(events, sender, n) && NoncesDiffer(events)
      modifies this`events
      ensures events == SendAll(old(events), sender, [d])
      ensures reply.Persisted? ==> reply.envelope.num == n + 1 && Numbered(events, sender, n + 1)
      ensures !reply.Persisted? ==> events == old(events)
      ensures NoncesDiffer(events)
    {
      PersistNumbers(events, sender, n, d.id, d.nonce, d.created, d.isReceipt, d.body);
      assert SendAll(events, sender, [d]) == Persist(events, sender, d.id, d.nonce, d.created, d.isReceipt, d.body).0 by {
        assert [d][1..] == [];
      }
      var num := LastNumber(events, sender) + 1;
      if d.id in events { return DuplicateEvent; }
      if exists c | c in events :: events[c].nonce == d.nonce { return DuplicateNonce; }
      var e := Envelope(d.id, sender, num, d.nonce, d.created, d.isReceipt, d.body);
      events := events[d.id := e];
      reply := Persisted(e);
    }
  }
}
