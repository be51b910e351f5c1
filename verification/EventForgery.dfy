// What the receiver does with envelopes from anybody: no assumption on the sender.

module EventForgery {
  import opened Base
  import opened EventLog
  import opened EventRuns

  // ---- Nothing stored collides ----

  predicate SameSlot(d: Envelope, e: Envelope) { d.sender == e.sender && d.num == e.num }

  /** Two stored events differ in number or sender, and in nonce. */
  ghost predicate NoTwins(events: Events) {
    && (forall c, d | c in events && d in events && SameSlot(events[c], events[d]) :: c == d)
    && (forall c, d | c in events && d in events && events[c].nonce == events[d].nonce :: c == d)
  }

  ghost predicate Sound(x: Inbox) { Valid(x) && NoTwins(x.events) }

  /** Some stored event other than `e` has its id, its number or its nonce. */
  ghost predicate Collides(x: Inbox, e: Envelope) {
    exists d :: d in x.events && x.events[d] != e && (d == e.id || SameSlot(x.events[d], e) || x.events[d].nonce == e.nonce)
  }

  lemma NewIsFree(x: Inbox, e: Envelope, a: Ambient)
    requires Admit(x, e, a) == None
    ensures forall d | d in x.events && d != e.id :: !SameSlot(x.events[d], e)
    ensures forall d | d in x.events :: x.events[d].nonce != e.nonce
  {
  }

  lemma CommitNoTwins(x: Inbox, e: Envelope, a: Ambient)
    requires NoTwins(x.events) && e.id !in x.events
    requires forall d | d in x.events :: !SameSlot(x.events[d], e) && x.events[d].nonce != e.nonce
    ensures NoTwins(x.events[e.id := e])
  {
  }

  lemma ReceiveEvents(x: Inbox, e: Envelope, a: Ambient, applies: Applies, stop: Stop)
    ensures var t := Receive(x, e, a, applies, stop).0;
            t.events == x.events || (e.id !in x.events && Admit(x, e, a) == None && t.events == x.events[e.id := e])
  {
  }

  lemma ReceiveSound(x: Inbox, e: Envelope, a: Ambient, applies: Applies, stop: Stop)
    requires Sound(x)
    ensures Sound(Receive(x, e, a, applies, stop).0)
  {
    ReceiveKeepsValid(x, e, a, applies, stop);
    ReceiveEvents(x, e, a, applies, stop);
    if e.id !in x.events && Admit(x, e, a) == None {
      NewIsFree(x, e, a);
      CommitNoTwins(x, e, a);
    }
  }

  // ---- Runs of arbitrary envelopes ----

  datatype Event = Arrive(e: Envelope, a: Ambient, stop: Stop) | Expire(nonces: set<Nonce>)

  function Next(x: Inbox, ev: Event, applies: Applies): Inbox {
    match ev
    case Arrive(e, a, stop) => Receive(x, e, a, applies, stop).0
    case Expire(nonces) => Prune(x, nonces)
  }

  function RunAny(x: Inbox, run: seq<Event>, applies: Applies): Inbox
    decreases |run|
  {
    if run == [] then x else Next(RunAny(x, run[..|run| - 1], applies), run[|run| - 1], applies)
  }

  lemma NextSound(x: Inbox, ev: Event, applies: Applies)
    requires Sound(x)
    ensures Sound(Next(x, ev, applies))
  {
    match ev
    case Arrive(e, a, stop) => ReceiveSound(x, e, a, applies, stop);
    case Expire(nonces) => PruneKeepsValid(x, nonces);
  }

  lemma {:induction false} RunSound(x: Inbox, run: seq<Event>, applies: Applies)
    requires Sound(x)
    ensures Sound(RunAny(x, run, applies))
    decreases |run|
  {
    if run != [] {
      RunSound(x, run[..|run| - 1], applies);
      NextSound(RunAny(x, run[..|run| - 1], applies), run[|run| - 1], applies);
    }
  }

  /** Whatever anybody sends, in any order, with guard rows expiring in between and
      deliveries cut short: two stored events with one sender and number, or with one
      nonce, are the same event. */
  lemma NoForgery(run: seq<Event>, applies: Applies, c: EventId, d: EventId)
    ensures var x := RunAny(EMPTY, run, applies);
            c in x.events && d in x.events ==>
              && x.events[c].id == c
              && (x.events[c].sender == x.events[d].sender && x.events[c].num == x.events[d].num ==> c == d)
              && (x.events[c].nonce == x.events[d].nonce ==> c == d)
  {
    RunSound(EMPTY, run, applies);
    var x := RunAny(EMPTY, run, applies);
    if c in x.events && d in x.events { assert SameSlot(x.events[c], x.events[d]) ==> c == d; }
  }

  /** An envelope that repeats the id, the number or the nonce of a stored event without
      being that event changes no table, and is not called accepted. */
  lemma CollisionChangesNothing(run: seq<Event>, applies: Applies, e: Envelope, a: Ambient, stop: Stop)
    ensures var x := RunAny(EMPTY, run, applies);
            var (t, o) := Receive(x, e, a, applies, stop);
            Collides(x, e) && !(e.id in x.events && x.events[e.id] == e) ==> t == x && o != Accepted
  {
    RunSound(EMPTY, run, applies);
    var x := RunAny(EMPTY, run, applies);
    if Collides(x, e) && e.id !in x.events { CollisionRefused(x, e, a); }
  }

  lemma CollisionKeeps(x: Inbox, e: Envelope, a: Ambient, applies: Applies, stop: Stop)
    requires Sound(x) && Collides(x, e)
    ensures Receive(x, e, a, applies, stop).0.events == x.events
  {
    if e.id !in x.events { CollisionRefused(x, e, a); }
  }

  lemma CollisionRefused(x: Inbox, e: Envelope, a: Ambient)
    requires Valid(x) && Collides(x, e) && e.id !in x.events
    ensures Admit(x, e, a).Some? && Admit(x, e, a).value != Accepted
  {
    if Admit(x, e, a) == None {
      NewIsFree(x, e, a);
      assert false;
    }
  }

  // ---- The answers ----

  /** A key opened it, the epoch gate let it pass, its time is within seven days back and
      five minutes ahead, fewer than 10000 events came in the last day, and its number is
      at most 100000 past the greatest stored one of its sender. */
  ghost predicate InBounds(x: Inbox, e: Envelope, a: Ambient) {
    && a.unseals && a.gate == GateOpen
    && a.now - 604800 <= e.created <= a.now + 300
    && |set id | id in x.receivedAt && x.receivedAt[id] >= a.now - 86400| < 10000
    && (e.num <= 100000 || exists d :: d in x.events && x.events[d].sender == e.sender && e.num <= x.events[d].num + 100000)
  }

  lemma GapIff(x: Inbox, e: Envelope)
    requires Valid(x)
    ensures e.num <= LastSeq(x, e.sender) + 100000
            <==> (e.num <= 100000 || exists d :: d in x.events && x.events[d].sender == e.sender && e.num <= x.events[d].num + 100000)
  {
    if e.sender in x.lastSeq {
      var d :| From(x.events, e.sender, d) && x.events[d].num == x.lastSeq[e.sender];
      assert d in x.events && x.events[d].sender == e.sender;
    }
  }

  lemma QuotaIff(x: Inbox, now: int)
    ensures RecentArrivals(x, now) == set id | id in x.receivedAt && x.receivedAt[id] >= now - 86400
  {
  }

  /** A stored id with other bytes is answered as a conflict, whatever else holds. */
  lemma SameIdAnswer(x: Inbox, e: Envelope, a: Ambient, applies: Applies, stop: Stop)
    requires e.id in x.events
    ensures var (t, o) := Receive(x, e, a, applies, stop);
            if x.events[e.id] == e then o == Accepted && t.events == x.events && t.receipts == x.receipts
            else t == x && o == Quarantined(EventIdConflict)
  {
  }

  /** A guarded nonce: the very envelope of the guard row is accepted, and any other one
      that was unsealed and let pass the gate is called nonce reuse; neither is stored. */
  lemma GuardIff(x: Inbox, e: Envelope, a: Ambient, applies: Applies, stop: Stop)
    requires e.id !in x.events && e.nonce in x.replay && a.unseals && a.gate == GateOpen
    ensures Receive(x, e, a, applies, stop) ==
            (x, if x.replay[e.nonce].envelope == e && x.replay[e.nonce].id == e.id then Accepted else Quarantined(NonceReuse))
  {
  }

  /** The exact answers to a new event.  It is stored exactly when it is in bounds and
      shares neither number nor nonce with anything stored or guarded; each of the three
      collision answers is given exactly when the checks before it pass. */
  lemma AnswersIff(x: Inbox, e: Envelope, a: Ambient, applies: Applies)
    requires Valid(x) && e.id !in x.events
    ensures var (t, o) := Receive(x, e, a, applies, Complete);
            var open := a.unseals && a.gate == GateOpen;
            var slot := exists d :: d in x.events && x.events[d].sender == e.sender && x.events[d].num == e.num;
            var spent := exists d :: d in x.events && x.events[d].nonce == e.nonce;
            && (o == Quarantined(NonceReuse) <==> open && e.nonce in x.replay)
            && (o == Quarantined(SequenceFork) <==> InBounds(x, e, a) && e.nonce !in x.replay && slot)
            && (o == Quarantined(IntegrityConflict) <==> InBounds(x, e, a) && e.nonce !in x.replay && !slot && spent)
            && (e.id in t.events <==> InBounds(x, e, a) && !slot && !spent)
            && (e.id in t.events ==> t.events == x.events[e.id := e] && t.receivedAt == x.receivedAt[e.id := a.now])
            && (e.id in t.events ==> t.replay == x.replay[e.nonce := Guard(e.id, e)])
            && (e.id !in t.events ==> t == x)
  {
    GapIff(x, e);
    QuotaIff(x, a.now);
    if e.nonce in x.replay {
      var d := x.replay[e.nonce].id;
      assert d in x.events && x.events[d].nonce == e.nonce;
    }
    AnswerSplit(x, e, a, applies);
  }

  lemma AnswerSplit(x: Inbox, e: Envelope, a: Ambient, applies: Applies)
    requires e.id !in x.events
    ensures var (t, o) := Receive(x, e, a, applies, Complete);
            if Admit(x, e, a).Some? then t == x && o == Admit(x, e, a).value
            else
              && t.events == x.events[e.id := e] && t.receivedAt == x.receivedAt[e.id := a.now]
              && t.replay == x.replay[e.nonce := Guard(e.id, e)]
              && (o == Accepted || o == Quarantined(ProjectionRefused))
  {
  }

  /** The other refusals of a new event, in order: no key, the gate, the nonce, too far
      ahead, too old, over the quota, too great a jump. */
  lemma BoundsAnswers(x: Inbox, e: Envelope, a: Ambient, applies: Applies)
    requires Valid(x) && e.id !in x.events
    ensures var o := Receive(x, e, a, applies, Complete).1;
            var waiting := |set id | id in x.receivedAt && x.receivedAt[id] >= a.now - 86400| >= 10000;
            var open := a.unseals && a.gate == GateOpen && e.nonce !in x.replay;
            && (o == Quarantined(UnsealFailed) <==> !a.unseals)
            && (o == Quarantined(EpochRejected) <==> a.unseals && a.gate == GateRejected)
            && (o == Quarantined(ClockFuture) <==> open && e.created > a.now + 300)
            && (o == Quarantined(ExpiredWindow) <==> open && e.created < a.now - 604800)
            && (o == Retry <==> a.unseals && (a.gate == GateRetry || (open && a.now - 604800 <= e.created <= a.now + 300 && waiting)))
            && (o == Quarantined(SeqGapTooLarge) <==>
                  && open && a.now - 604800 <= e.created <= a.now + 300 && !waiting && e.num > 100000
                  && forall d | d in x.events && x.events[d].sender == e.sender :: e.num > x.events[d].num + 100000)
  {
    GapIff(x, e);
    QuotaIff(x, a.now);
    AnswerSplit(x, e, a, applies);
  }

  // ---- Projection and receipts ----

  /** A completed delivery of a stored event hands it over at most once, and to the log
      of projections exactly when the projection takes it. */
  lemma ProjectionDecides(x: Inbox, e: Envelope, a: Ambient, applies: Applies)
    requires Valid(x)
    ensures var (t, o) := Receive(x, e, a, applies, Complete);
            var due := Stored(t, e) && (e.id in x.queued || e.id !in x.events);
            && (due && applies(x.applied, e) ==> t.applied == x.applied + [e] && t.rejected == x.rejected && o == Accepted)
            && (due && !applies(x.applied, e) ==>
                  && t.applied == x.applied && t.rejected == x.rejected + {e.id}
                  && o == if e.id in x.events then Accepted else Quarantined(ProjectionRefused))
            && (!due ==> t.applied == x.applied && t.rejected == x.rejected)
            && (Stored(t, e) ==> e.id !in t.queued)
  {
  }

  /** A delivery that is cut short before its commit changes nothing, and one cut short
      after it leaves what it stored queued for the next delivery. */
  lemma CutShort(x: Inbox, e: Envelope, a: Ambient, applies: Applies)
    ensures Receive(x, e, a, applies, BeforeCommit).0 == x
    ensures e.id in x.events ==> Receive(x, e, a, applies, AfterCommit).0 == x
    ensures var t := Receive(x, e, a, applies, AfterCommit).0;
            && t.applied == x.applied && t.rejected == x.rejected
            && (e.id !in x.events && e.id in t.events ==> t.queued == x.queued + {e.id})
  {
  }

  /** Every projection in the history succeeded on what was there before it, and every
      quarantined event failed at some point of the history. */
  ghost predicate HistoryOk(x: Inbox, applies: Applies) {
    && (forall i | 0 <= i < |x.applied| :: applies(x.applied[..i], x.applied[i]))
    && (forall id | id in x.rejected :: id in x.events && FailedAt(x, applies, x.events[id]))
  }

  ghost predicate FailedAt(x: Inbox, applies: Applies, e: Envelope) {
    exists i :: 0 <= i <= |x.applied| && !applies(x.applied[..i], e)
  }

  lemma NextHistory(x: Inbox, ev: Event, applies: Applies)
    requires Valid(x) && HistoryOk(x, applies)
    ensures HistoryOk(Next(x, ev, applies), applies)
  {
    if ev.Arrive? {
      var t := Next(x, ev, applies);
      HistoryGrows(x, ev.e, ev.a, applies, ev.stop);
      forall i | 0 <= i < |t.applied| ensures applies(t.applied[..i], t.applied[i]) {
        assert i <= |x.applied| && t.applied[..i] == x.applied[..i];
        if i == |x.applied| { assert x.applied[..i] == x.applied; }
      }
      forall id | id in t.rejected ensures id in t.events && FailedAt(t, applies, t.events[id]) {
        if id in x.rejected {
          var i :| 0 <= i <= |x.applied| && !applies(x.applied[..i], x.events[id]);
          assert t.applied[..i] == x.applied[..i];
        } else {
          assert t.applied[..|x.applied|] == x.applied;
        }
      }
    }
  }

  lemma HistoryGrows(x: Inbox, e: Envelope, a: Ambient, applies: Applies, stop: Stop)
    ensures var t := Receive(x, e, a, applies, stop).0;
            && (t.applied == x.applied || (t.applied == x.applied + [e] && applies(x.applied, e)))
            && (t.rejected == x.rejected
                || (t.rejected == x.rejected + {e.id} && t.applied == x.applied && Stored(t, e) && !applies(x.applied, e)))
            && (forall id | id in x.events :: id in t.events && t.events[id] == x.events[id])
  {
  }

  /** The delivery that stored an event, and what it settled: the receive time, and one
      receipt exactly when policy permitted it then and the event is no receipt itself. */
  ghost predicate StoredAt(run: seq<Event>, applies: Applies, id: EventId, i: nat) {
    && i < |run| && run[i].Arrive? && run[i].e.id == id && run[i].stop != BeforeCommit
    && id !in RunAny(EMPTY, run[..i], applies).events
  }

  ghost predicate Settled(run: seq<Event>, applies: Applies, id: EventId, i: nat, x: Inbox) {
    && StoredAt(run, applies, id, i)
    && id in x.events && id in x.receivedAt
    && x.events[id] == run[i].e && x.receivedAt[id] == run[i].a.now
    && (id in x.receipts <==> run[i].a.receiptsPermitted && !run[i].e.isReceipt)
  }

  lemma {:induction false} ReceiptsExactly(run: seq<Event>, applies: Applies, id: EventId) returns (i: nat)
    requires id in RunAny(EMPTY, run, applies).events
    ensures Settled(run, applies, id, i, RunAny(EMPTY, run, applies))
    decreases |run|
  {
    var init := run[..|run| - 1];
    if id in RunAny(EMPTY, init, applies).events {
      i := ReceiptsExactly(init, applies, id);
      SettledStays(run, applies, id, i);
    } else {
      i := |init|;
      SettledNow(run, applies, id);
    }
  }

  lemma RunValid(run: seq<Event>, applies: Applies)
    ensures Valid(RunAny(EMPTY, run, applies))
  {
    RunSound(EMPTY, run, applies);
  }

  lemma SettledStays(run: seq<Event>, applies: Applies, id: EventId, i: nat)
    requires run != [] && Settled(run[..|run| - 1], applies, id, i, RunAny(EMPTY, run[..|run| - 1], applies))
    ensures Settled(run, applies, id, i, RunAny(EMPTY, run, applies))
  {
    var init, last := run[..|run| - 1], run[|run| - 1];
    assert init[i] == run[i] && init[..i] == run[..i];
    NextReceipt(init, applies, last, id);
  }

  lemma SettledNow(run: seq<Event>, applies: Applies, id: EventId)
    requires run != [] && id in RunAny(EMPTY, run, applies).events && id !in RunAny(EMPTY, run[..|run| - 1], applies).events
    ensures Settled(run, applies, id, |run| - 1, RunAny(EMPTY, run, applies))
  {
    NextReceipt(run[..|run| - 1], applies, run[|run| - 1], id);
  }

  lemma NextReceipt(init: seq<Event>, applies: Applies, last: Event, id: EventId)
    ensures var x := RunAny(EMPTY, init, applies);
            var t := Next(x, last, applies);
            && (id in x.events ==>
                  && id in t.events && t.events[id] == x.events[id] && id in t.receivedAt && id in x.receivedAt
                  && t.receivedAt[id] == x.receivedAt[id] && (id in t.receipts <==> id in x.receipts))
            && (id !in x.events && id in t.events ==>
                  && last.Arrive? && last.e.id == id && last.stop != BeforeCommit
                  && t.events[id] == last.e && id in t.receivedAt && t.receivedAt[id] == last.a.now
                  && (id in t.receipts <==> last.a.receiptsPermitted && !last.e.isReceipt))
  {
    RunValid(init, applies);
    if last.Arrive? { ReceiptStep(RunAny(EMPTY, init, applies), last.e, last.a, applies, last.stop, id); }
  }

  lemma ReceiptStep(x: Inbox, e: Envelope, a: Ambient, applies: Applies, stop: Stop, id: EventId)
    requires x.receivedAt.Keys == x.events.Keys && (id in x.receipts ==> id in x.events)
    ensures var t := Receive(x, e, a, applies, stop).0;
            && (id in x.events ==>
                  && id in t.events && t.events[id] == x.events[id] && id in t.receivedAt && id in x.receivedAt
                  && t.receivedAt[id] == x.receivedAt[id] && (id in t.receipts <==> id in x.receipts))
            && (id !in x.events && id in t.events ==>
                  && e.id == id && stop != BeforeCommit && t.events[id] == e && id in t.receivedAt && t.receivedAt[id] == a.now
                  && (id in t.receipts <==> a.receiptsPermitted && !e.isReceipt))
  {
  }

  lemma {:induction false} HistoryFrom(x: Inbox, run: seq<Event>, applies: Applies)
    requires Sound(x) && HistoryOk(x, applies)
    ensures HistoryOk(RunAny(x, run, applies), applies)
    decreases |run|
  {
    if run != [] {
      var init := run[..|run| - 1];
      HistoryFrom(x, init, applies);
      RunSound(x, init, applies);
      NextHistory(RunAny(x, init, applies), run[|init|], applies);
    }
  }

  /** Over any deliveries by anybody: each projection in the history succeeded on what
      came before it, and each event quarantined by projection failed on some part of it. */
  lemma HistoryHolds(run: seq<Event>, applies: Applies)
    ensures var x := RunAny(EMPTY, run, applies);
            && (forall i | 0 <= i < |x.applied| :: applies(x.applied[..i], x.applied[i]))
            && (forall id | id in x.rejected :: id in x.events && FailedAt(x, applies, x.events[id]))
            && (forall id | id in x.events :: id in x.queued || id in x.rejected || Applied(x, id))
  {
    HistoryFrom(EMPTY, run, applies);
    RunValid(run, applies);
  }

  // ---- What a sender stores ----

  /** A sent event carries what it was asked to carry; an insert is refused exactly for a
      stored id or a stored nonce. */
  lemma PersistCarries(m: Events, s: Sender, id: EventId, nonce: Nonce, created: int, isReceipt: bool, body: nat)
    ensures var (t, r) := Persist(m, s, id, nonce, created, isReceipt, body);
            && (r == DuplicateEvent <==> id in m)
            && (r == DuplicateNonce <==> id !in m && exists d :: d in m && m[d].nonce == nonce)
            && (r.Persisted? ==>
                  var e := r.envelope;
                  && t == m[id := e]
                  && e.id == id && e.sender == s && e.nonce == nonce && e.created == created && e.isReceipt == isReceipt && e.body == body
                  && forall d | d in m && m[d].sender == s :: m[d].num < e.num)
  {
    if Persist(m, s, id, nonce, created, isReceipt, body).1.Persisted? {
      forall d | d in m && m[d].sender == s ensures m[d].num <= LastNumber(m, s) {
        assert From(m, s, d) && m[d].num in Numbers(m, s);
      }
    }
  }
}
