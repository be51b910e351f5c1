// The receiver's log refines the sender's: whole runs of both ends.

module EventRuns {
  import opened Base
  import opened EventLog

  // ---- The sender numbers its events 1..n ----

  /** Every number from 1 to n is taken by exactly one event, and ids are the keys. */
  ghost predicate Numbered(m: Events, s: Sender, n: nat) {
    && (forall id | id in m :: m[id].id == id)
    && (forall id | From(m, s, id) :: 1 <= m[id].num <= n)
    && (forall k | 1 <= k <= n :: Taken(m, s, k))
    && (forall c, d | From(m, s, c) && From(m, s, d) && m[c].num == m[d].num :: c == d)
  }

  ghost predicate Taken(m: Events, s: Sender, k: nat) { exists id :: From(m, s, id) && m[id].num == k }

  ghost predicate NoncesDiffer(m: Events) { forall c, d | c in m && d in m && m[c].nonce == m[d].nonce :: c == d }

  lemma LastIsCount(m: Events, s: Sender, n: nat)
    requires Numbered(m, s, n)
    ensures LastNumber(m, s) == n
  {
    forall k | k in Numbers(m, s) ensures k <= n {
      var id :| id in m && From(m, s, id) && m[id].num == k;
    }
    if n > 0 {
      assert Taken(m, s, n);
      var id :| From(m, s, id) && m[id].num == n;
      assert n in Numbers(m, s);
    }
  }

  lemma PersistNumbers(m: Events, s: Sender, n: nat, id: EventId, nonce: Nonce, created: int, isReceipt: bool, body: nat)
    requires Numbered(m, s, n) && NoncesDiffer(m)
    ensures var (t, r) := Persist(m, s, id, nonce, created, isReceipt, body);
            && NoncesDiffer(t)
            && (r.Persisted? ==> Numbered(t, s, n + 1) && r.envelope.num == n + 1)
            && (!r.Persisted? ==> t == m)
  {
    LastIsCount(m, s, n);
    if Persist(m, s, id, nonce, created, isReceipt, body).1.Persisted? {
      NumberedGrows(m, s, n, Envelope(id, s, n + 1, nonce, created, isReceipt, body));
    }
  }

  lemma NumberedGrows(m: Events, s: Sender, n: nat, e: Envelope)
    requires Numbered(m, s, n) && e.id !in m && e.sender == s && e.num == n + 1
    ensures Numbered(m[e.id := e], s, n + 1)
  {
    var t, id := m[e.id := e], e.id;
    assert forall d :: From(t, s, d) <==> d == id || From(m, s, d);
    forall k | 1 <= k <= n + 1 ensures Taken(t, s, k) {
      if k == n + 1 {
        assert From(t, s, id) && t[id].num == k;
      } else {
        assert Taken(m, s, k);
        var d :| From(m, s, d) && m[d].num == k;
        assert From(t, s, d) && t[d].num == k;
      }
    }
  }

  datatype Draft = Draft(id: EventId, nonce: Nonce, created: int, isReceipt: bool, body: nat)

  function SendAll(m: Events, s: Sender, drafts: seq<Draft>): Events
    decreases |drafts|
  {
    if drafts == [] then m
    else
      var d := drafts[0];
      SendAll(Persist(m, s, d.id, d.nonce, d.created, d.isReceipt, d.body).0, s, drafts[1..])
  }

  /** However many sends were refused on the way, the log is numbered 1..n. */
  lemma {:induction false} SendAllNumbers(m: Events, s: Sender, n: nat, drafts: seq<Draft>) returns (k: nat)
    requires Numbered(m, s, n) && NoncesDiffer(m)
    ensures n <= k <= n + |drafts| && Numbered(SendAll(m, s, drafts), s, k) && NoncesDiffer(SendAll(m, s, drafts))
    decreases |drafts|
  {
    if drafts == [] {
      k := n;
    } else {
      var d := drafts[0];
      PersistNumbers(m, s, n, d.id, d.nonce, d.created, d.isReceipt, d.body);
      var p := Persist(m, s, d.id, d.nonce, d.created, d.isReceipt, d.body);
      k := SendAllNumbers(p.0, s, if p.1.Persisted? then n + 1 else n, drafts[1..]);
    }
  }

  // ---- The receiver's invariant ----

  ghost predicate Stored(x: Inbox, e: Envelope) { e.id in x.events && x.events[e.id] == e }

  predicate Applied(x: Inbox, id: EventId) { exists i :: 0 <= i < |x.applied| && x.applied[i].id == id }

  ghost predicate Keyed(x: Inbox) { forall id | id in x.events :: x.events[id].id == id }

  /** A queue row exists exactly while an event is stored but neither projected nor quarantined. */
  ghost predicate QueueOk(x: Inbox) {
    && (forall id :: id in x.queued <==> id in x.events && !Applied(x, id) && id !in x.rejected)
    && (forall id | Applied(x, id) :: id in x.events && id !in x.rejected)
    && (forall i, j | 0 <= i < j < |x.applied| :: x.applied[i].id != x.applied[j].id)
    && (forall id | id in x.rejected :: id in x.events)
    && x.receivedAt.Keys == x.events.Keys
  }

  ghost predicate ReceiptsOk(x: Inbox) {
    && (forall i | 0 <= i < |x.receipts| :: x.receipts[i] in x.events)
    && (forall i, j | 0 <= i < j < |x.receipts| :: x.receipts[i] != x.receipts[j])
  }

  /** `last_seq` is the greatest stored number, and guard rows describe stored events. */
  ghost predicate CountersOk(x: Inbox) {
    && (forall id | id in x.events :: x.events[id].num <= LastSeq(x, x.events[id].sender))
    && (forall s | s in x.lastSeq :: exists id :: From(x.events, s, id) && x.events[id].num == x.lastSeq[s])
    && (forall n | n in x.replay :: x.replay[n].envelope.nonce == n && x.replay[n].id == x.replay[n].envelope.id && Stored(x, x.replay[n].envelope))
  }

  ghost predicate Valid(x: Inbox) { Keyed(x) && QueueOk(x) && ReceiptsOk(x) && CountersOk(x) }

  lemma CommitCounters(x: Inbox, e: Envelope, a: Ambient)
    requires Valid(x) && e.id !in x.events
    ensures CountersOk(Commit(x, e, a))
  {
    var t := Commit(x, e, a);
    forall s | s in t.lastSeq ensures exists id :: From(t.events, s, id) && t.events[id].num == t.lastSeq[s] {
      if s == e.sender && t.lastSeq[s] == e.num {
        assert From(t.events, s, e.id) && t.events[e.id].num == e.num;
      } else {
        var id :| From(x.events, s, id) && x.events[id].num == x.lastSeq[s];
        assert From(t.events, s, id) && t.events[id].num == t.lastSeq[s];
      }
    }
    forall id | id in t.events ensures t.events[id].num <= LastSeq(t, t.events[id].sender) {
      if id != e.id { assert x.events[id].num <= LastSeq(x, x.events[id].sender); }
    }
  }

  lemma CommitKeepsValid(x: Inbox, e: Envelope, a: Ambient)
    requires Valid(x) && e.id !in x.events
    ensures Valid(Commit(x, e, a))
  {
    var t := Commit(x, e, a);
    CommitCounters(x, e, a);
    assert forall id :: Applied(t, id) <==> Applied(x, id);
    assert !Applied(x, e.id);
    forall i | 0 <= i < |t.receipts| ensures t.receipts[i] in t.events {}
  }

  lemma ProjectKeepsValid(x: Inbox, id: EventId, applies: Applies)
    requires Valid(x) && id in x.events
    ensures Valid(Project(x, id, applies))
    ensures id !in Project(x, id, applies).queued
  {
    var t := Project(x, id, applies);
    if id in x.queued && applies(x.applied, x.events[id]) {
      forall d ensures Applied(t, d) <==> Applied(x, d) || d == id {
        if Applied(x, d) {
          var i :| 0 <= i < |x.applied| && x.applied[i].id == d;
          assert t.applied[i].id == d;
        }
        if d == id { assert t.applied[|x.applied|].id == id; }
        if Applied(t, d) {
          var i :| 0 <= i < |t.applied| && t.applied[i].id == d;
          assert i == |x.applied| || x.applied[i].id == d;
        }
      }
      forall i, j | 0 <= i < j < |t.applied| ensures t.applied[i].id != t.applied[j].id {
        if j == |x.applied| { assert x.applied[i].id == t.applied[i].id && Applied(x, x.applied[i].id); }
      }
    } else {
      assert forall d :: Applied(t, d) <==> Applied(x, d);
    }
  }

  lemma ReceiveKeepsValid(x: Inbox, e: Envelope, a: Ambient, applies: Applies, stop: Stop)
    requires Valid(x)
    ensures Valid(Receive(x, e, a, applies, stop).0)
  {
    if e.id in x.events {
      ProjectKeepsValid(x, e.id, applies);
    } else {
      CommitKeepsValid(x, e, a);
      ProjectKeepsValid(Commit(x, e, a), e.id, applies);
      ReceiveShape(x, e, a, applies, stop);
    }
  }

  /** A delivery of a new event leaves one of three tables. */
  lemma ReceiveShape(x: Inbox, e: Envelope, a: Ambient, applies: Applies, stop: Stop)
    requires e.id !in x.events
    ensures Receive(x, e, a, applies, stop).0 == x
            || Receive(x, e, a, applies, stop).0 == Commit(x, e, a)
            || Receive(x, e, a, applies, stop).0 == Project(Commit(x, e, a), e.id, applies)
  {
  }

  // ---- An honest sender's deliveries ----

  /** Different events of the sender differ in id, number and nonce; what is stored
      from it is among them, and nobody else's events share an id or nonce. */
  ghost predicate Honest(sent: Events, s: Sender) {
    && (forall id | id in sent :: sent[id].id == id && sent[id].sender == s)
    && (forall c, d | c in sent && d in sent && sent[c].num == sent[d].num :: c == d)
    && NoncesDiffer(sent)
  }

  ghost predicate OnlyFrom(x: Inbox, sent: Events) { forall id | id in x.events :: id in sent && x.events[id] == sent[id] }

  /** The three conditions a caller can check: age window, quota and gap cap. */
  predicate WithinLimits(x: Inbox, e: Envelope, a: Ambient) {
    && a.unseals && a.gate == GateOpen
    && a.now - ACCEPT_WINDOW <= e.created <= a.now + FUTURE_TOLERANCE
    && |RecentArrivals(x, a.now)| < INGRESS_MAX_EVENTS_PER_DAY
    && e.num <= LastSeq(x, e.sender) + MAX_SEQ_GAP
  }

  predicate NeverForged(o: Outcome) {
    o != Quarantined(EventIdConflict) && o != Quarantined(NonceReuse) && o != Quarantined(SequenceFork) && o != Quarantined(IntegrityConflict)
  }

  /** An honest delivery: never called a forgery, stored exactly when it already
      was or it is within the limits, and then off the queue once it completes. */
  ghost predicate FairlyTreated(x: Inbox, sent: Events, id: EventId, a: Ambient, stop: Stop, t: Inbox, o: Outcome)
    requires id in sent
  {
    var kept := Stored(x, sent[id]) || WithinLimits(x, sent[id], a);
    && NeverForged(o) && OnlyFrom(t, sent)
    && t.events.Keys == x.events.Keys + (if stop != BeforeCommit && kept then {id} else {})
    && (stop == Complete && kept ==> (o == Accepted || o == Quarantined(ProjectionRefused)) && id !in t.queued)
  }

  lemma HonestDelivery(x: Inbox, sent: Events, s: Sender, id: EventId, a: Ambient, applies: Applies, stop: Stop)
    requires Valid(x) && Honest(sent, s) && OnlyFrom(x, sent) && id in sent
    ensures var (t, o) := Receive(x, sent[id], a, applies, stop); FairlyTreated(x, sent, id, a, stop, t, o)
  {
    if id in x.events {
      ProjectShape(x, id, applies);
    } else {
      HonestAdmit(x, sent, s, id, a);
      FirstDelivery(x, sent, id, a, applies, stop);
    }
  }

  lemma FirstDelivery(x: Inbox, sent: Events, id: EventId, a: Ambient, applies: Applies, stop: Stop)
    requires OnlyFrom(x, sent) && id in sent && sent[id].id == id && id !in x.events
    requires Admit(x, sent[id], a).None? <==> WithinLimits(x, sent[id], a)
    requires Admit(x, sent[id], a).Some? ==> NeverForged(Admit(x, sent[id], a).value)
    ensures var (t, o) := Receive(x, sent[id], a, applies, stop); FairlyTreated(x, sent, id, a, stop, t, o)
  {
    if Admit(x, sent[id], a).None? {
      NewDelivery(x, sent[id], a, applies, stop);
    } else {
      Refusal(x, sent[id], a, applies, stop);
    }
  }

  lemma Refusal(x: Inbox, e: Envelope, a: Ambient, applies: Applies, stop: Stop)
    requires e.id !in x.events && Admit(x, e, a).Some?
    ensures Receive(x, e, a, applies, stop) == (x, Admit(x, e, a).value)
  {
  }

  /** A delivery that passes every check. */
  lemma NewDelivery(x: Inbox, e: Envelope, a: Ambient, applies: Applies, stop: Stop)
    requires e.id !in x.events && Admit(x, e, a).None?
    ensures var (t, o) := Receive(x, e, a, applies, stop);
            && t.events == (if stop == BeforeCommit then x.events else x.events[e.id := e])
            && NeverForged(o)
            && (stop == Complete ==> (o == Accepted || o == Quarantined(ProjectionRefused)) && e.id !in t.queued)
  {
    ProjectShape(Commit(x, e, a), e.id, applies);
  }

  lemma ProjectShape(x: Inbox, id: EventId, applies: Applies)
    requires id in x.events
    ensures Project(x, id, applies).events == x.events && id !in Project(x, id, applies).queued
  {
  }

  /** A new honest event collides with nothing stored, so only the limits decide. */
  lemma HonestAdmit(x: Inbox, sent: Events, s: Sender, id: EventId, a: Ambient)
    requires Valid(x) && Honest(sent, s) && OnlyFrom(x, sent) && id in sent && id !in x.events
    ensures Admit(x, sent[id], a).None? <==> WithinLimits(x, sent[id], a)
    ensures Admit(x, sent[id], a).Some? ==> NeverForged(Admit(x, sent[id], a).value) && Admit(x, sent[id], a).value != Accepted
  {
    var e := sent[id];
    forall d | d in x.events ensures x.events[d].nonce != e.nonce && (x.events[d].num != e.num || d == e.id) {
      assert x.events[d] == sent[d];
    }
  }

  // ---- Whole runs ----

  datatype Step =
    | Deliver(id: EventId, a: Ambient, stop: Stop)
    | PruneGuard(nonces: set<Nonce>)

  function After(x: Inbox, sent: Events, st: Step, applies: Applies): Inbox {
    match st
    case Deliver(id, a, stop) => if id in sent then Receive(x, sent[id], a, applies, stop).0 else x
    case PruneGuard(nonces) => Prune(x, nonces)
  }

  function RunAll(x: Inbox, sent: Events, run: seq<Step>, applies: Applies): Inbox
    decreases |run|
  {
    if run == [] then x
    else After(RunAll(x, sent, run[..|run| - 1], applies), sent, run[|run| - 1], applies)
  }

  /** Some delivery of `id` got as far as its commit while within the limits. */
  ghost predicate Admitted(x: Inbox, sent: Events, run: seq<Step>, applies: Applies, id: EventId) {
    exists i :: 0 <= i < |run| && AdmittedAt(RunAll(x, sent, run[..i], applies), sent, run[i], id)
  }

  predicate AdmittedAt(x: Inbox, sent: Events, st: Step, id: EventId) {
    st.Deliver? && st.id == id && id in sent && st.stop != BeforeCommit && WithinLimits(x, sent[id], st.a)
  }

  lemma PruneKeepsValid(x: Inbox, nonces: set<Nonce>)
    requires Valid(x)
    ensures Valid(Prune(x, nonces))
  {
    var t := Prune(x, nonces);
    assert forall id :: Applied(t, id) <==> Applied(x, id);
    assert forall s | s in t.lastSeq :: exists id :: From(x.events, s, id) && x.events[id].num == x.lastSeq[s];
  }

  lemma {:induction false} RunKeepsValid(x: Inbox, sent: Events, s: Sender, run: seq<Step>, applies: Applies)
    requires Valid(x) && Honest(sent, s) && OnlyFrom(x, sent)
    ensures Valid(RunAll(x, sent, run, applies)) && OnlyFrom(RunAll(x, sent, run, applies), sent)
    decreases |run|
  {
    if run != [] {
      RunKeepsValid(x, sent, s, run[..|run| - 1], applies);
      var y := RunAll(x, sent, run[..|run| - 1], applies);
      match run[|run| - 1]
      case Deliver(id, a, stop) =>
        if id in sent {
          ReceiveKeepsValid(y, sent[id], a, applies, stop);
          HonestDelivery(y, sent, s, id, a, applies, stop);
        }
      case PruneGuard(nonces) => PruneKeepsValid(y, nonces);
    }
  }

  lemma {:induction false} LogIsAdmitted(sent: Events, s: Sender, run: seq<Step>, applies: Applies, id: EventId)
    requires Honest(sent, s)
    ensures id in RunAll(EMPTY, sent, run, applies).events <==> Admitted(EMPTY, sent, run, applies, id)
    decreases |run|
  {
    if run != [] {
      var init := run[..|run| - 1];
      var y := RunAll(EMPTY, sent, init, applies);
      LogIsAdmitted(sent, s, init, applies, id);
      RunKeepsValid(EMPTY, sent, s, init, applies);
      if run[|run| - 1].Deliver? && run[|run| - 1].id in sent {
        HonestDelivery(y, sent, s, run[|run| - 1].id, run[|run| - 1].a, applies, run[|run| - 1].stop);
      }
      AdmittedGrows(sent, run, applies, id);
    }
  }

  lemma AdmittedGrows(sent: Events, run: seq<Step>, applies: Applies, id: EventId)
    requires run != []
    ensures var init := run[..|run| - 1];
            Admitted(EMPTY, sent, run, applies, id) <==>
              || Admitted(EMPTY, sent, init, applies, id)
              || AdmittedAt(RunAll(EMPTY, sent, init, applies), sent, run[|run| - 1], id)
  {
    var init := run[..|run| - 1];
    if Admitted(EMPTY, sent, run, applies, id) { AdmittedWas(sent, run, applies, id); }
    if Admitted(EMPTY, sent, init, applies, id) { AdmittedStays(sent, run, applies, id); }
  }

  lemma AdmittedWas(sent: Events, run: seq<Step>, applies: Applies, id: EventId)
    requires run != [] && Admitted(EMPTY, sent, run, applies, id)
    ensures var init := run[..|run| - 1];
            Admitted(EMPTY, sent, init, applies, id) || AdmittedAt(RunAll(EMPTY, sent, init, applies), sent, run[|run| - 1], id)
  {
    var init := run[..|run| - 1];
    var i :| 0 <= i < |run| && AdmittedAt(RunAll(EMPTY, sent, run[..i], applies), sent, run[i], id);
    if i < |init| {
      assert init[i] == run[i] && init[..i] == run[..i];
      assert AdmittedAt(RunAll(EMPTY, sent, init[..i], applies), sent, init[i], id);
    }
  }

  lemma AdmittedStays(sent: Events, run: seq<Step>, applies: Applies, id: EventId)
    requires run != [] && Admitted(EMPTY, sent, run[..|run| - 1], applies, id)
    ensures Admitted(EMPTY, sent, run, applies, id)
  {
    var init := run[..|run| - 1];
    var i :| 0 <= i < |init| && AdmittedAt(RunAll(EMPTY, sent, init[..i], applies), sent, init[i], id);
    assert init[i] == run[i] && init[..i] == run[..i];
  }

  /** End to end.  Whatever the sender sent, in whatever order, multiplicity and
      with whatever crashes it is delivered: the receiver's log is exactly the set
      of admitted events as sent; the next delivery is never called a fork, a
      conflict or nonce reuse; `last_seq` is the greatest stored number; a queue row
      marks exactly the unprojected ones; and each event has at most one receipt. */
  lemma LogRefinement(s: Sender, drafts: seq<Draft>, run: seq<Step>, applies: Applies, id: EventId, a: Ambient, stop: Stop)
    ensures var sent := SendAll(map[], s, drafts); var x := RunAll(EMPTY, sent, run, applies);
            && (id in x.events <==> Admitted(EMPTY, sent, run, applies, id))
            && (id in x.events ==> id in sent && x.events[id] == sent[id])
            && (id in sent ==> NeverForged(Receive(x, sent[id], a, applies, stop).1))
            && LastSeq(x, s) == LastNumber(x.events, s)
            && Valid(x)
  {
    assert Numbered(map[], s, 0) && NoncesDiffer(map[]);
    var n := SendAllNumbers(map[], s, 0, drafts);
    var sent := SendAll(map[], s, drafts);
    AllFrom(map[], s, drafts);
    assert forall c | c in sent :: From(sent, s, c);
    assert Honest(sent, s);
    assert Valid(EMPTY);
    LogIsAdmitted(sent, s, run, applies, id);
    RunKeepsValid(EMPTY, sent, s, run, applies);
    var x := RunAll(EMPTY, sent, run, applies);
    if id in sent { HonestDelivery(x, sent, s, id, a, applies, stop); }
    LastSeqIsMax(x, sent, s);
  }

  lemma {:induction false} AllFrom(m: Events, s: Sender, drafts: seq<Draft>)
    requires forall id | id in m :: m[id].sender == s
    ensures forall id | id in SendAll(m, s, drafts) :: SendAll(m, s, drafts)[id].sender == s
    decreases |drafts|
  {
    if drafts != [] {
      var d := drafts[0];
      AllFrom(Persist(m, s, d.id, d.nonce, d.created, d.isReceipt, d.body).0, s, drafts[1..]);
    }
  }

  lemma LastSeqIsMax(x: Inbox, sent: Events, s: Sender)
    requires Valid(x) && Honest(sent, s) && OnlyFrom(x, sent)
    ensures LastSeq(x, s) == LastNumber(x.events, s)
  {
    forall k | k in Numbers(x.events, s) ensures k <= LastSeq(x, s) {
      var id :| id in x.events && From(x.events, s, id) && x.events[id].num == k;
    }
    if s in x.lastSeq {
      var id :| From(x.events, s, id) && x.events[id].num == x.lastSeq[s];
      assert x.lastSeq[s] in Numbers(x.events, s);
    } else if Numbers(x.events, s) != {} {
      var k :| k in Numbers(x.events, s);
      assert k <= 0;
    }
  }

  // ---- Crash convergence of one event ----

  predicate StopsOk(tries: seq<(Ambient, Stop)>) { tries != [] && tries[|tries| - 1].1 == Complete }

  function Tries(x: Inbox, e: Envelope, tries: seq<(Ambient, Stop)>, applies: Applies): Inbox
    decreases |tries|
  {
    if tries == [] then x else Tries(Receive(x, e, tries[0].0, applies, tries[0].1).0, e, tries[1..], applies)
  }

  /** The first delivery that commits decides everything. */
  function FirstCommit(x: Inbox, e: Envelope, tries: seq<(Ambient, Stop)>): (i: nat)
    ensures i <= |tries|
    decreases |tries|
  {
    if tries == [] then 0
    else if tries[0].1 != BeforeCommit && Admit(x, e, tries[0].0).None? then 0
    else 1 + FirstCommit(x, e, tries[1..])
  }

  /** Delivering one new event any number of times, each cut short anywhere, and at
      last once completely, ends in the same tables as one crash-free delivery in
      the surroundings of the first one that committed. */
  lemma {:induction false} CrashConvergence(x: Inbox, e: Envelope, tries: seq<(Ambient, Stop)>, applies: Applies)
    requires Valid(x) && e.id !in x.events && StopsOk(tries) && FirstCommit(x, e, tries) < |tries|
    ensures Tries(x, e, tries, applies) == Receive(x, e, tries[FirstCommit(x, e, tries)].0, applies, Complete).0
    decreases |tries|
  {
    var (a, stop) := tries[0];
    if stop != BeforeCommit && Admit(x, e, a).None? {
      CommittedConverges(x, e, tries, applies);
    } else {
      assert Receive(x, e, a, applies, stop).0 == x;
      assert |tries| > 1 && tries[1..][|tries| - 2] == tries[|tries| - 1];
      CrashConvergence(x, e, tries[1..], applies);
    }
  }

  lemma CommittedConverges(x: Inbox, e: Envelope, tries: seq<(Ambient, Stop)>, applies: Applies)
    requires Valid(x) && e.id !in x.events && StopsOk(tries)
    requires tries[0].1 != BeforeCommit && Admit(x, e, tries[0].0).None?
    ensures Tries(x, e, tries, applies) == Receive(x, e, tries[0].0, applies, Complete).0
  {
    var (a, stop) := tries[0];
    var x1 := Commit(x, e, a);
    CommitKeepsValid(x, e, a);
    ProjectShape(x1, e.id, applies);
    if stop == AfterCommit {
      assert |tries| > 1 && tries[1..][|tries| - 2] == tries[|tries| - 1];
      ResumeConverges(x1, e, tries[1..], applies);
    } else {
      DoneStays(Project(x1, e.id, applies), e, tries[1..], applies);
    }
  }

  /** Committed but not yet projected: the resume path finishes it, once. */
  lemma {:induction false} ResumeConverges(x: Inbox, e: Envelope, tries: seq<(Ambient, Stop)>, applies: Applies)
    requires Valid(x) && Stored(x, e) && StopsOk(tries)
    ensures Tries(x, e, tries, applies) == Project(x, e.id, applies)
    decreases |tries|
  {
    ProjectKeepsValid(x, e.id, applies);
    if tries[0].1 == Complete {
      DoneStays(Project(x, e.id, applies), e, tries[1..], applies);
    } else {
      assert |tries| > 1 && tries[1..][|tries| - 2] == tries[|tries| - 1];
      ResumeConverges(x, e, tries[1..], applies);
    }
  }

  lemma {:induction false} DoneStays(x: Inbox, e: Envelope, tries: seq<(Ambient, Stop)>, applies: Applies)
    requires Stored(x, e) && e.id !in x.queued
    ensures Tries(x, e, tries, applies) == x
    decreases |tries|
  {
    if tries != [] { DoneStays(x, e, tries[1..], applies); }
  }
}
