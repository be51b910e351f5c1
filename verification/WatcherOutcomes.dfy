// What one poll cycle does to each object and to the state file, told by sizes,
// answers and the visit at which it stops.

module WatcherOutcomes {
  import opened Base
  import opened WatcherCore
  import opened WatcherRuns

  // ---- What becomes of an object ----

  /** The answer decides: an object within the size limit that is answered "retry" or
      whose visit fails is left alone, and whatever leaves the incoming directory is
      kept, whole, under the outcome of its size and answer. */
  lemma AnswerDecides(r: Relay, m: Memory, names: seq<Name>, c: Cycle, n: Name)
    requires Proper(r, names, c) && n in r.incoming
    ensures AllIn(names, r) && Unique(names)
    ensures var (o, a, t) := (r.incoming[n], c.answers(n), RunOnce(r, m, names, c).0);
            && (o.size <= 262144 && (a == RetryPending || a == Fails) ==> n in t.incoming && t.incoming[n] == o)
            && (n in t.incoming ==> t.incoming[n] == o)
            && (n !in t.incoming ==>
                  && n in t.consumed && t.consumed[n].0 == o
                  && (t.consumed[n].1 == TooLarge <==> o.size > 262144)
                  && (t.consumed[n].1 == WasAccepted <==> o.size <= 262144 && a == Accepted)
                  && (t.consumed[n].1 == WasQuarantined <==> o.size <= 262144 && a == Quarantined))
  {
    var t := CycleRelay(r, m, names, c);
  }

  // ---- Where a scan stops ----

  /** An object within the size limit whose answer is "retry". */
  predicate Pending(all: map<Name, Obj>, n: Name, c: Cycle)
    requires n in all
  {
    all[n].size <= 262144 && c.answers(n) == RetryPending
  }

  ghost predicate Within(all: map<Name, Obj>, names: seq<Name>) { forall n | n in names :: n in all }

  function PendingCount(all: map<Name, Obj>, names: seq<Name>, c: Cycle): nat
    requires Within(all, names)
  {
    if names == [] then 0
    else (if Pending(all, names[0], c) then 1 else 0) + PendingCount(all, names[1..], c)
  }

  /** The bytes a scan takes in: one past the limit for each oversized object. */
  function Total(all: map<Name, Obj>, names: seq<Name>): nat
    requires Within(all, names)
  {
    if names == [] then 0
    else (if all[names[0]].size <= 262144 then all[names[0]].size else 262145) + Total(all, names[1..])
  }

  /** The listed objects are still as they were listed. */
  ghost predicate Still(all: map<Name, Obj>, names: seq<Name>, r: Relay) {
    forall n | n in names :: n in all && n in r.incoming && r.incoming[n] == all[n]
  }

  /** The first `k` visits, counted from `seen`, met nothing that stops a scan. */
  ghost predicate Passed(all: map<Name, Obj>, names: seq<Name>, seen: nat, bytes: nat, c: Cycle, k: nat)
    requires Within(all, names) && k <= |names|
  {
    && seen + k <= 5000 && bytes + Total(all, names[..k]) <= 268435456
    && (forall j | 0 <= j < k ::
          && c.budgetAt != Some(seen + j) && c.diesAt != Some(seen + j)
          && (all[names[j]].size <= 262144 ==> c.answers(names[j]) != Fails)
          && (c.diesConsuming == Some(seen + j) ==> Pending(all, names[j], c)))
  }

  /** What the visit at `k` met. */
  ghost predicate StoppedBy(all: map<Name, Obj>, names: seq<Name>, seen: nat, bytes: nat, c: Cycle, k: nat, end: End)
    requires Within(all, names) && k <= |names|
  {
    match end
    case Exhausted => k == |names|
    case Capped => k < |names| && (seen + k >= 5000 || bytes + Total(all, names[..k + 1]) > 268435456)
    case OverBudget => k < |names| && c.budgetAt == Some(seen + k)
    case Fatal => k < |names| && all[names[k]].size <= 262144 && c.answers(names[k]) == Fails
    case Died =>
      || c.diesAt == Some(seen + k)
      || (k < |names| && c.diesConsuming == Some(seen + k) && !Pending(all, names[k], c))
  }

  /** The directories when `k` visits went on: those objects are gone unless pending,
      the later ones are where they were. */
  ghost predicate LeftAfter(all: map<Name, Obj>, names: seq<Name>, c: Cycle, k: nat, t: Relay)
    requires Within(all, names) && k <= |names|
  {
    && (forall j | 0 <= j < k :: names[j] in t.incoming <==> Pending(all, names[j], c))
    && (forall j | k <= j < |names| :: names[j] in t.incoming)
  }

  lemma Longer(all: map<Name, Obj>, names: seq<Name>, c: Cycle, k: nat)
    requires Within(all, names) && names != [] && k < |names|
    ensures Within(all, names[1..]) && Within(all, names[..k + 1]) && Within(all, names[1..][..k])
    ensures Total(all, names[..k + 1]) == Total(all, names[..1]) + Total(all, names[1..][..k])
    ensures PendingCount(all, names[..k + 1], c) == PendingCount(all, names[..1], c) + PendingCount(all, names[1..][..k], c)
  {
    assert names[..k + 1][1..] == names[1..][..k];
    assert names[..1] == [names[0]] && [names[0]][1..] == [];
    assert names[..k + 1][0] == names[0];
  }

  /** A first visit that goes on, put before what the rest of the scan meets. */
  lemma PassedMore(all: map<Name, Obj>, names: seq<Name>, seen: nat, bytes: nat, c: Cycle, k: nat)
    requires Within(all, names) && names != [] && k < |names| && Within(all, names[1..])
    requires Passed(all, names, seen, bytes, c, 1)
    requires Passed(all, names[1..], seen + 1, bytes + Total(all, names[..1]), c, k)
    ensures Passed(all, names, seen, bytes, c, k + 1)
  {
    Longer(all, names, c, k);
    forall j | 0 <= j < k + 1
      ensures c.budgetAt != Some(seen + j) && c.diesAt != Some(seen + j)
      ensures all[names[j]].size <= 262144 ==> c.answers(names[j]) != Fails
      ensures c.diesConsuming == Some(seen + j) ==> Pending(all, names[j], c)
    {
      if j > 0 { assert names[1..][j - 1] == names[j] && seen + 1 + (j - 1) == seen + j; }
    }
  }

  lemma StoppedMore(all: map<Name, Obj>, names: seq<Name>, seen: nat, bytes: nat, c: Cycle, k: nat, end: End)
    requires Within(all, names) && names != [] && k < |names| && Within(all, names[1..])
    requires StoppedBy(all, names[1..], seen + 1, bytes + Total(all, names[..1]), c, k, end)
    ensures StoppedBy(all, names, seen, bytes, c, k + 1, end)
  {
    if k + 1 < |names| { Longer(all, names, c, k + 1); }
  }

  lemma LeftMore(all: map<Name, Obj>, names: seq<Name>, c: Cycle, k: nat, t: Relay)
    requires Within(all, names) && names != [] && k < |names| && Within(all, names[1..])
    requires LeftAfter(all, names[1..], c, k, t) && (names[0] in t.incoming <==> Pending(all, names[0], c))
    ensures LeftAfter(all, names, c, k + 1, t)
  {
    assert forall j | 0 < j < |names| :: names[j] == names[1..][j - 1];
  }

  /** A visit that goes on met nothing that stops a scan, and leaves its object only if
      it is pending. */
  lemma GoesOn(all: map<Name, Obj>, r: Relay, names: seq<Name>, seen: nat, bytes: nat, retries: nat, c: Cycle)
    requires Unique(names) && Still(all, names, r) && Visit(r, names, seen, bytes, retries, c).Go?
    ensures names != [] && Unique(names[1..]) && Within(all, names) && Within(all, names[1..])
    ensures Passed(all, names, seen, bytes, c, 1)
    ensures var v := Visit(r, names, seen, bytes, retries, c);
            && Still(all, names[1..], v.relay) && AllIn(names[1..], v.relay) && names[0] !in names[1..]
            && v.bytes == bytes + Total(all, names[..1])
            && v.retries == retries + PendingCount(all, names[..1], c)
            && (names[0] in v.relay.incoming <==> Pending(all, names[0], c))
  {
    VisitGoes(r, names, seen, bytes, retries, c);
    assert names[..1] == [names[0]] && [names[0]][1..] == [];
  }

  /** A visit that stops. */
  lemma StopsHere(all: map<Name, Obj>, r: Relay, names: seq<Name>, seen: nat, bytes: nat, retries: nat, c: Cycle)
    requires Unique(names) && Still(all, names, r) && AllIn(names, r) && Visit(r, names, seen, bytes, retries, c).Stop?
    ensures Within(all, names)
    ensures var s := Visit(r, names, seen, bytes, retries, c).scan;
            && StoppedBy(all, names, seen, bytes, c, 0, s.end)
            && s.retries == retries && LeftAfter(all, names, c, 0, s.relay)
  {
    if names != [] { assert names[..1] == [names[0]] && [names[0]][1..] == []; }
  }

  /** The first object's place is settled by the first visit. */
  lemma FirstStays(r: Relay, names: seq<Name>, seen: nat, bytes: nat, retries: nat, c: Cycle, n: Name)
    requires AllIn(names, r) && Unique(names) && n !in names
    ensures n in Stream(r, names, seen, bytes, retries, c).relay.incoming <==> n in r.incoming
  {
    StreamMoves(r, names, seen, bytes, retries, c);
    if n in r.incoming { StreamKeeps(r, names, seen, bytes, retries, c, n); }
  }

  /** A scan that settled `k` objects. */
  ghost predicate Told(all: map<Name, Obj>, names: seq<Name>, seen: nat, bytes: nat, retries: nat, c: Cycle, k: nat, s: Scan)
    requires Within(all, names)
  {
    && k <= |names|
    && Passed(all, names, seen, bytes, c, k)
    && StoppedBy(all, names, seen, bytes, c, k, s.end)
    && s.retries == retries + PendingCount(all, names[..k], c)
    && LeftAfter(all, names, c, k, s.relay)
  }

  lemma ToldMore(all: map<Name, Obj>, names: seq<Name>, seen: nat, bytes: nat, retries: nat, c: Cycle, k: nat, s: Scan)
    requires Within(all, names) && names != [] && Within(all, names[1..]) && Passed(all, names, seen, bytes, c, 1)
    requires Told(all, names[1..], seen + 1, bytes + Total(all, names[..1]), retries + PendingCount(all, names[..1], c), c, k, s)
    requires names[0] in s.relay.incoming <==> Pending(all, names[0], c)
    ensures Told(all, names, seen, bytes, retries, c, k + 1, s)
  {
    Longer(all, names, c, k);
    PassedMore(all, names, seen, bytes, c, k);
    StoppedMore(all, names, seen, bytes, c, k, s.end);
    LeftMore(all, names, c, k, s.relay);
  }

  /** A scan goes over its listing in order and stops at the first visit that meets a
      cap, the spent budget, a failing answer or a crash. */
  lemma {:induction false} ScanStops(
      all: map<Name, Obj>, r: Relay, names: seq<Name>, seen: nat, bytes: nat, retries: nat, c: Cycle)
    returns (k: nat)
    requires AllIn(names, r) && Within(all, names)
    requires Unique(names) && Still(all, names, r) && seen <= 5000 && bytes <= 268435456
    ensures Told(all, names, seen, bytes, retries, c, k, Stream(r, names, seen, bytes, retries, c))
    decreases |names|
  {
    var v := Visit(r, names, seen, bytes, retries, c);
    if v.Stop? {
      k := 0;
      StopsHere(all, r, names, seen, bytes, retries, c);
    } else {
      GoesOn(all, r, names, seen, bytes, retries, c);
      var rest := names[1..];
      var i := ScanStops(all, v.relay, rest, seen + 1, v.bytes, v.retries, c);
      FirstStays(v.relay, rest, seen + 1, v.bytes, v.retries, c, names[0]);
      ToldMore(all, names, seen, bytes, retries, c, i, Stream(v.relay, rest, seen + 1, v.bytes, v.retries, c));
      k := i + 1;
    }
  }

  // ---- One cycle ----

  /** The first `k` listed objects were visited and went on: what is left is the pending
      ones among them, everything behind them, and the uploads of the meantime. */
  ghost predicate Left(r: Relay, names: seq<Name>, c: Cycle, k: nat, t: Relay)
    requires Within(r.incoming, names) && k <= |names|
  {
    && (forall j | 0 <= j < k :: names[j] in t.incoming <==> Pending(r.incoming, names[j], c))
    && (forall j | k <= j < |names| :: names[j] in t.incoming)
    && (forall n | n in t.incoming :: if n in r.incoming then t.incoming[n] == r.incoming[n] else n in c.late && t.incoming[n] == c.late[n])
    && (forall n | n in c.late :: n in t.incoming)
  }

  lemma LeftIn(r: Relay, names: seq<Name>, c: Cycle, k: nat, t: Relay)
    requires Proper(r, names, c) && Within(r.incoming, names) && k <= |names|
    requires Moved(r, t, c) && LeftAfter(r.incoming, names, c, k, t)
    ensures Left(r, names, c, k, t.(incoming := t.incoming + c.late))
  {
    assert forall j | 0 <= j < |names| :: names[j] in names && names[j] in r.incoming && names[j] !in c.late;
  }

  /** How the cycle ends, from what stopped its scan at `k`. */
  ghost predicate EndTold(r: Relay, m: Memory, names: seq<Name>, c: Cycle, k: nat, now: Mark, m': Memory, exit: Exit)
    requires Within(r.incoming, names) && k <= |names|
  {
    var waiting := PendingCount(r.incoming, names[..k], c);
    match exit
    case NoWork => false
    case Advanced => k == |names| && waiting == 0 && m' == Memory(Some(now), 0)
    case Partial => k < |names| && c.budgetAt == Some(k) && m' == Memory(m.head, waiting)
    case Retryable =>
      && m' == Memory(m.head, waiting)
      && (k == |names| ==> waiting > 0)
      && (k < |names| ==> k == 5000 || Total(r.incoming, names[..k + 1]) > 268435456)
    case Failed => k < |names| && r.incoming[names[k]].size <= 262144 && c.answers(names[k]) == Fails && m' == m
    case Crashed => (c.diesAt == Some(k) || c.diesConsuming == Some(k)) && m' == m
  }

  lemma SettleTold(r: Relay, m: Memory, names: seq<Name>, c: Cycle, k: nat, s: Scan)
    requires Within(r.incoming, names) && Told(r.incoming, names, 0, 0, 0, c, k, s)
    ensures var (t, m', exit) := Settle(m, s, c.late);
            EndTold(r, m, names, c, k, MarkOf(t.incoming), m', exit)
  {
  }

  /** The whole cycle on fresh work.  `k` objects were handed over and settled; the exit
      says what stopped it there, and the state file keeps the number left pending. */
  lemma CycleTold(r: Relay, m: Memory, names: seq<Name>, c: Cycle) returns (k: nat)
    requires Proper(r, names, c) && m.head != Some(MarkOf(r.incoming))
    ensures AllIn(names, r) && Unique(names) && Within(r.incoming, names) && k <= |names|
    ensures Passed(r.incoming, names, 0, 0, c, k)
    ensures var (t, m', exit) := RunOnce(r, m, names, c);
            Left(r, names, c, k, t) && EndTold(r, m, names, c, k, MarkOf(t.incoming), m', exit)
  {
    ListingOk(r, names);
    k := ScanStops(r.incoming, r, names, 0, 0, 0, c);
    var s := Stream(r, names, 0, 0, 0, c);
    SettleTold(r, m, names, c, k, s);
    StreamMoves(r, names, 0, 0, 0, c);
    LeftIn(r, names, c, k, s.relay);
  }

  lemma {:induction false} PrefixTotal(all: map<Name, Obj>, names: seq<Name>, k: nat)
    requires Within(all, names) && k <= |names|
    ensures Within(all, names[..k]) && Total(all, names[..k]) <= Total(all, names)
  {
    if k > 0 {
      assert names[..k][1..] == names[1..][..k - 1] && names[..k][0] == names[0];
      PrefixTotal(all, names[1..], k - 1);
    }
  }

  lemma AllPending(r: Relay, names: seq<Name>, c: Cycle, t: Relay)
    requires Lists(names, r.incoming) && NewNames(r, c.late) && Within(r.incoming, names) && Left(r, names, c, |names|, t)
    ensures forall n :: n in t.incoming <==> n in c.late || (n in r.incoming && Pending(r.incoming, n, c))
  {
    forall n | n in r.incoming ensures n in t.incoming <==> Pending(r.incoming, n, c) {
      assert n in names;
    }
  }

  lemma CutOrWhole(r: Relay, m: Memory, names: seq<Name>, c: Cycle, k: nat, now: Mark, m': Memory, exit: Exit)
    requires Proper(r, names, c) && c.budgetAt == None && c.diesAt == None && c.diesConsuming == None
    requires forall n | n in r.incoming :: r.incoming[n].size <= 262144 ==> c.answers(n) != Fails
    requires Within(r.incoming, names) && k <= |names| && Passed(r.incoming, names, 0, 0, c, k)
    requires EndTold(r, m, names, c, k, now, m', exit)
    ensures k == |names| <==> |names| <= 5000 && Total(r.incoming, names) <= 268435456
    ensures k == |names| ==> m'.retryPending == PendingCount(r.incoming, names, c)
    ensures exit == (if k == |names| && m'.retryPending == 0 then Advanced else Retryable)
    ensures k < |names| ==> m'.head == m.head
  {
    assert names[..|names|] == names;
    if k < |names| {
      assert names[k] in names;
      PrefixTotal(r.incoming, names, k + 1);
    }
  }

  /** With no crash, no spent budget and no failing visit, a cycle on fresh work takes in
      its whole listing when that is at most 5000 objects and 256 MiB: what is left is
      exactly the objects answered "retry" and the late uploads, and the checkpoint moves
      exactly when none was.  A longer listing is cut: the checkpoint stays and the cycle
      is to be tried again. */
  lemma WholeListing(r: Relay, m: Memory, names: seq<Name>, c: Cycle)
    requires Proper(r, names, c) && m.head != Some(MarkOf(r.incoming))
    requires c.budgetAt == None && c.diesAt == None && c.diesConsuming == None
    requires forall n | n in r.incoming :: r.incoming[n].size <= 262144 ==> c.answers(n) != Fails
    ensures AllIn(names, r) && Unique(names) && Within(r.incoming, names)
    ensures var ((t, m', exit), waiting) := (RunOnce(r, m, names, c), PendingCount(r.incoming, names, c));
            if |names| <= 5000 && Total(r.incoming, names) <= 268435456 then
              && exit == (if waiting == 0 then Advanced else Retryable) && m'.retryPending == waiting
              && (forall n :: n in t.incoming <==> n in c.late || (n in r.incoming && Pending(r.incoming, n, c)))
            else
              exit == Retryable && m'.head == m.head
  {
    var k := CycleTold(r, m, names, c);
    var (t, m', exit) := RunOnce(r, m, names, c);
    CutOrWhole(r, m, names, c, k, MarkOf(t.incoming), m', exit);
    if k == |names| { AllPending(r, names, c, t); }
  }

  // ---- Known heads ----

  lemma MarkHas(incoming: map<Name, Obj>, n: Name, size: nat)
    ensures (n, size) in MarkOf(incoming) <==> n in incoming && incoming[n].size == size
  {
  }

  /** Two directories have one head exactly when they hold the same names with the same sizes. */
  lemma SameMarkIff(a: map<Name, Obj>, b: map<Name, Obj>)
    ensures MarkOf(a) == MarkOf(b) <==> (a.Keys == b.Keys && forall n | n in a :: n in b && a[n].size == b[n].size)
  {
    if MarkOf(a) == MarkOf(b) {
      forall n ensures n in a <==> n in b
      ensures n in a ==> n in b && a[n].size == b[n].size
      {
        if n in a { MarkHas(a, n, a[n].size); MarkHas(b, n, a[n].size); }
        if n in b { MarkHas(a, n, b[n].size); MarkHas(b, n, b[n].size); }
      }
      assert a.Keys == b.Keys;
    }
    if a.Keys == b.Keys && forall n | n in a :: n in b && a[n].size == b[n].size {
      assert MarkOf(a) == MarkOf(b);
    }
  }

  /** A cycle that finds the checkpointed head hands over nothing.  It reports no work and
      leaves the state file alone exactly when nothing was pending. */
  lemma KnownHead(r: Relay, m: Memory, names: seq<Name>, c: Cycle)
    requires Proper(r, names, c)
    ensures AllIn(names, r) && Unique(names)
    ensures var (t, m', exit) := RunOnce(r, m, names, c);
            && (exit == NoWork <==> m.head == Some(MarkOf(r.incoming)) && m.retryPending == 0)
            && (exit == NoWork ==> m' == m)
            && (m.head == Some(MarkOf(r.incoming)) ==>
                  && t == Relay(r.incoming + c.late, r.consumed)
                  && (m.retryPending > 0 ==> exit == Advanced && m' == Memory(Some(MarkOf(t.incoming)), 0)))
  {
    ListingOk(r, names);
    if m.head != Some(MarkOf(r.incoming)) { var k := CycleTold(r, m, names, c); }
  }
}
