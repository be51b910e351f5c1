// What the watcher keeps over any sequence of uploads and cycles.

module WatcherRuns {
  import opened Base
  import opened WatcherCore

  // ---- One scan ----

  ghost predicate Unique(names: seq<Name>) { forall i, j | 0 <= i < j < |names| :: names[i] != names[j] }

  ghost predicate AllIn(names: seq<Name>, r: Relay) { forall n | n in names :: n in r.incoming }

  /** An object is where it was, or it moved to `consumed` with an outcome that ends it. */
  ghost predicate Moved(r: Relay, t: Relay, c: Cycle) {
    && (forall n | n in r.incoming ::
          || (n in t.incoming && t.incoming[n] == r.incoming[n])
          || (n !in t.incoming && n in t.consumed && Ends(r.incoming[n], c.answers(n)) == Some(t.consumed[n].1) && t.consumed[n].0 == r.incoming[n]))
    && (forall n | n in t.incoming :: n in r.incoming)
    && (forall n | n in r.consumed && n !in r.incoming :: n in t.consumed && t.consumed[n] == r.consumed[n])
    && (forall n | n in t.consumed :: n in r.consumed || n in r.incoming)
  }

  /** What one turn does when it goes on. */
  lemma VisitGoes(r: Relay, names: seq<Name>, seen: nat, bytes: nat, retries: nat, c: Cycle)
    requires AllIn(names, r) && Unique(names) && Visit(r, names, seen, bytes, retries, c).Go?
    ensures names != [] && Unique(names[1..]) && names[0] !in names[1..]
    ensures var (v, n) := (Visit(r, names, seen, bytes, retries, c), names[0]);
            && AllIn(names[1..], v.relay)
            && (match Ends(r.incoming[n], c.answers(n))
                case Some(why) => v.relay == Consume(r, n, why) && v.retries == retries
                case None => v.relay == r && v.retries == retries + 1)
  {
    var rest := names[1..];
    assert forall i | 0 <= i < |rest| :: rest[i] == names[i + 1];
    assert forall x | x in rest :: x in names && x != names[0];
  }

  lemma VisitStops(r: Relay, names: seq<Name>, seen: nat, bytes: nat, retries: nat, c: Cycle)
    requires AllIn(names, r) && Unique(names) && Visit(r, names, seen, bytes, retries, c).Stop?
    ensures var scan := Visit(r, names, seen, bytes, retries, c).scan;
            Moved(r, scan.relay, c) && scan.retries == retries && (scan.end == Exhausted ==> names == [] && scan.relay == r)
  {
  }

  lemma ConsumeMoves(r: Relay, n: Name, why: Why, t: Relay, c: Cycle)
    requires n in r.incoming && Ends(r.incoming[n], c.answers(n)) == Some(why)
    requires Moved(Consume(r, n, why), t, c)
    ensures Moved(r, t, c)
  {
    var r1 := Consume(r, n, why);
    forall x | x in r.incoming
      ensures (x in t.incoming && t.incoming[x] == r.incoming[x])
              || (x !in t.incoming && x in t.consumed && Ends(r.incoming[x], c.answers(x)) == Some(t.consumed[x].1) && t.consumed[x].0 == r.incoming[x])
    {
      if x != n { assert x in r1.incoming; } else { assert n in r1.consumed && n !in r1.incoming; }
    }
  }

  lemma {:induction false} StreamMoves(r: Relay, names: seq<Name>, seen: nat, bytes: nat, retries: nat, c: Cycle)
    requires AllIn(names, r) && Unique(names)
    ensures Moved(r, Stream(r, names, seen, bytes, retries, c).relay, c)
    decreases |names|
  {
    match Visit(r, names, seen, bytes, retries, c) {
      case Stop(_) => VisitStops(r, names, seen, bytes, retries, c);
      case Go(r1, total, pending) =>
        VisitGoes(r, names, seen, bytes, retries, c);
        StreamMoves(r1, names[1..], seen + 1, total, pending, c);
        var n := names[0];
        var ends := Ends(r.incoming[n], c.answers(n));
        if ends.Some? { ConsumeMoves(r, n, ends.value, Stream(r1, names[1..], seen + 1, total, pending, c).relay, c); }
    }
  }

  /** A scan that reaches the end has consumed every listed object that ended, and
      counted every other one as pending. */
  lemma {:induction false} ExhaustedScan(r: Relay, names: seq<Name>, seen: nat, bytes: nat, retries: nat, c: Cycle)
    requires AllIn(names, r) && Unique(names) && Stream(r, names, seen, bytes, retries, c).end == Exhausted
    ensures var s := Stream(r, names, seen, bytes, retries, c);
            && retries <= s.retries
            && (s.retries == retries ==> forall n | n in names :: n !in s.relay.incoming)
            && forall n | n in names :: (n in s.relay.incoming <==> Ends(r.incoming[n], c.answers(n)) == None)
    decreases |names|
  {
    match Visit(r, names, seen, bytes, retries, c) {
      case Stop(_) => VisitStops(r, names, seen, bytes, retries, c);
      case Go(r1, total, pending) =>
        VisitGoes(r, names, seen, bytes, retries, c);
        ExhaustedScan(r1, names[1..], seen + 1, total, pending, c);
        StreamMoves(r1, names[1..], seen + 1, total, pending, c);
        if names[0] in r1.incoming { StreamKeeps(r1, names[1..], seen + 1, total, pending, c, names[0]); }
        assert forall x | x in names :: x == names[0] || x in names[1..];
    }
  }

  lemma {:induction false} StreamKeeps(r: Relay, names: seq<Name>, seen: nat, bytes: nat, retries: nat, c: Cycle, n: Name)
    requires AllIn(names, r) && Unique(names) && n in r.incoming && n !in names
    ensures n in Stream(r, names, seen, bytes, retries, c).relay.incoming
    decreases |names|
  {
    if Visit(r, names, seen, bytes, retries, c).Go? {
      var v := Visit(r, names, seen, bytes, retries, c);
      VisitGoes(r, names, seen, bytes, retries, c);
      StreamKeeps(v.relay, names[1..], seen + 1, v.bytes, v.retries, c, n);
    }
  }

  // ---- One cycle ----

  /** Late uploads carry names seen nowhere else. */
  ghost predicate NewNames(r: Relay, late: map<Name, Obj>) { forall n | n in late :: n !in r.incoming && n !in r.consumed }

  ghost predicate Proper(r: Relay, names: seq<Name>, c: Cycle) { Lists(names, r.incoming) && NewNames(r, c.late) }

  lemma ListingOk(r: Relay, names: seq<Name>)
    requires Lists(names, r.incoming)
    ensures AllIn(names, r) && Unique(names)
  {
  }

  /** The relay after a cycle is the scan's, plus the late uploads. */
  lemma CycleRelay(r: Relay, m: Memory, names: seq<Name>, c: Cycle) returns (t: Relay)
    requires Proper(r, names, c)
    ensures AllIn(names, r) && Unique(names)
    ensures Moved(r, t, c) && RunOnce(r, m, names, c).0 == t.(incoming := t.incoming + c.late)
    ensures (t == r && m.head == Some(MarkOf(r.incoming))) || t == Stream(r, names, 0, 0, 0, c).relay
  {
    ListingOk(r, names);
    StreamMoves(r, names, 0, 0, 0, c);
    t := if m.head == Some(MarkOf(r.incoming)) then r else Stream(r, names, 0, 0, 0, c).relay;
  }

  /** Objects answered "retry" are never consumed, and what a cycle consumes it
      consumes with the outcome that ended it. */
  lemma RetryStays(r: Relay, m: Memory, names: seq<Name>, c: Cycle, n: Name)
    requires Proper(r, names, c) && n in r.incoming
    ensures AllIn(names, r) && Unique(names)
    ensures var t := RunOnce(r, m, names, c).0;
            && (Ends(r.incoming[n], c.answers(n)) == None ==> n in t.incoming && t.incoming[n] == r.incoming[n])
            && (n !in t.incoming ==> n in t.consumed && t.consumed[n].0 == r.incoming[n] && Ends(r.incoming[n], c.answers(n)) == Some(t.consumed[n].1))
  {
    var t := CycleRelay(r, m, names, c);
  }

  /** The checkpoint moves only after a scan that reached every object and left none
      of them pending; capped, over-budget, failed and crashed cycles leave it alone. */
  lemma AdvanceMeansAllDone(r: Relay, m: Memory, names: seq<Name>, c: Cycle)
    requires Proper(r, names, c)
    ensures AllIn(names, r) && Unique(names)
    ensures var (t, m', exit) := RunOnce(r, m, names, c);
            && (exit != Advanced ==> m'.head == m.head)
            && (exit == Advanced && m.head != Some(MarkOf(r.incoming)) ==>
                  (forall n | n in r.incoming :: n !in t.incoming) && t.incoming == c.late)
  {
    ListingOk(r, names);
    var (t, m', exit) := RunOnce(r, m, names, c);
    if exit == Advanced && m.head != Some(MarkOf(r.incoming)) {
      ExhaustedScan(r, names, 0, 0, 0, c);
      StreamMoves(r, names, 0, 0, 0, c);
      var s := Stream(r, names, 0, 0, 0, c);
      assert s.relay.incoming == map[];
      assert t.incoming == map[] + c.late == c.late;
    }
  }

  // ---- Whole runs ----

  datatype Step =
    | Upload(n: Name, o: Obj)
    | Poll(names: seq<Name>, c: Cycle)

  ghost predicate Legal(r: Relay, st: Step) {
    match st
    case Upload(n, o) => n !in r.incoming && n !in r.consumed
    case Poll(names, c) => Proper(r, names, c)
  }

  ghost function After(r: Relay, m: Memory, st: Step): (Relay, Memory)
    requires Legal(r, st)
  {
    match st
    case Upload(n, o) => (r.(incoming := r.incoming[n := o]), m)
    case Poll(names, c) =>
      ListingOk(r, names);
      (RunOnce(r, m, names, c).0, RunOnce(r, m, names, c).1)
  }

  ghost predicate LegalRun(r: Relay, m: Memory, run: seq<Step>)
    decreases |run|
  {
    run == [] || (Legal(r, run[0]) && LegalRun(After(r, m, run[0]).0, After(r, m, run[0]).1, run[1..]))
  }

  ghost function RunAll(r: Relay, m: Memory, run: seq<Step>): (Relay, Memory)
    requires LegalRun(r, m, run)
    decreases |run|
  {
    if run == [] then (r, m) else RunAll(After(r, m, run[0]).0, After(r, m, run[0]).1, run[1..])
  }

  /** Every object is waiting, or ended with an outcome. */
  ghost predicate Here(r: Relay, n: Name, o: Obj) {
    || (n in r.incoming && r.incoming[n] == o)
    || (n !in r.incoming && n in r.consumed && r.consumed[n].0 == o)
  }

  lemma StepKeeps(r: Relay, m: Memory, st: Step, n: Name, o: Obj)
    requires Legal(r, st) && Here(r, n, o)
    ensures Here(After(r, m, st).0, n, o)
  {
    if st.Poll? { var t := CycleRelay(r, m, st.names, st.c); }
  }

  /** Nothing is lost: over any run of uploads and cycles, with crashes, caps, spent
      budgets and uploads landing mid-cycle, an uploaded object is still waiting
      unchanged or was consumed, unchanged, after an outcome that ended it. */
  lemma {:induction false} NothingLost(r: Relay, m: Memory, run: seq<Step>, n: Name, o: Obj)
    requires LegalRun(r, m, run) && Here(r, n, o)
    ensures Here(RunAll(r, m, run).0, n, o)
    decreases |run|
  {
    if run != [] {
      StepKeeps(r, m, run[0], n, o);
      NothingLost(After(r, m, run[0]).0, After(r, m, run[0]).1, run[1..], n, o);
    }
  }

  // ---- Idle means empty ----

  /** The checkpoint, once set, is the mark of an empty relay. */
  ghost predicate HeadOk(m: Memory) { m.head.Some? ==> m.head.value == {} }

  lemma EmptyMark(incoming: map<Name, Obj>)
    ensures MarkOf(incoming) == {} <==> incoming == map[]
  {
    if incoming != map[] {
      var n :| n in incoming;
      assert (n, incoming[n].size) in MarkOf(incoming);
    }
  }

  predicate Quiet(st: Step) { st.Poll? ==> st.c.late == map[] }

  lemma StepHead(r: Relay, m: Memory, st: Step)
    requires Legal(r, st) && HeadOk(m) && Quiet(st)
    ensures HeadOk(After(r, m, st).1)
  {
    if st.Poll? {
      AdvanceMeansAllDone(r, m, st.names, st.c);
      EmptyMark(r.incoming);
      EmptyMark(map[]);
    }
  }

  lemma {:induction false} RunHead(r: Relay, m: Memory, run: seq<Step>)
    requires LegalRun(r, m, run) && HeadOk(m) && forall i | 0 <= i < |run| :: Quiet(run[i])
    ensures HeadOk(RunAll(r, m, run).1)
    decreases |run|
  {
    if run != [] {
      StepHead(r, m, run[0]);
      assert forall i | 0 <= i < |run[1..]| :: run[1..][i] == run[i + 1];
      RunHead(After(r, m, run[0]).0, After(r, m, run[0]).1, run[1..]);
    }
  }

  /** When no upload lands inside a cycle, a cycle that finds no work means that
      nothing is waiting. */
  lemma IdleMeansEmpty(run: seq<Step>, names: seq<Name>, c: Cycle)
    requires LegalRun(Relay(map[], map[]), Memory(None, 0), run) && forall i | 0 <= i < |run| :: Quiet(run[i])
    requires Proper(RunAll(Relay(map[], map[]), Memory(None, 0), run).0, names, c)
    ensures var (r, m) := RunAll(Relay(map[], map[]), Memory(None, 0), run);
            && AllIn(names, r) && Unique(names)
            && (RunOnce(r, m, names, c).2 == NoWork ==> r.incoming == map[])
  {
    var (r, m) := RunAll(Relay(map[], map[]), Memory(None, 0), run);
    RunHead(Relay(map[], map[]), Memory(None, 0), run);
    ListingOk(r, names);
    EmptyMark(r.incoming);
  }

  /** The exact condition.  After a cycle that advances the checkpoint past fresh
      work, the next cycle reports no work while objects are waiting if and only if
      some upload landed between that cycle's listing and its closing `head()`. */
  lemma LateUploadIff(r: Relay, m: Memory, names: seq<Name>, c: Cycle, names': seq<Name>, c': Cycle)
    requires Proper(r, names, c) && HeadOk(m)
    requires AllIn(names, r) && Unique(names) && RunOnce(r, m, names, c).2 == Advanced && m.head != Some(MarkOf(r.incoming))
    requires Proper(RunOnce(r, m, names, c).0, names', c')
    ensures var (t, m', _) := RunOnce(r, m, names, c);
            && AllIn(names', t) && Unique(names')
            && RunOnce(t, m', names', c').2 == NoWork && t.incoming == c.late
            && (t.incoming != map[] <==> c.late != map[])
  {
    AdvanceMeansAllDone(r, m, names, c);
    ListingOk(RunOnce(r, m, names, c).0, names');
  }
}
