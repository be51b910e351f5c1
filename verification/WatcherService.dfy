// `LocalTransport` and the watcher cycle as statements over directories and the
// state file (transports/local.py, watcher.py).

module WatcherService {
  import opened Base
  import opened WatcherCore
  import opened WatcherRuns

  class LocalTransport {
    var incoming: map<Name, Obj>
    var consumed: map<Name, (Obj, Why)>

    function Dirs(): Relay
      reads this
    {
      Relay(incoming, consumed)
    }

    constructor ()
      ensures Dirs() == Relay(map[], map[])
    {
      incoming, consumed := map[], map[];
    }

    /** `upload` refuses an oversized object and writes any other. */
    method UploadObject(n: Name, o: Obj) returns (ok: bool)
      modifies this`incoming
      ensures ok == (o.size <= OBJECT_MAX_BYTES)
      ensures Dirs() == if ok then Relay(old(incoming)[n := o], consumed) else old(Dirs())
    {
      ok := o.size <= OBJECT_MAX_BYTES;
      if ok { incoming := incoming[n := o]; }
    }

    /** The first half of `consume`: the copy is in place, the original still there. */
    method WriteConsumed(n: Name, why: Why)
      modifies this`consumed
      ensures Dirs() == if n in incoming then CopyAside(old(Dirs()), n, why) else old(Dirs())
    {
      if n in incoming { consumed := consumed[n := (incoming[n], why)]; }
    }

    /** `consume`: copied to the other directory, then removed; a second call changes nothing. */
    method ConsumeObject(n: Name, why: Why)
      modifies this
      ensures Dirs() == if n in old(incoming) then Consume(old(Dirs()), n, why) else old(Dirs())
    {
      if n !in incoming { return; }
      WriteConsumed(n, why);
      incoming := incoming - {n};
    }

    /** `sorted(glob)`. */
    method List() returns (names: seq<Name>)
      ensures Lists(names, incoming)
    {
      names := [];
      var rest := incoming.Keys;
      while rest != {}
        invariant rest <= incoming.Keys
        invariant forall n :: n in incoming <==> n in names || n in rest
        invariant forall i, j | 0 <= i < j < |names| :: names[i] < names[j]
        invariant forall i, n | 0 <= i < |names| && n in rest :: names[i] < n
      {
        var least := Min(rest);
        rest := rest - {least};
        names := names + [least];
      }
    }
  }

  class Watcher {
    var head: Option<Mark>
    var retryPending: nat

    function State(): Memory
      reads this
    {
      Memory(head, retryPending)
    }

    constructor ()
      ensures State() == Memory(None, 0)
    {
      head, retryPending := None, 0;
    }

    /** The streaming loop with `visit` inlined; the budget and the caps are checked
        before an object is handed over. */
    method ReceiveStream(t: LocalTransport, names: seq<Name>, c: Cycle) returns (retries: nat, end: End)
      requires AllIn(names, t.Dirs()) && Unique(names)
      modifies t
      ensures Scan(t.Dirs(), retries, end) == Stream(old(t.Dirs()), names, 0, 0, 0, c)
    {
      ghost var start := t.Dirs();
      retries := 0;
      var seen: nat, bytes: nat := 0, 0;
      assert names[0..] == names;
      while seen < |names|
        invariant 0 <= seen <= |names| && AllIn(names[seen..], t.Dirs()) && Unique(names[seen..])
        invariant Stream(start, names, 0, 0, 0, c) == Stream(t.Dirs(), names[seen..], seen, bytes, retries, c)
      {
        if c.diesAt == Some(seen) { return retries, Died; }
        ghost var rest := names[seen..];
        assert rest[0] == names[seen] && rest[1..] == names[seen + 1..];
        ghost var before, pending := t.Dirs(), retries;
        var n := names[seen];
        var o := t.incoming[n];
        if seen >= FETCH_MAX_OBJECTS || bytes + Delivered(o) > FETCH_MAX_AGGREGATE_BYTES { return retries, Capped; }
        if c.budgetAt == Some(seen) { return retries, OverBudget; }
        var why := Ends(o, c.answers(n));
        if why.Some? {
          if c.diesConsuming == Some(seen) {
            t.WriteConsumed(n, why.value);
            return retries, Died;
          }
          t.ConsumeObject(n, why.value);
        } else {
          if c.answers(n) == Fails { return retries, Fatal; }
          retries := retries + 1;
        }
        VisitGoes(before, rest, seen, bytes, pending, c);
        seen := seen + 1;
        bytes := bytes + Delivered(o);
      }
      end := if c.diesAt == Some(seen) then Died else Exhausted;
    }

    /** One cycle past the throttle.  Uploads that land during it arrive after the scan. */
    method RunCycle(t: LocalTransport, c: Cycle) returns (exit: Exit, ghost names: seq<Name>)
      modifies this, t
      ensures Lists(names, old(t.incoming)) && AllIn(names, old(t.Dirs())) && Unique(names)
      ensures (t.Dirs(), State(), exit) == RunOnce(old(t.Dirs()), old(State()), names, c)
    {
      ghost var before := t.Dirs();
      var remote := MarkOf(t.incoming);
      var listing := t.List();
      names := listing;
      ListingOk(before, names);
      if head == Some(remote) && retryPending == 0 {
        t.incoming := t.incoming + c.late;
        return NoWork, names;
      }
      var retries: nat, end := 0, Exhausted;
      if head != Some(remote) { retries, end := ReceiveStream(t, listing, c); }
      t.incoming := t.incoming + c.late;
      exit := Checkpoint(t, retries, end);
    }

    method Checkpoint(t: LocalTransport, retries: nat, end: End) returns (exit: Exit)
      modifies this
      ensures t.Dirs() == old(t.Dirs())
      ensures forall r: Relay, late: map<Name, Obj> | t.Dirs() == r.(incoming := r.incoming + late) ::
                (t.Dirs(), State(), exit) == Settle(old(State()), Scan(r, retries, end), late)
    {
      match end {
        case Died => exit := Crashed;
        case Fatal => exit := Failed;
        case OverBudget =>
          retryPending := retries;
          exit := Partial;
        case Capped =>
          retryPending := retries;
          exit := Retryable;
        case Exhausted =>
          if retries == 0 {
            head := Some(MarkOf(t.incoming));
            retryPending := 0;
            exit := Advanced;
          } else {
            retryPending := retries;
            exit := Retryable;
          }
      }
    }
  }
}
