// The watcher's receive cycle over the filesystem transport (watcher.py,
// transports/local.py): one pass over the incoming objects, what it consumes, and
// when it moves its checkpoint.

module WatcherCore {
  import opened Base

  type Name = nat

  const OBJECT_MAX_BYTES: nat := 262144
  const FETCH_MAX_OBJECTS: nat := 5000
  const FETCH_MAX_AGGREGATE_BYTES: nat := 256 * 1024 * 1024

  datatype Obj = Obj(size: nat, body: nat)

  /** What `receive_fn` answers for an object. */
  datatype Answer = Accepted | Quarantined | RetryPending | Fails

  datatype Why = WasAccepted | WasQuarantined | TooLarge

  /** The two directories; a consumed object is kept with the outcome that ended it. */
  datatype Relay = Relay(incoming: map<Name, Obj>, consumed: map<Name, (Obj, Why)>)

  /** `head()`: a digest of the names and sizes, taken as injective. */
  type Mark = set<(Name, nat)>

  function MarkOf(incoming: map<Name, Obj>): Mark { set n | n in incoming :: (n, incoming[n].size) }

  /** The watcher state file. */
  datatype Memory = Memory(head: Option<Mark>, retryPending: nat)

  /** What one cycle meets: the answers, the visit at which the time budget is found
      spent, at which the process dies, or in whose consume it dies with the copy made
      and the original not yet removed; and the uploads that land after the listing. */
  datatype Cycle = Cycle(
    answers: Name -> Answer, budgetAt: Option<nat>,
    diesAt: Option<nat>, diesConsuming: Option<nat>, late: map<Name, Obj>)

  datatype End = Exhausted | Capped | OverBudget | Fatal | Died

  datatype Scan = Scan(relay: Relay, retries: nat, end: End)

  /** What the stream counts for an object: an oversized one is a bounded placeholder. */
  function Delivered(o: Obj): nat { if o.size <= OBJECT_MAX_BYTES then o.size else OBJECT_MAX_BYTES + 1 }

  function CopyAside(r: Relay, n: Name, why: Why): Relay
    requires n in r.incoming
  {
    r.(consumed := r.consumed[n := (r.incoming[n], why)])
  }

  function Consume(r: Relay, n: Name, why: Why): Relay
    requires n in r.incoming
  {
    Relay(r.incoming - {n}, r.consumed[n := (r.incoming[n], why)])
  }

  /** The outcome that ends an object, if it is not to stay. */
  function Ends(o: Obj, a: Answer): Option<Why> {
    if o.size > OBJECT_MAX_BYTES then Some(TooLarge)
    else match a
         case Accepted => Some(WasAccepted)
         case Quarantined => Some(WasQuarantined)
         case _ => None
  }

  datatype Turn = Stop(scan: Scan) | Go(relay: Relay, bytes: nat, retries: nat)

  /** One turn of `fetch_new_stream` with the watcher's `visit`. */
  function Visit(r: Relay, names: seq<Name>, seen: nat, bytes: nat, retries: nat, c: Cycle): Turn
    requires forall n | n in names :: n in r.incoming
  {
    if c.diesAt == Some(seen) then Stop(Scan(r, retries, Died))
    else if names == [] then Stop(Scan(r, retries, Exhausted))
    else
      var n := names[0];
      var o := r.incoming[n];
      var total := bytes + Delivered(o);
      if seen >= FETCH_MAX_OBJECTS || total > FETCH_MAX_AGGREGATE_BYTES then Stop(Scan(r, retries, Capped))
      else if c.budgetAt == Some(seen) then Stop(Scan(r, retries, OverBudget))
      else
        match Ends(o, c.answers(n))
        case Some(why) =>
          if c.diesConsuming == Some(seen) then Stop(Scan(CopyAside(r, n, why), retries, Died))
          else Go(Consume(r, n, why), total, retries)
        case None =>
          if c.answers(n) == Fails then Stop(Scan(r, retries, Fatal)) else Go(r, total, retries + 1)
  }

  /** The stream over the listed names. */
  function Stream(r: Relay, names: seq<Name>, seen: nat, bytes: nat, retries: nat, c: Cycle): Scan
    requires forall n | n in names :: n in r.incoming
    requires forall i, j | 0 <= i < j < |names| :: names[i] != names[j]
    decreases |names|
  {
    match Visit(r, names, seen, bytes, retries, c)
    case Stop(scan) => scan
    case Go(r', total, pending) => Stream(r', names[1..], seen + 1, total, pending, c)
  }

  /** The listing: every incoming name, in order. */
  ghost predicate Lists(names: seq<Name>, incoming: map<Name, Obj>) {
    && (forall i, j | 0 <= i < j < |names| :: names[i] < names[j])
    && (forall n :: n in names <==> n in incoming)
  }

  datatype Exit = NoWork | Advanced | Partial | Retryable | Failed | Crashed

  /** The cycle after the stream: what is saved, and how it ends. */
  function Settle(m: Memory, s: Scan, late: map<Name, Obj>): (Relay, Memory, Exit) {
    var r := s.relay.(incoming := s.relay.incoming + late);
    match s.end
    case Died => (r, m, Crashed)
    case Fatal => (r, m, Failed)
    case OverBudget => (r, m.(retryPending := s.retries), Partial)
    case Capped => (r, m.(retryPending := s.retries), Retryable)
    case Exhausted =>
      if s.retries == 0 then (r, Memory(Some(MarkOf(r.incoming)), 0), Advanced)
      else (r, m.(retryPending := s.retries), Retryable)
  }

  /** `_run_once_locked` past the throttle; `names` is the listing of its scan. */
  function RunOnce(r: Relay, m: Memory, names: seq<Name>, c: Cycle): (Relay, Memory, Exit)
    requires forall n | n in names :: n in r.incoming
    requires forall i, j | 0 <= i < j < |names| :: names[i] != names[j]
  {
    var remote := MarkOf(r.incoming);
    if m.head == Some(remote) && m.retryPending == 0 then (r.(incoming := r.incoming + c.late), m, NoWork)
    else if m.head == Some(remote) then Settle(m, Scan(r, 0, Exhausted), c.late)
    else Settle(m, Stream(r, names, 0, 0, 0, c), c.late)
  }
}
