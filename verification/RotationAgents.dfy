// Two installations that rotate keys with each other: what one local action
// does to its tables and which sealed envelopes it sends
// (cli.py: _recipients_for, _try_unseal, the receive hooks, cmd_rotate).
//
// An envelope is the event it carries, the set of keys it is wrapped to, and
// its `key_epoch` header.

module RotationAgents {
  import opened Base
  import opened RotationCore

  datatype Msg =
    | PrepareMsg(id: EventId, p: Prepare)
    | AckMsg(epoch: Epoch, prepareId: EventId)
    | ConfirmMsg(confirmEpoch: Epoch)
    | CommitMsg(commitEpoch: Epoch)
    | DataMsg

  datatype Env = Env(msg: Msg, wraps: set<Key>, stamp: Epoch)

  /** What an installation can do.  `sent`, `reply` and `marked` are false when a
      crash or a refused send cuts the action short at that point; `Take` is an
      envelope received whose hook is left for `Rehook`. */
  datatype Act =
    | Rotate(key: Key, id: EventId, bound: bool, sent: bool)
    | Hear(env: Env, reply: bool)
    | Take(env: Env)
    | Rehook(env: Env, reply: bool)
    | SendConfirm(marked: bool)
    | SendCommit(marked: bool)
    | Maintain(order: seq<Epoch>, stopped: bool)
    | Say

  function Seal(s: Store, msg: Msg): seq<Env> {
    match RecipientsFor(s)
    case Recipients(wraps, stamp) => [Env(msg, wraps, stamp)]
    case CannotSend => []
  }

  /** The post-receive hook of one accepted event. */
  function Hook(s: Store, env: Env, reply: bool, now: int): (Store, seq<Env>) {
    match env.msg
    case PrepareMsg(id, p) =>
      var r := OnPrepare(s, p, id, now);
      (r.0, if r.1.AckFor? && reply then Seal(r.0, AckMsg(r.1.ackEpoch, id)) else [])
    case AckMsg(e, id) => (OnAck(s, e, id, now).0, [])
    case ConfirmMsg(e) => (OnConfirm(s, e).0, [])
    case CommitMsg(e) => (OnCommit(s, e, now).0, [])
    case DataMsg => (NoteAcceptedEvent(NoteDecryptedNewWrap(s, env.stamp, now)), [])
  }

  /** Unsealing and the epoch gate come before any hook. */
  predicate Accepts(s: Store, env: Env) {
    Opens(s, env.wraps) && env.stamp <= CurrentEpoch(s)
  }

  function Local(s: Store, act: Act, now: int): (Store, seq<Env>) {
    match act
    case Rotate(key, id, bound, sent) =>
      var r := Begin(s, key, if bound then Some(id) else None, now);
      if r.1.Prepared? then (r.0, if sent then Seal(r.0, PrepareMsg(id, r.1.prepare)) else []) else (s, [])
    case Hear(env, reply) =>
      if Accepts(s, env) then Hook(s, env, reply, now) else (s, [])
    case Take(env) => (s, [])
    case Rehook(env, reply) => Hook(s, env, reply, now)
    case SendConfirm(marked) =>
      var b := BuildConfirm(s);
      if b.EpochReply?
      then (if marked then MarkConfirmed(s).0 else s, Seal(s, ConfirmMsg(b.replyEpoch)))
      else (s, [])
    case SendCommit(marked) =>
      var b := BuildCommit(s);
      if b.EpochReply?
      then (if marked then MarkCommitted(s, now).0 else s, Seal(s, CommitMsg(b.replyEpoch)))
      else (s, [])
    case Maintain(order, stopped) => (Sweep(s, order, stopped, now), [])
    case Say => (s, Seal(s, DataMsg))
  }

  /** An installation with its history: everything it ever sent, the prepare
      behind each event id it drew, the key it acknowledged per epoch, and the id
      under which it last began a rotation to an epoch. */
  datatype Agent = Agent(
    store: Store,
    out: set<Env>,
    prepares: map<EventId, Prepare>,
    acked: map<Epoch, Key>,
    begun: map<Epoch, EventId>)

  function Moved(x: Agent, act: Act, now: int): Agent {
    var r := Local(x.store, act, now);
    var began := if act.Rotate? then Begin(x.store, act.key, if act.bound then Some(act.id) else None, now).1 else Done;
    var acks := if (act.Hear? && Accepts(x.store, act.env)) || act.Rehook? then AckedBy(x.store, act.env.msg, now) else None;
    Agent(
      r.0,
      x.out + (set env | env in r.1),
      if began.Prepared? then x.prepares[act.id := began.prepare] else x.prepares,
      if acks.Some? && acks.value.0 !in x.acked then x.acked[acks.value.0 := acks.value.1] else x.acked,
      if began.Prepared? then x.begun[began.epoch := act.id] else x.begun)
  }

  /** An ack that moves one of this side's candidates on. */
  predicate Promotes(x: Agent, act: Act, now: int) {
    && (act.Rehook? || (act.Hear? && Accepts(x.store, act.env)))
    && act.env.msg.AckMsg? && Advances(x.store, act.env.msg.epoch, act.env.msg.prepareId, now)
  }

  predicate Advances(s: Store, e: Epoch, id: EventId, now: int) {
    e in s.rotating && s.rotating[e].phase == Candidate && OnAck(s, e, id, now).1 == Done
  }

  /** The ack names the prepare with which that candidate was begun. */
  predicate AnswersOwn(x: Agent, act: Act, now: int) {
    Promotes(x, act, now) ==> act.env.msg.epoch in x.begun && x.begun[act.env.msg.epoch] == act.env.msg.prepareId
  }

  /** The epoch and key this event makes the installation acknowledge, if any. */
  function AckedBy(s: Store, msg: Msg, now: int): Option<(Epoch, Key)> {
    if msg.PrepareMsg? && OnPrepare(s, msg.p, msg.id, now).1.AckFor?
    then Some((OnPrepare(s, msg.p, msg.id, now).1.ackEpoch, msg.p.newKey))
    else None
  }

  /** Event ids are drawn once; only what the peer has sent can be heard. */
  ghost predicate Allowed(x: Agent, y: Agent, act: Act) {
    match act
    case Rotate(key, id, bound, sent) => id !in x.prepares
    case Hear(env, _) => env in y.out
    case Take(env) => env in y.out
    case Rehook(env, _) => env in y.out
    case _ => true
  }
}
