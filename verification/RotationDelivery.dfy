// Decryptability: with in-order delivery in each direction, every envelope can
// be opened when it is delivered, however both sides' rotations, time-outs and
// old-key retirements interleave.
//
// `r` is the receiver of a channel and `s` its sender; `q` is what is in flight.

module RotationDelivery {
  import opened Base
  import opened RotationCore
  import opened RotationInvariant
  import opened RotationAgents
  import opened RotationAgreement

  // ---- The receiver's active key ----

  predicate IsActive(s: Store, a: Epoch) {
    OwnRow(s.keys, a) && a <= s.keyEpoch && forall x: Epoch | x in s.keys :: OwnRow(s.keys, x) && x <= s.keyEpoch ==> x <= a
  }

  ghost function ActiveEpoch(s: Store): (a: Epoch)
    requires Valid(s)
    ensures IsActive(s, a)
    ensures forall b: Epoch :: IsActive(s, b) ==> a == b
  {
    var w: Epoch :| OwnRow(s.keys, w);
    assert IsLive(s.rotating, w) ==> RotatingRowOk(s, w, s.rotating[w]);
    var committed := set e | e in s.keys && OwnRow(s.keys, e) && e <= s.keyEpoch;
    assert w in committed || s.rotating[w].prior in committed;
    assert forall x: Epoch :: OwnRow(s.keys, x) && x <= s.keyEpoch ==> x in committed;
    Max(committed)
  }

  ghost function ActiveKey(s: Store): Key
    requires Valid(s)
  {
    s.keys[ActiveEpoch(s)].pub
  }

  /** `_try_unseal` always tries the newest committed own key. */
  lemma ActiveIsTried(s: Store)
    requires Valid(s)
    ensures ActiveEpoch(s) in Tried(s)
  {
    var a := ActiveEpoch(s);
    assert a in Own(s) && forall x | x in Own(s) :: OwnRow(s.keys, x);
    if s.keyEpoch in Own(s) {
      assert IsActive(s, s.keyEpoch);
    } else {
      var top := Max(Own(s));
      if top != a {
        assert OwnRow(s.keys, top) && s.keyEpoch < top && IsLive(s.rotating, top);
        assert RotatingRowOk(s, top, s.rotating[top]);
        var rest := Own(s) - {top};
        assert a in rest;
        assert Max(rest) == a;
      }
    }
  }

  // ---- Channel vocabulary ----

  /** The peer has acknowledged this row and its commit has not been applied. */
  predicate AckedRow(s: Store, e: Epoch) {
    e in s.rotating && (s.rotating[e].phase == Acknowledged || s.rotating[e].phase == Confirmed)
  }

  ghost predicate CommitBefore(q: seq<Env>, e: Epoch, n: nat) {
    exists j :: 0 <= j < n && j < |q| && q[j].msg == CommitMsg(e)
  }

  ghost predicate CommitIn(q: seq<Env>, e: Epoch) { CommitBefore(q, e, |q|) }

  /** After a commit the receiver will apply, envelopes carry the new key; before
      it, they carry the active one. */
  ghost predicate WrapOk(r: Store, q: seq<Env>, i: nat)
    requires Valid(r) && i < |q|
  {
    && (forall e: Epoch :: AckedRow(r, e) && CommitBefore(q, e, i) ==> r.rotating[e].newKey in q[i].wraps)
    && ((exists e: Epoch :: AckedRow(r, e) && CommitBefore(q, e, i)) || ActiveKey(r) in q[i].wraps)
  }

  /** How the sender's idea of the receiver's key relates to the receiver's own. */
  ghost predicate PakOk(r: Store, s: Store, q: seq<Env>)
    requires Valid(r)
  {
    && (forall e: Epoch :: IsLive(s.acking, e) ==> LivePakOk(r, s, e))
    && ((exists e: Epoch :: IsLive(s.acking, e)) || s.peerKey == ActiveKey(r) || PakCommitted(r, s, q))
  }

  ghost predicate LivePakOk(r: Store, s: Store, e: Epoch)
    requires Valid(r) && IsLive(s.acking, e)
  {
    if s.acking[e].phase != Confirmed then s.peerKey == ActiveKey(r)
    else
      || (AckedRow(r, e) && r.rotating[e].newKey == s.acking[e].newKey && s.peerKey == ActiveKey(r))
      || (ActiveEpoch(r) == e && ActiveKey(r) == s.acking[e].newKey)
  }

  ghost predicate PakCommitted(r: Store, s: Store, q: seq<Env>) {
    exists e: Epoch :: AckedRow(r, e) && s.peerKey == r.rotating[e].newKey && CommitIn(q, e)
  }

  /** With a commit for the receiver's acknowledged row in flight, the sender wraps to its new key. */
  ghost predicate Announced(r: Store, s: Store, q: seq<Env>) {
    forall e: Epoch :: AckedRow(r, e) && CommitIn(q, e) ==> WrapsNew(r, s, e)
  }

  ghost predicate WrapsNew(r: Store, s: Store, e: Epoch)
    requires AckedRow(r, e)
  {
    || (e in s.acking && s.acking[e].phase == Confirmed)
    || ((forall d: Epoch :: !IsLive(s.acking, d)) && s.peerKey == r.rotating[e].newKey)
  }

  /** The first commit for the acknowledged row carries that epoch in its header. */
  ghost predicate Stamped(r: Store, q: seq<Env>) {
    forall i | 0 <= i < |q| && q[i].msg.CommitMsg? && AckedRow(r, q[i].msg.commitEpoch) ::
      exists j :: 0 <= j <= i && q[j].msg == q[i].msg && q[j].stamp == q[i].msg.commitEpoch
  }

  ghost predicate CommitsKnown(r: Store, q: seq<Env>) {
    forall i | 0 <= i < |q| && q[i].msg.CommitMsg? :: q[i].msg.commitEpoch <= r.keyEpoch || AckedRow(r, q[i].msg.commitEpoch)
  }

  ghost predicate Chan(r: Store, s: Store, q: seq<Env>) {
    && Valid(r) && Valid(s)
    && Sides(r, s, q) && Frames(r, q)
  }

  ghost predicate Sides(r: Store, s: Store, q: seq<Env>)
    requires Valid(r)
  {
    PakOk(r, s, q) && Announced(r, s, q)
  }

  ghost predicate Frames(r: Store, q: seq<Env>)
    requires Valid(r)
  {
    Stamped(r, q) && CommitsKnown(r, q) && forall i: nat | i < |q| :: WrapOk(r, q, i)
  }

  lemma Openable(r: Store, s: Store, q: seq<Env>)
    requires Chan(r, s, q) && q != []
    ensures Opens(r, q[0].wraps)
  {
    assert WrapOk(r, q, 0);
    ActiveIsTried(r);
  }

  lemma LiveAhead(r: Store, e: Epoch)
    requires Valid(r) && AckedRow(r, e)
    ensures r.keyEpoch < e && OwnRow(r.keys, e) && r.keys[e].pub == r.rotating[e].newKey
    ensures forall d: Epoch :: AckedRow(r, d) ==> d == e
  {
    assert IsLive(r.rotating, e) && RotatingRowOk(r, e, r.rotating[e]);
    assert forall d: Epoch :: AckedRow(r, d) ==> IsLive(r.rotating, d);
  }

  // ---- The receiver's tables move ----

  ghost predicate SameReceiver(r: Store, t: Store) {
    && Valid(r) && Valid(t) && r.keyEpoch <= t.keyEpoch
    && ActiveEpoch(t) == ActiveEpoch(r) && ActiveKey(t) == ActiveKey(r)
    && (forall e: Epoch :: AckedRow(t, e) <==> AckedRow(r, e))
    && (forall e: Epoch :: AckedRow(r, e) ==> t.rotating[e].newKey == r.rotating[e].newKey)
  }

  lemma ChanReceiverKept(r: Store, t: Store, s: Store, q: seq<Env>)
    requires Chan(r, s, q) && SameReceiver(r, t)
    ensures Chan(t, s, q)
  {
    FramesReceiverKept(r, t, q);
    SidesReceiverKept(r, t, s, q);
  }

  lemma FramesReceiverKept(r: Store, t: Store, q: seq<Env>)
    requires Valid(r) && Frames(r, q) && SameReceiver(r, t)
    ensures Frames(t, q)
  {
    forall i: nat | i < |q| ensures WrapOk(t, q, i) {
      assert WrapOk(r, q, i);
      if e: Epoch :| AckedRow(r, e) && CommitBefore(q, e, i) { assert AckedRow(t, e); }
    }
    assert CommitsKnown(t, q);
    assert Stamped(t, q);
  }

  lemma SidesReceiverKept(r: Store, t: Store, s: Store, q: seq<Env>)
    requires Valid(r) && Sides(r, s, q) && SameReceiver(r, t)
    ensures Sides(t, s, q)
  {
    forall e: Epoch | IsLive(s.acking, e) ensures LivePakOk(t, s, e) { assert LivePakOk(r, s, e); }
    if PakCommitted(r, s, q) {
      var e: Epoch :| AckedRow(r, e) && s.peerKey == r.rotating[e].newKey && CommitIn(q, e);
      assert AckedRow(t, e);
    }
    forall e: Epoch | AckedRow(t, e) && CommitIn(q, e) ensures WrapsNew(t, s, e) { assert WrapsNew(r, s, e); }
  }

  /** Popping an envelope that commits nothing. */
  lemma ChanPop(r: Store, s: Store, q: seq<Env>)
    requires Chan(r, s, q) && q != []
    requires q[0].msg.CommitMsg? ==> !AckedRow(r, q[0].msg.commitEpoch)
    ensures Chan(r, s, q[1..])
  {
    forall e: Epoch | AckedRow(r, e) ensures CommitIn(q, e) <==> CommitIn(q[1..], e) { CommitPop(q, e, |q| - 1); }
    FramesPop(r, q);
    SidesByCommits(r, s, q, q[1..]);
  }

  /** The sender's half looks at the channel only through the commits in it. */
  lemma SidesByCommits(r: Store, s: Store, q: seq<Env>, q': seq<Env>)
    requires Valid(r) && Sides(r, s, q)
    requires forall e: Epoch :: AckedRow(r, e) ==> (CommitIn(q, e) <==> CommitIn(q', e))
    ensures Sides(r, s, q')
  {
    if PakCommitted(r, s, q) {
      var e: Epoch :| AckedRow(r, e) && s.peerKey == r.rotating[e].newKey && CommitIn(q, e);
      assert CommitIn(q', e);
    }
    forall e: Epoch | AckedRow(r, e) && CommitIn(q', e) ensures WrapsNew(r, s, e) { assert CommitIn(q, e); }
  }

  lemma CommitPop(q: seq<Env>, e: Epoch, n: nat)
    requires q != [] && q[0].msg != CommitMsg(e)
    ensures CommitBefore(q, e, n + 1) <==> CommitBefore(q[1..], e, n)
  {
    var q' := q[1..];
    if j :| 0 <= j < n + 1 && j < |q| && q[j].msg == CommitMsg(e) {
      assert j != 0 && q'[j - 1].msg == CommitMsg(e);
    }
    if j :| 0 <= j < n && j < |q'| && q'[j].msg == CommitMsg(e) {
      assert q[j + 1].msg == CommitMsg(e);
    }
  }

  lemma FramesPop(r: Store, q: seq<Env>)
    requires Valid(r) && Frames(r, q) && q != []
    requires q[0].msg.CommitMsg? ==> !AckedRow(r, q[0].msg.commitEpoch)
    ensures Frames(r, q[1..])
  {
    var q' := q[1..];
    forall i: nat | i < |q'| ensures WrapOk(r, q', i) {
      assert WrapOk(r, q, i + 1);
      forall e: Epoch | AckedRow(r, e) ensures CommitBefore(q, e, i + 1) <==> CommitBefore(q', e, i) { CommitPop(q, e, i); }
      if e: Epoch :| AckedRow(r, e) && CommitBefore(q, e, i + 1) { assert CommitBefore(q', e, i); }
    }
    forall i | 0 <= i < |q'| && q'[i].msg.CommitMsg?
      ensures q'[i].msg.commitEpoch <= r.keyEpoch || AckedRow(r, q'[i].msg.commitEpoch)
    {
      assert q[i + 1] == q'[i];
    }
    forall i | 0 <= i < |q'| && q'[i].msg.CommitMsg? && AckedRow(r, q'[i].msg.commitEpoch)
      ensures exists j :: 0 <= j <= i && q'[j].msg == q'[i].msg && q'[j].stamp == q'[i].msg.commitEpoch
    {
      assert q[i + 1] == q'[i];
      var j :| 0 <= j <= i + 1 && q[j].msg == q[i + 1].msg && q[j].stamp == q[i + 1].msg.commitEpoch;
      assert q'[j - 1] == q[j];
    }
  }

  /** Taking the ack: no commit for that row can be in flight yet. */
  lemma ChanAcked(r: Store, t: Store, s: Store, q: seq<Env>, e: Epoch)
    requires Chan(r, s, q) && Valid(t) && t.keys == r.keys && t.keyEpoch == r.keyEpoch
    requires e in r.rotating && r.rotating[e].phase == Candidate
    requires forall d: Epoch :: AckedRow(t, d) <==> d == e
    requires IsLive(s.acking, e) ==> s.acking[e].phase != Confirmed
    ensures Chan(t, s, q)
  {
    assert IsLive(r.rotating, e) && RotatingRowOk(r, e, r.rotating[e]);
    assert IsActive(t, ActiveEpoch(r));
    assert forall d: Epoch :: AckedRow(r, d) ==> IsLive(r.rotating, d);
    assert forall d: Epoch :: !AckedRow(r, d);
    assert !CommitIn(q, e);
    forall i: nat | i < |q| ensures WrapOk(t, q, i) {
      assert WrapOk(r, q, i);
      assert CommitBefore(q, e, i) ==> CommitIn(q, e);
    }
    forall d: Epoch | IsLive(s.acking, d) ensures LivePakOk(t, s, d) { assert LivePakOk(r, s, d); }
  }

  /** Applying the commit at the head of the channel. */
  lemma ChanCommitted(r: Store, s: Store, q: seq<Env>, e: Epoch, now: int)
    requires Chan(r, s, q) && q != [] && q[0].msg == CommitMsg(e) && e in r.rotating && r.rotating[e].phase == Confirmed
    ensures Chan(OnCommit(r, e, now).0, s, q[1..])
  {
    var t := OnCommit(r, e, now).0;
    var q' := q[1..];
    LiveAhead(r, e);
    OnCommitKeepsValid(r, e, now);
    assert IsLive(r.rotating, e) && RotatingRowOk(r, e, r.rotating[e]);
    assert IsActive(t, e);
    assert ActiveKey(t) == r.rotating[e].newKey;
    assert forall d: Epoch :: !AckedRow(t, d) by {
      assert forall d: Epoch :: AckedRow(t, d) ==> AckedRow(r, d) && d != e;
    }
    assert CommitIn(q, e);
    forall i: nat | i < |q'| ensures WrapOk(t, q', i) {
      assert WrapOk(r, q, i + 1);
      assert CommitBefore(q, e, i + 1);
    }
    assert WrapsNew(r, s, e);
    forall d: Epoch | IsLive(s.acking, d) ensures LivePakOk(t, s, d) {
      assert LivePakOk(r, s, d);
      assert IsLive(s.acking, e);
    }
    forall i | 0 <= i < |q'| && q'[i].msg.CommitMsg? ensures q'[i].msg.commitEpoch <= t.keyEpoch {
      assert q'[i] == q[i + 1];
    }
  }

  // ---- The sender's tables move ----

  ghost predicate SameSender(s: Store, t: Store) {
    && t.peerKey == s.peerKey
    && (forall e: Epoch :: IsLive(t.acking, e) <==> IsLive(s.acking, e))
    && (forall e: Epoch :: IsLive(s.acking, e) ==> t.acking[e].phase == s.acking[e].phase && t.acking[e].newKey == s.acking[e].newKey)
  }

  lemma ChanSenderKept(r: Store, s: Store, t: Store, q: seq<Env>)
    requires Chan(r, s, q) && SameSender(s, t) && Valid(t)
    ensures Chan(r, t, q)
  {
    forall e: Epoch | IsLive(t.acking, e) ensures LivePakOk(r, t, e) { assert LivePakOk(r, s, e); }
    if PakCommitted(r, s, q) {
      var e: Epoch :| AckedRow(r, e) && s.peerKey == r.rotating[e].newKey && CommitIn(q, e);
      assert PakCommitted(r, t, q);
    }
    forall e: Epoch | AckedRow(r, e) && CommitIn(q, e) ensures WrapsNew(r, t, e) {
      assert WrapsNew(r, s, e);
      if e in s.acking && s.acking[e].phase == Confirmed { assert IsLive(s.acking, e); }
    }
  }

  /** Taking up a prepare that continues the active key. */
  lemma ChanTakenUp(r: Store, s: Store, q: seq<Env>, p: Prepare, id: EventId)
    requires Chan(r, s, q) && !InFlight(s) && Valid(TakenUp(s, p, id))
    requires p.prior == s.peerKey
    requires forall e: Epoch :: AckedRow(r, e) ==> p.prior != r.rotating[e].newKey
    ensures Chan(r, TakenUp(s, p, id), q)
  {
    var t := TakenUp(s, p, id);
    NothingLive(s);
    assert !PakCommitted(r, s, q);
    assert forall e: Epoch :: IsLive(t.acking, e) <==> e == s.keyEpoch + 1;
    forall e: Epoch | AckedRow(r, e) ensures !CommitIn(q, e) {
      assert CommitIn(q, e) ==> WrapsNew(r, s, e);
      assert e in s.acking && s.acking[e].phase == Confirmed ==> IsLive(s.acking, e);
    }
  }

  lemma ChanConfirmHeard(r: Store, s: Store, q: seq<Env>, e: Epoch)
    requires Chan(r, s, q) && e in s.acking && s.acking[e].phase == Acknowledged
    requires AckedRow(r, e) && r.rotating[e].newKey == s.acking[e].newKey
    requires Valid(OnConfirm(s, e).0)
    ensures Chan(r, OnConfirm(s, e).0, q)
  {
    var t := OnConfirm(s, e).0;
    assert IsLive(s.acking, e) && LivePakOk(r, s, e);
    assert forall d: Epoch :: IsLive(t.acking, d) <==> IsLive(s.acking, d);
    forall d: Epoch | IsLive(t.acking, d) ensures LivePakOk(r, t, d) { assert LivePakOk(r, s, d); }
    forall d: Epoch | AckedRow(r, d) && CommitIn(q, d) ensures WrapsNew(r, t, d) {
      LiveAhead(r, e);
    }
    assert IsLive(t.acking, e);
  }

  lemma ChanMarked(r: Store, s: Store, q: seq<Env>, e: Epoch, now: int)
    requires Chan(r, s, q) && e in s.acking && s.acking[e].phase == Confirmed
    requires AckedRow(r, e) ==> CommitIn(q, e)
    ensures Chan(r, MarkCommitted(s, now).0, q)
  {
    var t := MarkCommitted(s, now).0;
    MarkCommittedKeepsValid(s, now);
    assert IsLive(s.acking, e) && e in LiveIn(s.acking);
    assert IsLive(s.acking, Min(LiveIn(s.acking)));
    assert LivePakOk(r, s, e);
    forall d: Epoch ensures !IsLive(t.acking, d) {
      assert IsLive(t.acking, d) ==> IsLive(s.acking, d) && d != e;
    }
    assert t.peerKey == s.acking[e].newKey;
    if AckedRow(r, e) && r.rotating[e].newKey == s.acking[e].newKey { assert PakCommitted(r, t, q); }
    forall d: Epoch | AckedRow(r, d) && CommitIn(q, d) ensures WrapsNew(r, t, d) {
      assert WrapsNew(r, s, d);
      LiveAhead(r, d);
      if d in s.acking && s.acking[d].phase == Confirmed { assert IsLive(s.acking, d); }
    }
  }

  lemma CommitAppend(q: seq<Env>, env: Env, e: Epoch, n: nat)
    requires n <= |q|
    ensures CommitBefore(q + [env], e, n) <==> CommitBefore(q, e, n)
    ensures CommitIn(q + [env], e) <==> CommitIn(q, e) || env.msg == CommitMsg(e)
  {
    var q' := q + [env];
    if j :| 0 <= j < |q| && q[j].msg == CommitMsg(e) { assert q'[j].msg == CommitMsg(e); }
    if env.msg == CommitMsg(e) { assert q'[|q|].msg == CommitMsg(e); }
    if j :| 0 <= j < n && j < |q| && q[j].msg == CommitMsg(e) { assert q'[j].msg == CommitMsg(e); }
    if j :| 0 <= j < n && j < |q'| && q'[j].msg == CommitMsg(e) { assert q[j].msg == CommitMsg(e); }
    if j :| 0 <= j < |q'| && q'[j].msg == CommitMsg(e) { assert j < |q| ==> q[j].msg == CommitMsg(e); }
  }

  lemma RecipientsShape(s: Store)
    requires Valid(s)
    ensures RecipientsFor(s).Recipients? && s.peerKey in RecipientsFor(s).wraps
    ensures forall e: Epoch :: IsLive(s.acking, e) ==> RecipientsFor(s).stamp == e && s.acking[e].newKey in RecipientsFor(s).wraps
  {
    forall e: Epoch | IsLive(s.acking, e)
      ensures RecipientsFor(s).Recipients? && RecipientsFor(s).stamp == e && s.peerKey in RecipientsFor(s).wraps && s.acking[e].newKey in RecipientsFor(s).wraps
    {
      DualWrapFindsBoth(s, e);
    }
    if LiveIn(s.acking) != {} { assert IsLive(s.acking, Min(LiveIn(s.acking))); }
  }

  /** Sealing to the current recipients at the end of the channel. */
  lemma ChanAppend(r: Store, s: Store, q: seq<Env>, env: Env)
    requires Chan(r, s, q) && [env] == Seal(s, env.msg)
    requires env.msg.CommitMsg? ==> CommitReady(r, s, q, env.msg.commitEpoch)
    ensures Chan(r, s, q + [env])
  {
    WrapsAppend(r, s, q, env);
    StampedAppend(r, s, q, env);
    SidesAppend(r, s, q, env);
    forall i | 0 <= i < |q + [env]| && (q + [env])[i].msg.CommitMsg?
      ensures (q + [env])[i].msg.commitEpoch <= r.keyEpoch || AckedRow(r, (q + [env])[i].msg.commitEpoch)
    {
      assert i < |q| ==> (q + [env])[i] == q[i];
    }
  }

  lemma SidesAppend(r: Store, s: Store, q: seq<Env>, env: Env)
    requires Valid(r) && Valid(s) && Sides(r, s, q)
    requires env.msg.CommitMsg? ==> CommitReady(r, s, q, env.msg.commitEpoch)
    ensures Sides(r, s, q + [env])
  {
    var q' := q + [env];
    forall e: Epoch ensures CommitIn(q', e) <==> CommitIn(q, e) || env.msg == CommitMsg(e) { CommitAppend(q, env, e, 0); }
    if PakCommitted(r, s, q) {
      var e: Epoch :| AckedRow(r, e) && s.peerKey == r.rotating[e].newKey && CommitIn(q, e);
      assert CommitIn(q', e);
    }
    forall e: Epoch | AckedRow(r, e) && CommitIn(q', e) ensures WrapsNew(r, s, e) {
      if CommitIn(q, e) { assert WrapsNew(r, s, e); }
    }
  }

  lemma WrapsAppend(r: Store, s: Store, q: seq<Env>, env: Env)
    requires Chan(r, s, q) && [env] == Seal(s, env.msg)
    ensures forall i: nat | i < |q + [env]| :: WrapOk(r, q + [env], i)
  {
    var q' := q + [env];
    forall i: nat | i < |q'| ensures WrapOk(r, q', i) {
      forall e: Epoch ensures CommitBefore(q', e, i) <==> CommitBefore(q, e, i) { CommitAppend(q, env, e, i); }
      if i < |q| {
        assert WrapOk(r, q, i);
        if e: Epoch :| AckedRow(r, e) && CommitBefore(q, e, i) { assert CommitBefore(q', e, i); }
      } else {
        LastWrapOk(r, s, q, env);
        if e: Epoch :| AckedRow(r, e) && CommitIn(q, e) { assert CommitBefore(q', e, i); }
      }
    }
  }

  ghost predicate CommitReady(r: Store, s: Store, q: seq<Env>, e: Epoch) {
    && (e <= r.keyEpoch || AckedRow(r, e))
    && (AckedRow(r, e) ==> CommitIn(q, e) || (e in s.acking && s.acking[e].phase == Confirmed))
  }

  lemma StampAt(r: Store, q: seq<Env>, i: nat) returns (j: nat)
    requires Stamped(r, q) && i < |q| && q[i].msg.CommitMsg? && AckedRow(r, q[i].msg.commitEpoch)
    ensures j <= i && q[j].msg == q[i].msg && q[j].stamp == q[i].msg.commitEpoch
  {
    j :| 0 <= j <= i && q[j].msg == q[i].msg && q[j].stamp == q[i].msg.commitEpoch;
  }

  lemma StampedAppend(r: Store, s: Store, q: seq<Env>, env: Env)
    requires Chan(r, s, q) && [env] == Seal(s, env.msg)
    requires env.msg.CommitMsg? ==> CommitReady(r, s, q, env.msg.commitEpoch)
    ensures Stamped(r, q + [env])
  {
    var q' := q + [env];
    RecipientsShape(s);
    forall i | 0 <= i < |q'| && q'[i].msg.CommitMsg? && AckedRow(r, q'[i].msg.commitEpoch)
      ensures exists j :: 0 <= j <= i && q'[j].msg == q'[i].msg && q'[j].stamp == q'[i].msg.commitEpoch
    {
      var e := q'[i].msg.commitEpoch;
      if i < |q| {
        assert q'[i] == q[i];
        var j := StampAt(r, q, i);
        assert q'[j] == q[j];
      } else if CommitIn(q, e) {
        var k :| 0 <= k < |q| && q[k].msg == CommitMsg(e);
        var j := StampAt(r, q, k);
        assert q'[j] == q[j];
      } else {
        assert IsLive(s.acking, e);
        assert q'[i].stamp == e;
      }
    }
  }

  lemma LastWrapOk(r: Store, s: Store, q: seq<Env>, env: Env)
    requires Chan(r, s, q) && [env] == Seal(s, env.msg)
    ensures forall e: Epoch :: AckedRow(r, e) && CommitIn(q, e) ==> r.rotating[e].newKey in env.wraps
    ensures (exists e: Epoch :: AckedRow(r, e) && CommitIn(q, e)) || ActiveKey(r) in env.wraps
  {
    RecipientsShape(s);
    forall e: Epoch | AckedRow(r, e) && CommitIn(q, e) ensures r.rotating[e].newKey in env.wraps {
      NewKeyWrapped(r, s, q, env, e);
    }
    if !exists e: Epoch :: AckedRow(r, e) && CommitIn(q, e) { ActiveWrapped(r, s, q, env); }
  }

  lemma NewKeyWrapped(r: Store, s: Store, q: seq<Env>, env: Env, e: Epoch)
    requires Chan(r, s, q) && [env] == Seal(s, env.msg) && AckedRow(r, e) && CommitIn(q, e)
    ensures r.rotating[e].newKey in env.wraps
  {
    RecipientsShape(s);
    assert WrapsNew(r, s, e);
    LiveAhead(r, e);
    if e in s.acking && s.acking[e].phase == Confirmed { assert IsLive(s.acking, e) && LivePakOk(r, s, e); }
  }

  lemma ActiveWrapped(r: Store, s: Store, q: seq<Env>, env: Env)
    requires Chan(r, s, q) && [env] == Seal(s, env.msg) && !exists e: Epoch :: AckedRow(r, e) && CommitIn(q, e)
    ensures ActiveKey(r) in env.wraps
  {
    RecipientsShape(s);
    if e: Epoch :| IsLive(s.acking, e) { assert LivePakOk(r, s, e); }
  }
}
