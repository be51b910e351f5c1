// Which error the encoder raises: the fault of one node, at the least faulty path.

module CanonicalErrors {
  import opened Base
  import opened Canonical
  import opened CanonicalInverse
  import opened CanonicalOrder

  predicate AsciiKey(k: Key) { k.KText? && forall i | 0 <= i < |k.text| :: k.text[i] < 0x80 }

  predicate KeysGood(ps: seq<Pair>, n: nat)
    requires n <= |ps|
  {
    forall i | 0 <= i < n :: AsciiKey(ps[i].key)
  }

  ghost predicate KeyTwice(ps: seq<Pair>) { exists i, j :: 0 <= i < j < |ps| && ps[i].key == ps[j].key }

  /** The node itself is at fault, whatever is inside it. */
  ghost predicate Faulty(w: Value, code: Code) {
    match code
    case IntegerOutOfRange => w.Int? && (w.n < -9007199254740991 || w.n > 9007199254740991)
    case NanOrInfinity => w.Float? && !w.finite
    case FloatNumber => w.Float? && w.finite
    case UnpairedSurrogate => w.Str? && exists i :: 0 <= i < |w.text| && 0xD800 <= w.text[i] <= 0xDFFF
    case InvalidKeyType => w.Obj? && exists i :: 0 <= i < |w.pairs| && w.pairs[i].key.KOther? && KeysGood(w.pairs, i)
    case NonAsciiKey =>
      w.Obj? && exists i :: 0 <= i < |w.pairs| && w.pairs[i].key.KText? && !AsciiKey(w.pairs[i].key) && KeysGood(w.pairs, i)
    case DuplicateKey => w.Obj? && KeysGood(w.pairs, |w.pairs|) && KeyTwice(w.pairs)
    case UnsupportedType => w.Unsupported?
  }

  ghost predicate Entry(ps: seq<Pair>, key: Text, val: Value) { Pair(KText(key), val) in ps }

  /** `path` leads from `v` to `w`. */
  ghost predicate Leads(v: Value, path: seq<PathStep>, w: Value)
    decreases |path|
  {
    if path == [] then v == w
    else if path[0].ToKey? then v.Obj? && exists val :: Entry(v.pairs, path[0].key, val) && Leads(val, path[1..], w)
    else v.Arr? && path[0].i < |v.items| && Leads(v.items[path[0].i], path[1..], w)
  }

  ghost predicate StepBefore(s: PathStep, t: PathStep) {
    match (s, t)
    case (ToKey(a), ToKey(b)) => Before(a, b)
    case (ToIndex(i), ToIndex(j)) => i < j
    case _ => false
  }

  /** `p` leads to `q` or to what contains it, or turns off to an earlier entry. */
  ghost predicate NotAfter(p: seq<PathStep>, q: seq<PathStep>)
    decreases |p|
  {
    || p == []
    || (q != [] && (StepBefore(p[0], q[0]) || (p[0] == q[0] && NotAfter(p[1..], q[1..]))))
  }

  // ---- One node ----

  lemma {:induction false} KeyErrorAt(ps: seq<Pair>) returns (i: nat)
    ensures KeyError(ps).None? ==> KeysGood(ps, |ps|)
    ensures KeyError(ps).Some? ==>
              && i < |ps| && KeysGood(ps, i) && !AsciiKey(ps[i].key)
              && KeyError(ps) == Some(if ps[i].key.KOther? then InvalidKeyType else NonAsciiKey)
    decreases |ps|
  {
    i := 0;
    if ps != [] && ps[0].key.KText? && Ascii(ps[0].key.text) {
      i := KeyErrorAt(ps[1..]);
      i := i + 1;
    }
  }

  /** Two faults of one node are one. */
  lemma OneFault(w: Value, a: Code, b: Code)
    requires Faulty(w, a) && Faulty(w, b)
    ensures a == b
  {
  }

  /** The fault of the dictionary itself, when its keys are checked. */
  lemma ObjFault(ps: seq<Pair>, path: seq<PathStep>)
    ensures KeyError(ps).Some? ==> FirstError(Obj(ps), path) == Some(Error(path, KeyError(ps).value)) && Faulty(Obj(ps), KeyError(ps).value)
    ensures KeyError(ps).None? && !DistinctKeys(ps) ==> FirstError(Obj(ps), path) == Some(Error(path, DuplicateKey)) && Faulty(Obj(ps), DuplicateKey)
    ensures KeyError(ps).None? && DistinctKeys(ps) ==> forall code :: !Faulty(Obj(ps), code)
  {
    var i := KeyErrorAt(ps);
  }

  // ---- Where the error is ----

  /** The path of the error leads to a node that is at fault in just that way. */
  lemma {:induction false} ErrorLeads(v: Value, path: seq<PathStep>) returns (w: Value)
    requires FirstError(v, path).Some?
    ensures var e := FirstError(v, path).value;
            path <= e.path && Leads(v, e.path[|path|..], w) && Faulty(w, e.code)
    decreases v, 2, 0
  {
    w := v;
    var e := FirstError(v, path).value;
    if !v.Obj? && !v.Arr? { assert e.path[|path|..] == []; }
    match v
    case Obj(ps) =>
      ObjFault(ps, path);
      if KeyError(ps).None? && DistinctKeys(ps) {
        KeyErrorNone(ps);
        var k, val;
        k, val, w := PairsErrorLeads(v, Order(ps), path);
        Turn(v, path, ToKey(k), val, e, w);
      }
    case Arr(items) =>
      var i;
      i, w := ItemsErrorLeads(v, 0, path);
      Turn(v, path, ToIndex(i), items[i], e, w);
    case _ =>
  }

  lemma Turn(v: Value, path: seq<PathStep>, s: PathStep, val: Value, e: Error, w: Value)
    requires path + [s] <= e.path && Leads(val, e.path[|path| + 1..], w)
    requires if s.ToKey? then v.Obj? && Entry(v.pairs, s.key, val) else v.Arr? && s.i < |v.items| && v.items[s.i] == val
    ensures path <= e.path && Leads(v, e.path[|path|..], w)
  {
    var q := e.path[|path|..];
    assert q[0] == s && q[1..] == e.path[|path| + 1..];
  }

  lemma {:induction false} PairsErrorLeads(v: Value, ps: seq<Pair>, path: seq<PathStep>)
    returns (k: Text, val: Value, w: Value)
    requires v.Obj? && TextKeys(ps) && (forall p | p in ps :: p in v.pairs) && PairsError(v, ps, path).Some?
    ensures var e := PairsError(v, ps, path).value;
            && Entry(v.pairs, k, val) && path + [ToKey(k)] <= e.path
            && Leads(val, e.path[|path| + 1..], w) && Faulty(w, e.code)
    decreases v, 1, |ps|
  {
    assert ps[0] in v.pairs;
    k, val := ps[0].key.text, ps[0].val;
    if FirstError(val, path + [ToKey(k)]).Some? {
      w := ErrorLeads(val, path + [ToKey(k)]);
    } else {
      k, val, w := PairsErrorLeads(v, ps[1..], path);
    }
  }

  lemma {:induction false} ItemsErrorLeads(v: Value, i: nat, path: seq<PathStep>) returns (j: nat, w: Value)
    requires v.Arr? && i <= |v.items| && ItemsError(v, i, path).Some?
    ensures var e := ItemsError(v, i, path).value;
            && j < |v.items| && path + [ToIndex(j)] <= e.path
            && Leads(v.items[j], e.path[|path| + 1..], w) && Faulty(w, e.code)
    decreases v, 1, |v.items| - i
  {
    j := i;
    if FirstError(v.items[i], path + [ToIndex(i)]).Some? {
      w := ErrorLeads(v.items[i], path + [ToIndex(i)]);
    } else {
      j, w := ItemsErrorLeads(v, i + 1, path);
    }
  }

  // ---- Why it is that one ----

  /** No faulty node lies before the reported one, going into dictionaries in key order
      and lists in index order, and looking at a container before its contents. */
  lemma {:induction false} ErrorIsFirst(v: Value, path: seq<PathStep>, q: seq<PathStep>, w: Value, code: Code)
    requires Leads(v, q, w) && Faulty(w, code)
    ensures FirstError(v, path).Some?
    ensures var e := FirstError(v, path).value; path <= e.path && NotAfter(e.path[|path|..], q)
    decreases v, 2, 0
  {
    match v
    case Obj(ps) =>
      ObjFault(ps, path);
      if KeyError(ps).None? && DistinctKeys(ps) {
        KeyErrorNone(ps);
        ObjFirst(v, path, q, w, code);
      }
    case Arr(items) =>
      ItemsErrorFirst(v, 0, path, q[0].i, q[1..], w, code);
      AtStep(path, q, ItemsError(v, 0, path).value);
    case _ =>
  }

  lemma AtStep(path: seq<PathStep>, q: seq<PathStep>, e: Error)
    requires q != [] && path < e.path
    requires StepBefore(e.path[|path|], q[0]) || (e.path[|path|] == q[0] && NotAfter(e.path[|path| + 1..], q[1..]))
    ensures NotAfter(e.path[|path|..], q)
  {
    var p := e.path[|path|..];
    assert p[0] == e.path[|path|] && p[1..] == e.path[|path| + 1..];
  }

  lemma {:induction false} ObjFirst(v: Value, path: seq<PathStep>, q: seq<PathStep>, w: Value, code: Code)
    requires v.Obj? && TextKeys(v.pairs) && DistinctKeys(v.pairs) && q != [] && Leads(v, q, w) && Faulty(w, code)
    ensures var error := PairsError(v, Order(v.pairs), path);
            error.Some? && path <= error.value.path && NotAfter(error.value.path[|path|..], q)
    decreases v, 1, |v.pairs| + 1
  {
    var os := Order(v.pairs);
    var val :| Entry(v.pairs, q[0].key, val) && Leads(val, q[1..], w);
    assert Pair(KText(q[0].key), val) in os;
    var j :| 0 <= j < |os| && os[j] == Pair(KText(q[0].key), val);
    OrderBefore(v.pairs);
    PairsErrorFirst(v, os, path, j, q[1..], w, code);
    AtStep(path, q, PairsError(v, os, path).value);
  }

  ghost predicate Climbing(ps: seq<Pair>)
    requires TextKeys(ps)
  {
    forall i, j | 0 <= i < j < |ps| :: Before(ps[i].key.text, ps[j].key.text)
  }

  lemma {:induction false} PairsErrorFirst(
      v: Value, ps: seq<Pair>, path: seq<PathStep>, j: nat, q: seq<PathStep>, w: Value, code: Code)
    requires v.Obj? && TextKeys(ps) && (forall p | p in ps :: p in v.pairs) && Climbing(ps)
    requires j < |ps| && Leads(ps[j].val, q, w) && Faulty(w, code)
    ensures PairsError(v, ps, path).Some?
    ensures var p := PairsError(v, ps, path).value.path;
            && path < p
            && (StepBefore(p[|path|], ToKey(ps[j].key.text)) || (p[|path|] == ToKey(ps[j].key.text) && NotAfter(p[|path| + 1..], q)))
    decreases v, 1, |ps|
  {
    assert ps[0] in v.pairs;
    var here := path + [ToKey(ps[0].key.text)];
    var first := FirstError(ps[0].val, here);
    if first.Some? {
      var _ := ErrorLeads(ps[0].val, here);
      assert first.value.path[|path|] == ToKey(ps[0].key.text);
      if j == 0 { ErrorIsFirst(ps[0].val, here, q, w, code); }
    } else {
      if j == 0 {
        ErrorIsFirst(ps[0].val, here, q, w, code);
        assert false;
      }
      PairsErrorFirst(v, ps[1..], path, j - 1, q, w, code);
    }
  }

  lemma {:induction false} ItemsErrorFirst(
      v: Value, i: nat, path: seq<PathStep>, j: nat, q: seq<PathStep>, w: Value, code: Code)
    requires v.Arr? && i <= j < |v.items| && Leads(v.items[j], q, w) && Faulty(w, code)
    ensures ItemsError(v, i, path).Some?
    ensures var p := ItemsError(v, i, path).value.path;
            && path < p
            && (StepBefore(p[|path|], ToIndex(j)) || (p[|path|] == ToIndex(j) && NotAfter(p[|path| + 1..], q)))
    decreases v, 1, |v.items| - i
  {
    var here := path + [ToIndex(i)];
    var first := FirstError(v.items[i], here);
    if first.Some? {
      var _ := ErrorLeads(v.items[i], here);
      assert first.value.path[|path|] == ToIndex(i);
      if j == i { ErrorIsFirst(v.items[i], here, q, w, code); }
    } else {
      if j == i {
        ErrorIsFirst(v.items[i], here, q, w, code);
        assert false;
      }
      ItemsErrorFirst(v, i + 1, path, j, q, w, code);
    }
  }
}
