// `_encode` appending to its shared buffer, and the duplicate check of
// `strict_parse` (canonical.py).

module CanonicalWriter {
  import opened Base
  import opened Canonical

  /** The `bytearray` every recursive call appends to. */
  class Buffer {
    var data: Bytes

    constructor ()
      ensures data == []
    {
      data := [];
    }

    method Append(more: Bytes)
      modifies this
      ensures data == old(data) + more
    {
      data := data + more;
    }
  }

  /** Checks for surrogates first, then escapes character by character. */
  method EncodeString(t: Text, path: seq<PathStep>) returns (error: Option<Error>, bytes: Bytes)
    ensures error.None? <==> Clean(t)
    ensures error.Some? ==> error == Some(Error(path, UnpairedSurrogate))
    ensures error.None? ==> bytes == Quoted(t)
  {
    var i := 0;
    while i < |t|
      invariant 0 <= i <= |t| && Clean(t[..i])
    {
      if Surrogate(t[i]) { return Some(Error(path, UnpairedSurrogate)), []; }
      i := i + 1;
    }
    assert t[..|t|] == t;
    error := None;
    bytes := [34];
    i := 0;
    while i < |t|
      invariant 0 <= i <= |t|
      invariant bytes + Escapes(t[i..]) == [34] + Escapes(t)
    {
      assert t[i..][0] == t[i] && t[i..][1..] == t[i + 1..];
      bytes := bytes + Escape(t[i]);
      i := i + 1;
    }
    assert t[|t|..] == [];
    bytes := bytes + [34];
  }

  /** Appends the encoding, or reports the first error in `_encode`'s own order. */
  method EncodeInto(v: Value, path: seq<PathStep>, out: Buffer) returns (error: Option<Error>)
    modifies out
    ensures error == FirstError(v, path)
    ensures error.None? ==> InProfile(v) && out.data == old(out.data) + Encode(v)
    decreases v, 2, 0
  {
    NoErrorIff(v, path);
    match v {
      case Null =>
        out.Append([110, 117, 108, 108]);
        error := None;
      case Bool(b) =>
        out.Append(if b then [116, 114, 117, 101] else [102, 97, 108, 115, 101]);
        error := None;
      case Int(n) =>
        if !(-SAFE_INT_MAX <= n <= SAFE_INT_MAX) { return Some(Error(path, IntegerOutOfRange)); }
        out.Append(Decimal(n));
        error := None;
      case Float(finite) =>
        error := Some(Error(path, if finite then FloatNumber else NanOrInfinity));
      case Str(t) =>
        var bytes: Bytes;
        error, bytes := EncodeString(t, path);
        if error.None? { out.Append(bytes); }
      case Obj(ps) =>
        error := EncodePairs(v, path, out);
      case Arr(items) =>
        error := EncodeItems(v, path, out);
      case Unsupported =>
        error := Some(Error(path, UnsupportedType));
    }
  }

  method EncodeItems(v: Value, path: seq<PathStep>, out: Buffer) returns (error: Option<Error>)
    requires v.Arr?
    modifies out
    ensures error == FirstError(v, path)
    ensures error.None? && InProfile(v) ==> out.data == old(out.data) + Encode(v)
    decreases v, 1, 0
  {
    out.Append([91]);
    ghost var goal := if InProfile(v) then old(out.data) + Encode(v) else [];
    if InProfile(v) { assert out.data + ItemsBytes(v, 0) == goal; }
    var i := 0;
    while i < |v.items|
      invariant 0 <= i <= |v.items|
      invariant ItemsError(v, 0, path) == ItemsError(v, i, path)
      invariant InProfile(v) ==> out.data + ItemsBytes(v, i) == goal
    {
      ghost var before := out.data;
      var e := EncodeItem(v.items[i], i, path, out);
      if e.Some? { return e; }
      if InProfile(v) { OneItem(v, i, before); }
      i := i + 1;
    }
    out.Append([93]);
    error := None;
  }

  method EncodeItem(item: Value, i: nat, path: seq<PathStep>, out: Buffer) returns (error: Option<Error>)
    modifies out
    ensures error == FirstError(item, path + [ToIndex(i)])
    ensures error.None? ==> InProfile(item)
    ensures error.None? ==> out.data == old(out.data) + (if i == 0 then [] else [44]) + Encode(item)
    decreases item, 3, 0
  {
    if i > 0 { out.Append([44]); }
    error := EncodeInto(item, path + [ToIndex(i)], out);
  }

  lemma OneItem(v: Value, i: nat, before: Bytes)
    requires v.Arr? && InProfile(v) && i < |v.items|
    ensures before + ItemsBytes(v, i) == before + (if i == 0 then [] else [44]) + Encode(v.items[i]) + ItemsBytes(v, i + 1)
  {
  }

  /** Key checks, the duplicate check, then the entries in key order. */
  method EncodePairs(v: Value, path: seq<PathStep>, out: Buffer) returns (error: Option<Error>)
    requires v.Obj?
    modifies out
    ensures error == FirstError(v, path)
    ensures error.None? && InProfile(v) ==> out.data == old(out.data) + Encode(v)
    decreases v, 1, 1
  {
    var bad := CheckKeys(v.pairs);
    if bad.Some? { return Some(Error(path, bad.value)); }
    if !DistinctKeys(v.pairs) { return Some(Error(path, DuplicateKey)); }
    KeyErrorNone(v.pairs);
    OrderAscii(v.pairs);
    var sorted := Order(v.pairs);
    out.Append([123]);
    ghost var opening := out.data;
    error := EncodeSorted(v, sorted, path, out);
    if error.None? && InProfile(v) {
      assert opening + PairsBytes(v, sorted, true) == old(out.data) + ([123] + PairsBytes(v, sorted, true));
    }
  }

  lemma OrderAscii(ps: seq<Pair>)
    requires TextKeys(ps) && forall i | 0 <= i < |ps| :: Ascii(ps[i].key.text)
    ensures AsciiKeys(Order(ps))
  {
    forall i | 0 <= i < |ps| ensures Ascii(Order(ps)[i].key.text) {
      assert Order(ps)[i] in ps;
    }
  }

  predicate AsciiKeys(ps: seq<Pair>) { TextKeys(ps) && forall i | 0 <= i < |ps| :: Ascii(ps[i].key.text) }

  method CheckKeys(ps: seq<Pair>) returns (bad: Option<Code>)
    ensures bad == KeyError(ps)
  {
    var i := 0;
    assert ps[0..] == ps;
    while i < |ps|
      invariant 0 <= i <= |ps| && KeyError(ps) == KeyError(ps[i..])
    {
      assert ps[i..][0] == ps[i] && ps[i..][1..] == ps[i + 1..];
      if ps[i].key.KOther? { return Some(InvalidKeyType); }
      if !Ascii(ps[i].key.text) { return Some(NonAsciiKey); }
      i := i + 1;
    }
    bad := None;
  }

  method EncodeSorted(v: Value, ps: seq<Pair>, path: seq<PathStep>, out: Buffer) returns (error: Option<Error>)
    requires v.Obj? && AsciiKeys(ps) && forall p | p in ps :: p in v.pairs
    modifies out
    ensures error == PairsError(v, ps, path)
    ensures error.None? && InProfile(v) ==> out.data == old(out.data) + PairsBytes(v, ps, true)
    decreases v, 1, 0
  {
    var i := 0;
    var first := true;
    assert ps[0..] == ps;
    while i < |ps|
      invariant 0 <= i <= |ps| && first == (i == 0)
      invariant PairsError(v, ps, path) == PairsError(v, ps[i..], path)
      invariant InProfile(v) ==> out.data + PairsBytes(v, ps[i..], first) == old(out.data) + PairsBytes(v, ps, true)
    {
      ghost var before := out.data;
      ghost var rest := ps[i..];
      assert rest[0] == ps[i] && rest[1..] == ps[i + 1..] && ps[i] in ps;
      var e := EncodeEntry(ps[i], first, path, out);
      if e.Some? { return e; }
      if InProfile(v) { OneEntry(v, rest, first, before); }
      first := false;
      i := i + 1;
    }
    assert ps[|ps|..] == [];
    out.Append([125]);
    error := None;
  }

  /** Separator, key, colon and value of one entry. */
  method EncodeEntry(p: Pair, first: bool, path: seq<PathStep>, out: Buffer) returns (error: Option<Error>)
    requires p.key.KText? && Ascii(p.key.text)
    modifies out
    ensures error == FirstError(p.val, path + [ToKey(p.key.text)])
    ensures error.None? ==> InProfile(p.val)
    ensures error.None? ==> out.data == old(out.data) + (if first then [] else [44]) + Quoted(p.key.text) + [58] + Encode(p.val)
    decreases p, 0
  {
    if !first { out.Append([44]); }
    var child := path + [ToKey(p.key.text)];
    var bad, name := EncodeString(p.key.text, child);
    out.Append(name);
    out.Append([58]);
    error := EncodeInto(p.val, child, out);
  }

  lemma OneEntry(v: Value, ps: seq<Pair>, first: bool, before: Bytes)
    requires v.Obj? && InProfile(v) && TextKeys(ps) && (forall p | p in ps :: p in v.pairs) && ps != []
    ensures ps[0] in v.pairs
    ensures before + PairsBytes(v, ps, first)
            == before + (if first then [] else [44]) + Quoted(ps[0].key.text) + [58] + Encode(ps[0].val) + PairsBytes(v, ps[1..], false)
  {
    assert ps[0] in v.pairs;
  }

  /** `restricted_jcs`: the bytes, or the first error. */
  method RestrictedJcs(v: Value) returns (error: Option<Error>, bytes: Bytes)
    ensures error == FirstError(v, []) && (error.None? <==> InProfile(v))
    ensures error.None? ==> bytes == Encode(v)
  {
    NoErrorIff(v, []);
    var out := new Buffer();
    error := EncodeInto(v, [], out);
    bytes := out.data;
  }

  /** `_reject_duplicate_keys`: the pairs as a dictionary, unless a key repeats. */
  method RejectDuplicateKeys(ps: seq<Pair>) returns (result: Option<seq<Pair>>)
    ensures result == if DistinctKeys(ps) then Some(ps) else None
  {
    var seen: set<Key> := {};
    var i := 0;
    while i < |ps|
      invariant 0 <= i <= |ps| && DistinctKeys(ps[..i])
      invariant forall k :: k in seen <==> exists j :: 0 <= j < i && ps[j].key == k
    {
      if ps[i].key in seen { return None; }
      seen := seen + {ps[i].key};
      i := i + 1;
    }
    assert ps[..|ps|] == ps;
    result := Some(ps);
  }
}
