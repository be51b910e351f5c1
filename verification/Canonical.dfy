// The restricted canonical JSON encoder (canonical.py): what bytes it produces
// and which error it raises first.

module Canonical {
  import opened Base

  const SAFE_INT_MAX: int := 9007199254740991

  type CodePoint = c: nat | c < 0x110000
  type Byte = b: nat | b < 256
  type Bytes = seq<Byte>
  type Text = seq<CodePoint>

  /** A dictionary key; Python allows keys that are not strings. */
  datatype Key = KText(text: Text) | KOther

  datatype Pair = Pair(key: Key, val: Value)

  /** A Python value; a dictionary is its pairs in insertion order. */
  datatype Value =
    | Null | Bool(b: bool) | Int(n: int) | Float(finite: bool) | Str(text: Text)
    | Obj(pairs: seq<Pair>) | Arr(items: seq<Value>) | Unsupported

  datatype PathStep = ToKey(key: Text) | ToIndex(i: nat)

  datatype Code =
    | IntegerOutOfRange | NanOrInfinity | FloatNumber | UnpairedSurrogate
    | InvalidKeyType | NonAsciiKey | DuplicateKey | UnsupportedType

  datatype Error = Error(path: seq<PathStep>, code: Code)

  // ---- Strings and numbers ----

  predicate Surrogate(c: CodePoint) { 0xD800 <= c <= 0xDFFF }

  predicate Clean(t: Text) { forall i | 0 <= i < |t| :: !Surrogate(t[i]) }

  predicate Ascii(t: Text) { forall i | 0 <= i < |t| :: t[i] < 0x80 }

  function Utf8(c: CodePoint): (r: Bytes)
    ensures r != []
  {
    if c < 0x80 then [c]
    else if c < 0x800 then [0xC0 + c / 64, 0x80 + c % 64]
    else if c < 0x10000 then [0xE0 + c / 4096, 0x80 + c / 64 % 64, 0x80 + c % 64]
    else [0xF0 + c / 262144, 0x80 + c / 4096 % 64, 0x80 + c / 64 % 64, 0x80 + c % 64]
  }

  function Hex(d: nat): Byte
    requires d < 16
  {
    if d < 10 then 48 + d else 87 + d
  }

  /** Short escapes first, then lowercase hexadecimal for the other controls and
      U+007F, and the character itself otherwise. */
  function Escape(c: CodePoint): Bytes {
    if c == 34 then [92, 34]
    else if c == 92 then [92, 92]
    else if c == 8 then [92, 98]
    else if c == 9 then [92, 116]
    else if c == 10 then [92, 110]
    else if c == 12 then [92, 102]
    else if c == 13 then [92, 114]
    else if c < 0x20 || c == 0x7F then [92, 117, 48, 48, Hex(c / 16), Hex(c % 16)]
    else Utf8(c)
  }

  function Escapes(t: Text): Bytes { if t == [] then [] else Escape(t[0]) + Escapes(t[1..]) }

  function Quoted(t: Text): Bytes { [34] + Escapes(t) + [34] }

  function Digits(n: nat): Bytes { if n < 10 then [48 + n] else Digits(n / 10) + [48 + n % 10] }

  function Decimal(n: int): Bytes { if n < 0 then [45] + Digits(-n) else Digits(n) }

  // ---- Key order ----

  predicate Less(a: Text, b: Text) {
    if b == [] then false
    else if a == [] then true
    else a[0] < b[0] || (a[0] == b[0] && Less(a[1..], b[1..]))
  }

  predicate TextKeys(ps: seq<Pair>) { forall i | 0 <= i < |ps| :: ps[i].key.KText? }

  predicate DistinctKeys(ps: seq<Pair>) { forall i, j | 0 <= i < j < |ps| :: ps[i].key != ps[j].key }

  function Insert(p: Pair, ps: seq<Pair>): (r: seq<Pair>)
    requires p.key.KText? && TextKeys(ps)
    ensures |r| == |ps| + 1 && forall q :: q in r <==> q == p || q in ps
    ensures TextKeys(r)
  {
    if ps == [] || !Less(ps[0].key.text, p.key.text) then [p] + ps else [ps[0]] + Insert(p, ps[1..])
  }

  /** `sorted(keys)` with the values alongside. */
  function Order(ps: seq<Pair>): (r: seq<Pair>)
    requires TextKeys(ps)
    ensures |r| == |ps| && TextKeys(r) && forall q :: q in r <==> q in ps
  {
    if ps == [] then [] else Insert(ps[0], Order(ps[1..]))
  }

  // ---- The profile and the first error ----

  predicate InProfile(v: Value)
    decreases v
  {
    match v
    case Null => true
    case Bool(_) => true
    case Int(n) => -SAFE_INT_MAX <= n <= SAFE_INT_MAX
    case Float(_) => false
    case Str(t) => Clean(t)
    case Obj(ps) =>
      TextKeys(ps) && DistinctKeys(ps) && (forall i | 0 <= i < |ps| :: Ascii(ps[i].key.text)) && forall i | 0 <= i < |ps| :: InProfile(ps[i].val)
    case Arr(items) => forall i | 0 <= i < |items| :: InProfile(items[i])
    case Unsupported => false
  }

  function KeyError(ps: seq<Pair>): Option<Code> {
    if ps == [] then None
    else if ps[0].key.KOther? then Some(InvalidKeyType)
    else if !Ascii(ps[0].key.text) then Some(NonAsciiKey)
    else KeyError(ps[1..])
  }

  lemma {:induction false} KeyErrorNone(ps: seq<Pair>)
    ensures KeyError(ps).None? <==> TextKeys(ps) && forall i | 0 <= i < |ps| :: Ascii(ps[i].key.text)
    decreases |ps|
  {
    if ps != [] {
      KeyErrorNone(ps[1..]);
      assert ps == [ps[0]] + ps[1..];
    }
  }

  /** The error `_encode` raises, if any: the first it meets in its own order. */
  function FirstError(v: Value, path: seq<PathStep>): Option<Error>
    decreases v, 2, 0
  {
    match v
    case Null => None
    case Bool(_) => None
    case Int(n) => if -SAFE_INT_MAX <= n <= SAFE_INT_MAX then None else Some(Error(path, IntegerOutOfRange))
    case Float(finite) => Some(Error(path, if finite then FloatNumber else NanOrInfinity))
    case Str(t) => if Clean(t) then None else Some(Error(path, UnpairedSurrogate))
    case Obj(ps) =>
      if KeyError(ps).Some? then Some(Error(path, KeyError(ps).value))
      else if !DistinctKeys(ps) then Some(Error(path, DuplicateKey))
      else
        KeyErrorNone(ps);
        PairsError(v, Order(ps), path)
    case Arr(items) => ItemsError(v, 0, path)
    case Unsupported => Some(Error(path, UnsupportedType))
  }

  function PairsError(v: Value, ps: seq<Pair>, path: seq<PathStep>): Option<Error>
    requires v.Obj? && TextKeys(ps) && forall p | p in ps :: p in v.pairs
    decreases v, 1, |ps|
  {
    if ps == [] then None
    else
      assert ps[0] in v.pairs;
      var first := FirstError(ps[0].val, path + [ToKey(ps[0].key.text)]);
      if first.Some? then first else PairsError(v, ps[1..], path)
  }

  function ItemsError(v: Value, i: nat, path: seq<PathStep>): Option<Error>
    requires v.Arr? && i <= |v.items|
    decreases v, 1, |v.items| - i
  {
    if i == |v.items| then None
    else
      var first := FirstError(v.items[i], path + [ToIndex(i)]);
      if first.Some? then first else ItemsError(v, i + 1, path)
  }

  // ---- The bytes ----

  function Encode(v: Value): Bytes
    requires InProfile(v)
    decreases v, 2, 0
  {
    match v
    case Null => [110, 117, 108, 108]
    case Bool(b) => if b then [116, 114, 117, 101] else [102, 97, 108, 115, 101]
    case Int(n) => Decimal(n)
    case Str(t) => Quoted(t)
    case Obj(ps) => [123] + PairsBytes(v, Order(ps), true)
    case Arr(items) => [91] + ItemsBytes(v, 0)
  }

  function PairsBytes(v: Value, ps: seq<Pair>, first: bool): Bytes
    requires v.Obj? && InProfile(v) && TextKeys(ps) && forall p | p in ps :: p in v.pairs
    decreases v, 1, |ps|
  {
    if ps == [] then [125]
    else
      assert ps[0] in v.pairs;
      (if first then [] else [44]) + Quoted(ps[0].key.text) + [58] + Encode(ps[0].val) + PairsBytes(v, ps[1..], false)
  }

  function ItemsBytes(v: Value, i: nat): Bytes
    requires v.Arr? && InProfile(v) && i <= |v.items|
    decreases v, 1, |v.items| - i
  {
    if i == |v.items| then [93]
    else (if i == 0 then [] else [44]) + Encode(v.items[i]) + ItemsBytes(v, i + 1)
  }

  // ---- When it succeeds ----

  /** It raises nothing exactly on the profile. */
  lemma {:induction false} NoErrorIff(v: Value, path: seq<PathStep>)
    ensures FirstError(v, path).None? <==> InProfile(v)
    decreases v, 2, 0
  {
    match v
    case Obj(ps) =>
      KeyErrorNone(ps);
      if KeyError(ps).None? && DistinctKeys(ps) {
        PairsErrorIff(v, Order(ps), path);
        assert (forall p | p in Order(ps) :: InProfile(p.val)) <==> (forall i | 0 <= i < |ps| :: InProfile(ps[i].val)) by {
          forall i | 0 <= i < |ps| ensures ps[i] in Order(ps) {}
        }
      }
    case Arr(items) => ItemsErrorIff(v, 0, path);
    case _ =>
  }

  lemma {:induction false} PairsErrorIff(v: Value, ps: seq<Pair>, path: seq<PathStep>)
    requires v.Obj? && TextKeys(ps) && forall p | p in ps :: p in v.pairs
    ensures PairsError(v, ps, path).None? <==> forall p | p in ps :: InProfile(p.val)
    decreases v, 1, |ps|
  {
    if ps != [] {
      assert ps[0] in v.pairs;
      NoErrorIff(ps[0].val, path + [ToKey(ps[0].key.text)]);
      PairsErrorIff(v, ps[1..], path);
      assert forall p :: p in ps <==> p == ps[0] || p in ps[1..];
    }
  }

  lemma {:induction false} ItemsErrorIff(v: Value, i: nat, path: seq<PathStep>)
    requires v.Arr? && i <= |v.items|
    ensures ItemsError(v, i, path).None? <==> forall j | i <= j < |v.items| :: InProfile(v.items[j])
    decreases v, 1, |v.items| - i
  {
    if i < |v.items| {
      NoErrorIff(v.items[i], path + [ToIndex(i)]);
      ItemsErrorIff(v, i + 1, path);
    }
  }
}
