// A reference parser of the canonical output, the proof that it inverts the
// encoder, and what follows: equal bytes mean equal values.

module CanonicalInverse {
  import opened Base
  import opened Canonical

  // ---- The parser ----

  predicate Digit(b: Byte) { 48 <= b <= 57 }

  /** Digits from the front, continuing an accumulated value. */
  function ReadDigits(b: Bytes, acc: nat): (r: (nat, Bytes))
    ensures |r.1| <= |b|
    decreases |b|
  {
    if b != [] && Digit(b[0]) then ReadDigits(b[1..], acc * 10 + (b[0] - 48)) else (acc, b)
  }

  predicate HexDigit(b: Byte) { Digit(b) || 97 <= b <= 102 }

  function Unhex(b: Byte): nat
    requires HexDigit(b)
  {
    if b <= 57 then b - 48 else b - 87
  }

  function Cont(b: Byte): nat { if 0x80 <= b < 0xC0 then b - 0x80 else 0 }

  /** One UTF-8 sequence. */
  function ReadUtf8(b: Bytes): (r: Option<(nat, Bytes)>)
    requires b != []
    ensures r.Some? ==> |r.value.1| < |b|
  {
    if b[0] < 0x80 then Some((b[0], b[1..]))
    else if b[0] < 0xE0 then if |b| < 2 || b[0] < 0xC0 then None else Some(((b[0] - 0xC0) * 64 + Cont(b[1]), b[2..]))
    else if b[0] < 0xF0 then if |b| < 3 then None else Some(((b[0] - 0xE0) * 4096 + Cont(b[1]) * 64 + Cont(b[2]), b[3..]))
    else if |b| < 4 then None
    else Some(((b[0] - 0xF0) * 262144 + Cont(b[1]) * 4096 + Cont(b[2]) * 64 + Cont(b[3]), b[4..]))
  }

  function ShortEscape(b: Byte): Option<nat> {
    if b == 34 then Some(34) else if b == 92 then Some(92) else if b == 98 then Some(8) else if b == 116 then Some(9)
    else if b == 110 then Some(10) else if b == 102 then Some(12) else if b == 114 then Some(13) else None
  }

  /** One character of a string literal. */
  function ReadChar(b: Bytes): (r: Option<(nat, Bytes)>)
    requires b != []
    ensures r.Some? ==> |r.value.1| < |b|
  {
    if b[0] != 92 then ReadUtf8(b)
    else if |b| >= 2 && ShortEscape(b[1]).Some? then Some((ShortEscape(b[1]).value, b[2..]))
    else if |b| >= 6 && b[1] == 117 && HexDigit(b[4]) && HexDigit(b[5]) then Some((Unhex(b[4]) * 16 + Unhex(b[5]), b[6..]))
    else None
  }

  /** The rest of a string literal after its opening quote. */
  function ReadText(b: Bytes): (r: Option<(Text, Bytes)>)
    ensures r.Some? ==> |r.value.1| < |b|
    decreases |b|
  {
    if b == [] then None
    else if b[0] == 34 then Some(([], b[1..]))
    else
      var c := ReadChar(b);
      if c.None? || c.value.0 >= 0x110000 then None
      else
        var rest := ReadText(c.value.1);
        if rest.None? then None else Some(([c.value.0] + rest.value.0, rest.value.1))
  }

  function Literal(b: Bytes, word: Bytes, v: Value): (r: Option<(Value, Bytes)>)
    ensures r.Some? ==> |r.value.1| <= |b| - |word|
  {
    if word <= b then Some((v, b[|word|..])) else None
  }

  function Parse(b: Bytes): (r: Option<(Value, Bytes)>)
    ensures r.Some? ==> |r.value.1| < |b|
    decreases |b|, 0
  {
    if b == [] then None
    else if b[0] == 110 then Literal(b, [110, 117, 108, 108], Null)
    else if b[0] == 116 then Literal(b, [116, 114, 117, 101], Bool(true))
    else if b[0] == 102 then Literal(b, [102, 97, 108, 115, 101], Bool(false))
    else if b[0] == 34 then
      var t := ReadText(b[1..]);
      if t.None? then None else Some((Str(t.value.0), t.value.1))
    else if b[0] == 91 then
      var items := ParseItems(b[1..], true);
      if items.None? then None else Some((Arr(items.value.0), items.value.1))
    else if b[0] == 123 then
      var pairs := ParsePairs(b[1..], true);
      if pairs.None? then None else Some((Obj(pairs.value.0), pairs.value.1))
    else if b[0] == 45 then
      if |b| < 2 || !Digit(b[1]) then None
      else var d := ReadDigits(b[1..], 0); var n: int := d.0; Some((Int(-n), d.1))
    else if Digit(b[0]) then var d := ReadDigits(b[1..], b[0] - 48); Some((Int(d.0), d.1))
    else None
  }

  function ParseItems(b: Bytes, first: bool): (r: Option<(seq<Value>, Bytes)>)
    ensures r.Some? ==> |r.value.1| < |b|
    decreases |b|, 1
  {
    if b == [] then None
    else if b[0] == 93 then Some(([], b[1..]))
    else if !first && b[0] != 44 then None
    else
      var v := Parse(if first then b else b[1..]);
      if v.None? then None
      else
        var rest := ParseItems(v.value.1, false);
        if rest.None? then None else Some(([v.value.0] + rest.value.0, rest.value.1))
  }

  function ParsePairs(b: Bytes, first: bool): (r: Option<(seq<Pair>, Bytes)>)
    ensures r.Some? ==> |r.value.1| < |b|
    decreases |b|, 1
  {
    if b == [] then None
    else if b[0] == 125 then Some(([], b[1..]))
    else if !first && b[0] != 44 then None
    else
      var k := if first then b else b[1..];
      if k == [] || k[0] != 34 then None
      else
        var key := ReadText(k[1..]);
        if key.None? || key.value.1 == [] || key.value.1[0] != 58 then None
        else
          var v := Parse(key.value.1[1..]);
          if v.None? then None
          else
            var rest := ParsePairs(v.value.1, false);
            if rest.None? then None else Some(([Pair(KText(key.value.0), v.value.0)] + rest.value.0, rest.value.1))
  }

  // ---- What the parser gives back ----

  /** The same value with every dictionary in key order. */
  function Canon(v: Value): Value
    requires InProfile(v)
    decreases v, 2, 0
  {
    match v
    case Obj(ps) => Obj(CanonPairs(v, Order(ps)))
    case Arr(items) => Arr(CanonItems(v, 0))
    case _ => v
  }

  function CanonPairs(v: Value, ps: seq<Pair>): (r: seq<Pair>)
    requires v.Obj? && InProfile(v) && TextKeys(ps) && forall p | p in ps :: p in v.pairs
    ensures |r| == |ps| && forall i | 0 <= i < |ps| :: r[i].key == ps[i].key
    decreases v, 1, |ps|
  {
    if ps == [] then []
    else
      assert ps[0] in v.pairs;
      [Pair(ps[0].key, Canon(ps[0].val))] + CanonPairs(v, ps[1..])
  }

  function CanonItems(v: Value, i: nat): (r: seq<Value>)
    requires v.Arr? && InProfile(v) && i <= |v.items|
    ensures |r| == |v.items| - i
    decreases v, 1, |v.items| - i
  {
    if i == |v.items| then [] else [Canon(v.items[i])] + CanonItems(v, i + 1)
  }

  // ---- Inverting the pieces ----

  lemma {:induction false} ReadDigitsBack(n: nat, rest: Bytes)
    ensures ReadDigits(Digits(n) + rest, 0) == ReadDigits(rest, n)
    decreases n
  {
    if n < 10 {
      assert ([48 + n] + rest)[1..] == rest;
    } else {
      var last: Bytes := [48 + n % 10];
      assert Digits(n) + rest == Digits(n / 10) + (last + rest);
      ReadDigitsBack(n / 10, last + rest);
      assert (last + rest)[1..] == rest;
    }
  }

  predicate Delimited(rest: Bytes) { rest == [] || !Digit(rest[0]) }

  lemma {:induction false} DigitsLead(n: nat)
    ensures Digits(n) != [] && Digit(Digits(n)[0])
    decreases n
  {
    if n >= 10 { DigitsLead(n / 10); }
  }

  lemma ParseInt(n: int, rest: Bytes)
    requires Delimited(rest)
    ensures Parse(Decimal(n) + rest) == Some((Int(n), rest))
  {
    var m: nat := if n < 0 then -n else n;
    DigitsLead(m);
    ReadDigitsBack(m, rest);
    var b := Digits(m) + rest;
    assert ReadDigits(b, 0) == (m, rest);
    assert ReadDigits(b, 0) == ReadDigits(b[1..], b[0] - 48);
    if n < 0 {
      assert (Decimal(n) + rest)[1..] == b;
    }
  }

  lemma Utf8Back(c: CodePoint, rest: Bytes)
    ensures ReadUtf8(Utf8(c) + rest) == Some((c, rest))
    ensures c != 34 && c != 92 ==> Utf8(c)[0] != 34 && Utf8(c)[0] != 92
  {
    var b := Utf8(c) + rest;
    assert b[|Utf8(c)|..] == rest;
    Sextets(c);
    if c < 0x80 {
    } else if c < 0x800 {
      assert ReadUtf8(b).value.0 == c / 64 * 64 + c % 64;
    } else if c < 0x10000 {
      assert ReadUtf8(b).value.0 == c / 4096 * 4096 + c / 64 % 64 * 64 + c % 64;
    } else {
      assert ReadUtf8(b).value.0 == c / 262144 * 262144 + c / 4096 % 64 * 4096 + c / 64 % 64 * 64 + c % 64;
    }
  }

  lemma Sextets(c: nat)
    ensures c == c / 64 * 64 + c % 64
    ensures c == c / 4096 * 4096 + c / 64 % 64 * 64 + c % 64
    ensures c == c / 262144 * 262144 + c / 4096 % 64 * 4096 + c / 64 % 64 * 64 + c % 64
  {
    var hi, top := c / 64, c / 4096;
    By64(c);
    By4096(c);
    assert hi == hi / 64 * 64 + hi % 64;
    assert top == top / 64 * 64 + top % 64;
  }

  lemma By64(c: nat)
    ensures c / 64 / 64 == c / 4096
  {
  }

  lemma By4096(c: nat)
    ensures c / 4096 / 64 == c / 262144
  {
  }

  lemma EscapeBack(c: CodePoint, rest: Bytes)
    ensures var b := Escape(c) + rest; b[0] != 34 && ReadChar(b) == Some((c, rest))
  {
    var b := Escape(c) + rest;
    assert b[|Escape(c)|..] == rest;
    Utf8Back(c, rest);
    if c < 0x20 || c == 0x7F { assert c == c / 16 * 16 + c % 16; }
  }

  lemma {:induction false} TextBack(t: Text, rest: Bytes)
    ensures ReadText(Escapes(t) + [34] + rest) == Some((t, rest))
    decreases |t|
  {
    if t == [] {
      assert Escapes(t) + [34] + rest == [34] + rest && ([34] + rest)[1..] == rest;
    } else {
      var more := Escapes(t[1..]) + [34] + rest;
      assert Escapes(t) + [34] + rest == Escape(t[0]) + more;
      EscapeBack(t[0], more);
      TextBack(t[1..], rest);
      assert [t[0]] + t[1..] == t;
    }
  }

  lemma QuotedBack(t: Text, rest: Bytes)
    ensures (Quoted(t) + rest)[0] == 34 && ReadText((Quoted(t) + rest)[1..]) == Some((t, rest))
  {
    assert (Quoted(t) + rest)[1..] == Escapes(t) + [34] + rest;
    TextBack(t, rest);
  }

  /** What a value starts with tells its kind. */
  lemma StartsRight(v: Value)
    requires InProfile(v)
    ensures Encode(v) != [] && Encode(v)[0] != 93 && Encode(v)[0] != 44 && Encode(v)[0] != 125
  {
    if v.Int? { DigitsLead(if v.n < 0 then -v.n else v.n); }
  }

  // ---- The round trip ----

  /** The parser reads back exactly the value, keys in order, and leaves what follows,
      provided that what follows does not continue a number. */
  lemma {:induction false} RoundTrip(v: Value, rest: Bytes)
    requires InProfile(v) && Delimited(rest)
    ensures Parse(Encode(v) + rest) == Some((Canon(v), rest))
    decreases v, 2, 0
  {
    match v
    case Null => NullBack(rest);
    case Bool(t) => BoolBack(t, rest);
    case Int(n) => ParseInt(n, rest);
    case Str(t) => StrBack(t, rest);
    case Arr(items) =>
      ItemsBack(v, 0, rest);
      ArrBack(v, rest);
    case Obj(ps) =>
      PairsBack(v, Order(ps), true, rest);
      ObjBytes(v, rest);
      BracesBack(PairsBytes(v, Order(ps), true) + rest, CanonPairs(v, Order(ps)), rest);
  }

  lemma NullBack(rest: Bytes)
    ensures Parse(Encode(Null) + rest) == Some((Null, rest))
  {
    var b := Encode(Null) + rest;
    assert b[4..] == rest && [110, 117, 108, 108] <= b;
  }

  lemma StrBack(t: Text, rest: Bytes)
    requires Clean(t)
    ensures Parse(Encode(Str(t)) + rest) == Some((Str(t), rest))
  {
    QuotedBack(t, rest);
  }

  lemma ArrBack(v: Value, rest: Bytes)
    requires v.Arr? && InProfile(v) && ParseItems(ItemsBytes(v, 0) + rest, true) == Some((CanonItems(v, 0), rest))
    ensures Parse(Encode(v) + rest) == Some((Canon(v), rest))
  {
    assert (Encode(v) + rest)[1..] == ItemsBytes(v, 0) + rest;
  }

  lemma ObjBytes(v: Value, rest: Bytes)
    requires v.Obj? && InProfile(v)
    ensures Encode(v) + rest == [123] + (PairsBytes(v, Order(v.pairs), true) + rest)
  {
  }

  lemma BracesBack(inner: Bytes, pairs: seq<Pair>, rest: Bytes)
    requires ParsePairs(inner, true) == Some((pairs, rest))
    ensures Parse([123] + inner) == Some((Obj(pairs), rest))
  {
    assert ([123] + inner)[1..] == inner;
  }

  lemma BoolBack(t: bool, rest: Bytes)
    ensures Parse(Encode(Bool(t)) + rest) == Some((Bool(t), rest))
  {
    var b := Encode(Bool(t)) + rest;
    if t {
      assert b[4..] == rest && [116, 114, 117, 101] <= b;
    } else {
      assert b[5..] == rest && [102, 97, 108, 115, 101] <= b;
    }
  }

  lemma {:induction false} ItemsBack(v: Value, i: nat, rest: Bytes)
    requires v.Arr? && InProfile(v) && i <= |v.items|
    ensures ParseItems(ItemsBytes(v, i) + rest, i == 0) == Some((CanonItems(v, i), rest))
    decreases v, 1, |v.items| - i
  {
    var b := ItemsBytes(v, i) + rest;
    if i == |v.items| {
      assert b[1..] == rest;
    } else {
      var more := ItemsBytes(v, i + 1) + rest;
      var body := Encode(v.items[i]) + more;
      assert b == (if i == 0 then [] else [44]) + body;
      assert (if i == 0 then b else b[1..]) == body;
      StartsRight(v.items[i]);
      assert Delimited(more);
      RoundTrip(v.items[i], more);
      ItemsBack(v, i + 1, rest);
    }
  }

  lemma {:induction false} PairsBack(v: Value, ps: seq<Pair>, first: bool, rest: Bytes)
    requires v.Obj? && InProfile(v) && TextKeys(ps) && forall p | p in ps :: p in v.pairs
    ensures ParsePairs(PairsBytes(v, ps, first) + rest, first) == Some((CanonPairs(v, ps), rest))
    decreases v, 1, |ps|
  {
    var b := PairsBytes(v, ps, first) + rest;
    if ps == [] {
      assert b[1..] == rest;
    } else {
      assert ps[0] in v.pairs;
      var more := PairsBytes(v, ps[1..], false) + rest;
      var tail := Encode(ps[0].val) + more;
      RoundTrip(ps[0].val, more);
      PairsBack(v, ps[1..], false, rest);
      PairBytes(v, ps, first, rest, more);
      PairBack(b, first, ps[0].key.text, tail, Canon(ps[0].val), more, CanonPairs(v, ps[1..]), rest);
    }
  }

  lemma PairBytes(v: Value, ps: seq<Pair>, first: bool, rest: Bytes, more: Bytes)
    requires v.Obj? && InProfile(v) && TextKeys(ps) && (forall p | p in ps :: p in v.pairs) && ps != []
    requires more == PairsBytes(v, ps[1..], false) + rest
    ensures ps[0] in v.pairs
    ensures PairsBytes(v, ps, first) + rest
            == (if first then [] else [44]) + (Quoted(ps[0].key.text) + ([58] + (Encode(ps[0].val) + more)))
  {
    assert ps[0] in v.pairs;
  }

  /** One entry: separator, key, colon, value, and the entries after it. */
  lemma PairBack(b: Bytes, first: bool, key: Text, tail: Bytes, val: Value, more: Bytes, others: seq<Pair>, rest: Bytes)
    requires b == (if first then [] else [44]) + (Quoted(key) + ([58] + tail))
    requires Parse(tail) == Some((val, more)) && ParsePairs(more, false) == Some((others, rest))
    ensures ParsePairs(b, first) == Some(([Pair(KText(key), val)] + others, rest))
  {
    var body := [58] + tail;
    var k := if first then b else b[1..];
    assert k == Quoted(key) + body;
    QuotedBack(key, body);
    assert body[1..] == tail;
  }

  /** Even embedded in a longer stream, equal bytes come from the same value. */
  lemma Injective(v: Value, w: Value, rest: Bytes, rest': Bytes)
    requires InProfile(v) && InProfile(w) && Delimited(rest) && Delimited(rest')
    requires Encode(v) + rest == Encode(w) + rest'
    ensures Canon(v) == Canon(w) && rest == rest'
  {
    RoundTrip(v, rest);
    RoundTrip(w, rest');
  }

  // ---- Key order ----

  lemma {:induction false} LessTotal(a: Text, b: Text)
    ensures Less(a, b) || Less(b, a) || a == b
    ensures !(Less(a, b) && Less(b, a)) && !Less(a, a)
    decreases |a|
  {
    if a != [] && b != [] {
      LessTotal(a[1..], b[1..]);
      assert a == [a[0]] + a[1..] && b == [b[0]] + b[1..];
    }
    if a != [] { LessTotal(a[1..], a[1..]); }
  }

  lemma {:induction false} LessTrans(a: Text, b: Text, c: Text)
    requires Less(a, b) && Less(b, c)
    ensures Less(a, c)
    decreases |a|
  {
    if a != [] && a[0] == b[0] == c[0] { LessTrans(a[1..], b[1..], c[1..]); }
  }

  ghost predicate Ascending(ps: seq<Pair>)
    requires TextKeys(ps)
  {
    forall i, j | 0 <= i < j < |ps| :: Less(ps[i].key.text, ps[j].key.text)
  }

  lemma {:induction false} InsertAscending(p: Pair, ps: seq<Pair>)
    requires p.key.KText? && TextKeys(ps) && Ascending(ps) && forall q | q in ps :: q.key != p.key
    ensures Ascending(Insert(p, ps))
    decreases |ps|
  {
    var r := Insert(p, ps);
    if ps != [] {
      LessTotal(ps[0].key.text, p.key.text);
      if Less(ps[0].key.text, p.key.text) {
        InsertAscending(p, ps[1..]);
        forall j | 0 < j < |r| ensures Less(r[0].key.text, r[j].key.text) {
          assert r[j] in Insert(p, ps[1..]);
          if r[j] != p { assert r[j] in ps[1..]; }
        }
      } else {
        assert ps[0] in ps;
        forall j | 0 < j < |r| ensures Less(p.key.text, r[j].key.text) {
          if j > 1 { LessTrans(p.key.text, ps[0].key.text, ps[j - 1].key.text); }
        }
      }
    }
  }

  /** Sorting puts distinct keys in strictly ascending order. */
  lemma {:induction false} OrderAscending(ps: seq<Pair>)
    requires TextKeys(ps) && DistinctKeys(ps)
    ensures Ascending(Order(ps))
    decreases |ps|
  {
    if ps != [] {
      OrderAscending(ps[1..]);
      forall q | q in Order(ps[1..]) ensures q.key != ps[0].key { assert q in ps[1..]; }
      InsertAscending(ps[0], Order(ps[1..]));
    }
  }

  function Names(ps: seq<Pair>): (r: seq<Key>)
    ensures |r| == |ps| && forall i | 0 <= i < |ps| :: r[i] == ps[i].key
  {
    if ps == [] then [] else [ps[0].key] + Names(ps[1..])
  }

  ghost predicate SameKeys(ps: seq<Pair>, qs: seq<Pair>) { forall k :: k in Names(ps) <==> k in Names(qs) }

  ghost predicate Climbs(a: seq<Key>) {
    && (forall i | 0 <= i < |a| :: a[i].KText?)
    && (forall i, j | 0 <= i < j < |a| :: Less(a[i].text, a[j].text))
  }

  /** An ascending list is determined by its set of keys. */
  lemma {:induction false} ClimbsUnique(a: seq<Key>, b: seq<Key>)
    requires Climbs(a) && Climbs(b) && forall k :: k in a <==> k in b
    ensures a == b
    decreases |a|
  {
    if b != [] { assert b[0] in b; }
    if a != [] {
      assert a[0] in a;
      HeadsAgree(a, b);
      TailHas(a);
      TailHas(b);
      ClimbsUnique(a[1..], b[1..]);
      assert a == [a[0]] + a[1..] && b == [b[0]] + b[1..];
    }
  }

  lemma HeadsAgree(a: seq<Key>, b: seq<Key>)
    requires Climbs(a) && Climbs(b) && (forall k :: k in a <==> k in b) && a != [] && b != []
    ensures a[0] == b[0]
  {
    assert a[0] in a && b[0] in b;
    LessTotal(a[0].text, b[0].text);
  }

  lemma TailHas(a: seq<Key>)
    requires Climbs(a) && a != []
    ensures forall k :: k in a[1..] <==> k in a && k != a[0]
  {
    forall k | k in a[1..] ensures k in a && k != a[0] {
      LessTotal(a[0].text, k.text);
    }
  }

  // ---- Value equality, without any order ----

  /** Python's equality on profile values: dictionaries agree key by key, in any order. */
  ghost predicate SameValue(v: Value, w: Value)
    decreases v
  {
    match v
    case Obj(ps) =>
      && w.Obj? && SameKeys(ps, w.pairs)
      && forall i, j | 0 <= i < |ps| && 0 <= j < |w.pairs| && ps[i].key == w.pairs[j].key :: SameValue(ps[i].val, w.pairs[j].val)
    case Arr(items) =>
      w.Arr? && |items| == |w.items| && forall i | 0 <= i < |items| :: SameValue(items[i], w.items[i])
    case _ => v == w
  }

  lemma OrderNames(ps: seq<Pair>)
    requires TextKeys(ps)
    ensures forall k :: k in Names(Order(ps)) <==> k in Names(ps)
  {
    var os := Order(ps);
    forall k | k in Names(os) ensures k in Names(ps) {
      var i :| 0 <= i < |os| && os[i].key == k;
      assert os[i] in ps;
      var j :| 0 <= j < |ps| && ps[j] == os[i];
      assert Names(ps)[j] == k;
    }
    forall k | k in Names(ps) ensures k in Names(os) {
      var i :| 0 <= i < |ps| && ps[i].key == k;
      assert ps[i] in os;
      var j :| 0 <= j < |os| && os[j] == ps[i];
      assert Names(os)[j] == k;
    }
  }

  /** Sorted, equal key sets are equal key lists. */
  lemma SortedNames(ps: seq<Pair>, qs: seq<Pair>)
    requires TextKeys(ps) && DistinctKeys(ps) && TextKeys(qs) && DistinctKeys(qs)
    ensures SameKeys(ps, qs) <==> Names(Order(ps)) == Names(Order(qs))
  {
    OrderNames(ps);
    OrderNames(qs);
    if SameKeys(ps, qs) {
      OrderAscending(ps);
      OrderAscending(qs);
      ClimbsUnique(Names(Order(ps)), Names(Order(qs)));
    }
  }

  lemma {:induction false} CanonPairsAt(v: Value, ps: seq<Pair>, i: nat)
    requires v.Obj? && InProfile(v) && TextKeys(ps) && (forall p | p in ps :: p in v.pairs) && i < |ps|
    ensures ps[i] in v.pairs && CanonPairs(v, ps)[i] == Pair(ps[i].key, Canon(ps[i].val))
    decreases |ps|
  {
    assert ps[i] in ps;
    if i > 0 { CanonPairsAt(v, ps[1..], i - 1); }
  }

  lemma {:induction false} CanonItemsAt(v: Value, i: nat, k: nat)
    requires v.Arr? && InProfile(v) && i <= k < |v.items|
    ensures CanonItems(v, i)[k - i] == Canon(v.items[k])
    decreases |v.items| - i
  {
    if i < k { CanonItemsAt(v, i + 1, k); }
  }

  /** Two values have one canonical form exactly when they are the same value. */
  lemma {:induction false} CanonIff(v: Value, w: Value)
    requires InProfile(v) && InProfile(w)
    ensures Canon(v) == Canon(w) <==> SameValue(v, w)
    decreases v
  {
    match v
    case Obj(ps) => if w.Obj? { ObjIff(v, w); }
    case Arr(items) =>
      if w.Arr? && |items| == |w.items| {
        forall k | 0 <= k < |items|
          ensures (Canon(v).items[k] == Canon(w).items[k] <==> SameValue(v.items[k], w.items[k]))
        {
          CanonItemsAt(v, 0, k);
          CanonItemsAt(w, 0, k);
          CanonIff(v.items[k], w.items[k]);
        }
      }
    case _ =>
  }

  lemma {:induction false} ObjIff(v: Value, w: Value)
    requires v.Obj? && w.Obj? && InProfile(v) && InProfile(w)
    ensures Canon(v) == Canon(w) <==> SameValue(v, w)
    decreases v, 1
  {
    SortedNames(v.pairs, w.pairs);
    if SameValue(v, w) { SameToCanon(v, w); }
    if Canon(v) == Canon(w) {
      KeysFromCanon(v, w);
      forall i, j | 0 <= i < |v.pairs| && 0 <= j < |w.pairs| && v.pairs[i].key == w.pairs[j].key
        ensures SameValue(v.pairs[i].val, w.pairs[j].val)
      {
        CanonAgree(v, w, i, j);
        CanonIff(v.pairs[i].val, w.pairs[j].val);
      }
    }
  }

  lemma {:induction false} SameToCanon(v: Value, w: Value)
    requires v.Obj? && w.Obj? && InProfile(v) && InProfile(w) && SameValue(v, w)
    requires Names(Order(v.pairs)) == Names(Order(w.pairs))
    ensures Canon(v) == Canon(w)
    decreases v, 0
  {
    var ps, qs := Order(v.pairs), Order(w.pairs);
    assert |Names(ps)| == |ps| == |qs|;
    forall i | 0 <= i < |ps| ensures CanonPairs(v, ps)[i] == CanonPairs(w, qs)[i] {
      assert Names(ps)[i] == Names(qs)[i];
      assert ps[i] in ps && qs[i] in qs;
      ValuesAgree(v, w, ps[i], qs[i]);
      CanonPairsAt(v, ps, i);
      CanonPairsAt(w, qs, i);
      CanonIff(ps[i].val, qs[i].val);
    }
    assert CanonPairs(v, ps) == CanonPairs(w, qs);
  }

  lemma ValuesAgree(v: Value, w: Value, p: Pair, q: Pair)
    requires v.Obj? && w.Obj? && SameValue(v, w) && p in v.pairs && q in w.pairs && p.key == q.key
    ensures SameValue(p.val, q.val)
  {
    var i :| 0 <= i < |v.pairs| && v.pairs[i] == p;
    var j :| 0 <= j < |w.pairs| && w.pairs[j] == q;
  }

  lemma KeysFromCanon(v: Value, w: Value)
    requires v.Obj? && w.Obj? && InProfile(v) && InProfile(w) && Canon(v) == Canon(w)
    ensures SameKeys(v.pairs, w.pairs)
  {
    var ps, qs := Order(v.pairs), Order(w.pairs);
    assert CanonPairs(v, ps) == CanonPairs(w, qs);
    assert forall i | 0 <= i < |ps| :: CanonPairs(v, ps)[i].key == ps[i].key == qs[i].key;
    assert Names(ps) == Names(qs);
    SortedNames(v.pairs, w.pairs);
  }

  lemma CanonAgree(v: Value, w: Value, i: nat, j: nat)
    requires v.Obj? && w.Obj? && InProfile(v) && InProfile(w) && Canon(v) == Canon(w)
    requires i < |v.pairs| && j < |w.pairs| && v.pairs[i].key == w.pairs[j].key
    ensures Canon(v.pairs[i].val) == Canon(w.pairs[j].val)
  {
    var ps, qs := Order(v.pairs), Order(w.pairs);
    assert v.pairs[i] in ps && w.pairs[j] in qs;
    var k :| 0 <= k < |ps| && ps[k] == v.pairs[i];
    var m :| 0 <= m < |qs| && qs[m] == w.pairs[j];
    assert CanonPairs(v, ps) == CanonPairs(w, qs);
    CanonPairsAt(v, ps, k);
    CanonPairsAt(w, qs, k);
    CanonPairsAt(w, qs, m);
    OrderAscending(w.pairs);
    OnePlace(qs, k, m);
  }

  lemma OnePlace(qs: seq<Pair>, k: nat, m: nat)
    requires TextKeys(qs) && Ascending(qs) && k < |qs| && m < |qs| && qs[k].key == qs[m].key
    ensures k == m
  {
    LessTotal(qs[k].key.text, qs[m].key.text);
  }

  /** The canonical bytes identify the value: equal bytes exactly for equal values,
      whatever order each dictionary was filled in. */
  lemma EqualBytesIff(v: Value, w: Value)
    requires InProfile(v) && InProfile(w)
    ensures Encode(v) == Encode(w) <==> SameValue(v, w)
  {
    CanonIff(v, w);
    if Encode(v) == Encode(w) { Injective(v, w, [], []); }
    if SameValue(v, w) { CanonEncodes(v, w); }
  }

  /** The encoder looks at a value only through its canonical form. */
  lemma {:induction false} CanonEncodes(v: Value, w: Value)
    requires InProfile(v) && InProfile(w) && Canon(v) == Canon(w)
    ensures Encode(v) == Encode(w)
    decreases v, 2, 0
  {
    match v
    case Arr(items) => ItemsEncode(v, w, 0);
    case Obj(ps) =>
      assert CanonPairs(v, Order(ps)) == CanonPairs(w, Order(w.pairs));
      PairsEncode(v, w, Order(ps), Order(w.pairs), true);
    case _ =>
  }

  lemma {:induction false} ItemsEncode(v: Value, w: Value, i: nat)
    requires v.Arr? && w.Arr? && InProfile(v) && InProfile(w) && |v.items| == |w.items| && i <= |v.items|
    requires CanonItems(v, i) == CanonItems(w, i)
    ensures ItemsBytes(v, i) == ItemsBytes(w, i)
    decreases v, 1, |v.items| - i
  {
    if i < |v.items| {
      assert CanonItems(v, i)[1..] == CanonItems(v, i + 1) && CanonItems(w, i)[1..] == CanonItems(w, i + 1);
      CanonEncodes(v.items[i], w.items[i]);
      ItemsEncode(v, w, i + 1);
    }
  }

  lemma {:induction false} PairsEncode(v: Value, w: Value, ps: seq<Pair>, qs: seq<Pair>, first: bool)
    requires v.Obj? && w.Obj? && InProfile(v) && InProfile(w) && TextKeys(ps) && TextKeys(qs)
    requires (forall p | p in ps :: p in v.pairs) && (forall q | q in qs :: q in w.pairs)
    requires CanonPairs(v, ps) == CanonPairs(w, qs)
    ensures PairsBytes(v, ps, first) == PairsBytes(w, qs, first)
    decreases v, 1, |ps|
  {
    assert |ps| == |qs|;
    if ps != [] {
      assert ps[0] in v.pairs && qs[0] in w.pairs;
      assert CanonPairs(v, ps)[0] == CanonPairs(w, qs)[0];
      assert CanonPairs(v, ps)[1..] == CanonPairs(v, ps[1..]) && CanonPairs(w, qs)[1..] == CanonPairs(w, qs[1..]);
      CanonEncodes(ps[0].val, qs[0].val);
      PairsEncode(v, w, ps[1..], qs[1..], false);
    }
  }
}
