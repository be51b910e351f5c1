// The canonical bytes told without the encoder's own functions: in which order keys
// come, which characters are escaped and how, and which numerals are written.

module CanonicalOrder {
  import opened Base
  import opened Canonical
  import opened CanonicalInverse

  // ---- Key order ----

  ghost predicate DiffersAt(a: Text, b: Text, k: nat) { k < |a| && k < |b| && a[..k] == b[..k] && a[k] < b[k] }

  /** `a` is a proper prefix of `b`, or smaller at the first place where they differ. */
  ghost predicate Before(a: Text, b: Text) { a < b || exists k: nat :: DiffersAt(a, b, k) }

  /** The sort key compares texts character by character. */
  lemma {:induction false} LessIff(a: Text, b: Text)
    ensures Less(a, b) <==> Before(a, b)
    decreases |a|
  {
    if a != [] && b != [] {
      var s, t := a[1..], b[1..];
      LessIff(s, t);
      if Less(a, b) {
        if a[0] < b[0] {
          assert DiffersAt(a, b, 0);
        } else if s < t {
          assert a == [a[0]] + s && b == [b[0]] + t;
        } else {
          var k: nat :| DiffersAt(s, t, k);
          assert a[..k + 1] == [a[0]] + s[..k] && b[..k + 1] == [b[0]] + t[..k];
          assert DiffersAt(a, b, k + 1);
        }
      }
      if Before(a, b) { BeforeTail(a, b); }
    }
  }

  lemma BeforeTail(a: Text, b: Text)
    requires a != [] && b != [] && Before(a, b)
    ensures a[0] < b[0] || (a[0] == b[0] && Before(a[1..], b[1..]))
  {
    if a < b {
      assert a[1..] < b[1..] by { assert b[..|a|] == a; assert b[1..][..|a| - 1] == a[1..]; }
    } else {
      var k: nat :| DiffersAt(a, b, k);
      if k > 0 {
        assert a[..k][0] == b[..k][0] && a[1..][..k - 1] == a[..k][1..] && b[1..][..k - 1] == b[..k][1..];
        assert DiffersAt(a[1..], b[1..], k - 1);
      }
    }
  }

  /** Keys are texts and strictly ascending in every dictionary, at every depth. */
  ghost predicate KeysAscend(v: Value)
    decreases v
  {
    match v
    case Obj(ps) =>
      && TextKeys(ps)
      && (forall i, j | 0 <= i < j < |ps| :: Before(ps[i].key.text, ps[j].key.text))
      && (forall i | 0 <= i < |ps| :: KeysAscend(ps[i].val))
    case Arr(items) => forall i | 0 <= i < |items| :: KeysAscend(items[i])
    case _ => true
  }

  lemma OrderBefore(ps: seq<Pair>)
    requires TextKeys(ps) && DistinctKeys(ps)
    ensures forall i, j | 0 <= i < j < |ps| :: Before(Order(ps)[i].key.text, Order(ps)[j].key.text)
  {
    OrderAscending(ps);
    var os := Order(ps);
    forall i, j | 0 <= i < j < |os| ensures Before(os[i].key.text, os[j].key.text) {
      assert Less(os[i].key.text, os[j].key.text);
      LessIff(os[i].key.text, os[j].key.text);
    }
  }

  lemma {:induction false} CanonAscends(v: Value)
    requires InProfile(v)
    ensures KeysAscend(Canon(v))
    decreases v
  {
    match v
    case Obj(ps) =>
      var os := Order(ps);
      OrderBefore(ps);
      forall i | 0 <= i < |os| ensures KeysAscend(CanonPairs(v, os)[i].val) {
        CanonPairsAt(v, os, i);
        CanonAscends(os[i].val);
      }
    case Arr(items) =>
      forall i | 0 <= i < |items| ensures KeysAscend(CanonItems(v, 0)[i]) {
        CanonItemsAt(v, 0, i);
        CanonAscends(items[i]);
      }
    case _ =>
  }

  /** A value and its canonical form are the same dictionary, list or scalar. */
  lemma {:induction false} CanonSame(v: Value)
    requires InProfile(v)
    ensures SameValue(v, Canon(v))
    decreases v, 1
  {
    match v
    case Obj(ps) => CanonSameObj(v);
    case Arr(items) =>
      forall i | 0 <= i < |items| ensures SameValue(items[i], CanonItems(v, 0)[i]) {
        CanonItemsAt(v, 0, i);
        CanonSame(items[i]);
      }
    case _ =>
  }

  lemma {:induction false} CanonSameObj(v: Value)
    requires v.Obj? && InProfile(v)
    ensures SameValue(v, Canon(v))
    decreases v, 0
  {
    var ps, os := v.pairs, Order(v.pairs);
    var cs := CanonPairs(v, os);
    OrderNames(ps);
    assert Names(cs) == Names(os);
    forall i, j | 0 <= i < |ps| && 0 <= j < |cs| && ps[i].key == cs[j].key ensures SameValue(ps[i].val, cs[j].val) {
      CanonPairsAt(v, os, j);
      assert os[j] in os;
      OneEntry(ps, os[j], i);
      CanonSame(ps[i].val);
    }
  }

  lemma OneEntry(ps: seq<Pair>, p: Pair, i: nat)
    requires DistinctKeys(ps) && p in ps && i < |ps| && ps[i].key == p.key
    ensures ps[i] == p
  {
    var k :| 0 <= k < |ps| && ps[k] == p;
  }

  /** What the bytes of a value say: the same value, with the keys of every dictionary in
      strictly ascending order, and nothing of what follows. */
  lemma SortedRoundTrip(v: Value, rest: Bytes)
    requires InProfile(v) && (rest == [] || !(48 <= rest[0] <= 57))
    ensures var read := Parse(Encode(v) + rest);
            read.Some? && SameValue(v, read.value.0) && KeysAscend(read.value.0) && read.value.1 == rest
  {
    RoundTrip(v, rest);
    CanonAscends(v);
    CanonSame(v);
  }

  // ---- Characters ----

  /** The bytes of ASCII text. */
  function Spelled(s: string): (b: Bytes)
    ensures |b| == |s| && forall i | 0 <= i < |s| :: b[i] == (s[i] as int) % 256
  {
    seq(|s|, i requires 0 <= i < |s| => (s[i] as int) % 256)
  }

  /** The value of a lowercase hexadecimal digit, by its place in the list of digits. */
  ghost predicate HexIs(b: Byte, d: nat) { d < 16 && b == ("0123456789abcdef"[d]) as int }

  /** Two-character escapes for exactly seven characters, six-character ones in
      lowercase for the other controls and U+007F, and no escape for anything else. */
  lemma EscapeTable(c: CodePoint)
    ensures c == 0x22 ==> Escape(c) == Spelled("\\\"")
    ensures c == 0x5C ==> Escape(c) == Spelled("\\\\")
    ensures c == 0x08 ==> Escape(c) == Spelled("\\b")
    ensures c == 0x09 ==> Escape(c) == Spelled("\\t")
    ensures c == 0x0A ==> Escape(c) == Spelled("\\n")
    ensures c == 0x0C ==> Escape(c) == Spelled("\\f")
    ensures c == 0x0D ==> Escape(c) == Spelled("\\r")
    ensures var e := Escape(c);
            if c == 0x22 || c == 0x5C || c == 8 || c == 9 || c == 10 || c == 12 || c == 13 then |e| == 2
            else if c < 0x20 || c == 0x7F then |e| == 6 && e[..4] == Spelled("\\u00") && HexIs(e[4], c / 16) && HexIs(e[5], c % 16)
            else e == Utf8(c) && e[0] != '\\' as int
  {
  }

  /** The number in the bits below a byte's marker. */
  function Bits(b: Byte, marker: Byte): int { b - marker }

  /** UTF-8 as section 3 of RFC 3629 lays it out: the fewest bytes that hold the number,
      a lead byte that says how many, and six bits in each byte after it. */
  lemma Utf8Layout(c: CodePoint)
    ensures var u := Utf8(c);
            && |u| == (if c < 0x80 then 1 else if c < 0x800 then 2 else if c < 0x10000 then 3 else 4)
            && (|u| == 1 ==> u[0] == c)
            && (|u| == 2 ==> 0xC2 <= u[0] < 0xE0 && c == Bits(u[0], 0xC0) * 0x40 + Bits(u[1], 0x80))
            && (|u| == 3 ==> 0xE0 <= u[0] < 0xF0 && c == Bits(u[0], 0xE0) * 0x1000 + Bits(u[1], 0x80) * 0x40 + Bits(u[2], 0x80))
            && (|u| == 4 ==>
                  && 0xF0 <= u[0] < 0xF5
                  && c == Bits(u[0], 0xF0) * 0x40000 + Bits(u[1], 0x80) * 0x1000 + Bits(u[2], 0x80) * 0x40 + Bits(u[3], 0x80))
            && forall i | 0 < i < |u| :: 0x80 <= u[i] < 0xC0
  {
    Sextets(c);
  }

  // ---- Numbers ----

  function ValueOf(b: Bytes): int
  {
    if b == [] then 0 else ValueOf(b[..|b| - 1]) * 10 + (b[|b| - 1] - '0' as int)
  }

  lemma {:induction false} DigitsPlain(n: nat)
    ensures var d := Digits(n);
            && d != [] && ValueOf(d) == n
            && (forall i | 0 <= i < |d| :: '0' as int <= d[i] <= '9' as int)
            && (|d| > 1 ==> d[0] != '0' as int)
    decreases n
  {
    var d := Digits(n);
    if n < 10 {
      assert d[..0] == [];
    } else {
      DigitsPlain(n / 10);
      assert d[..|d| - 1] == Digits(n / 10);
      if n / 10 < 10 { assert d[0] == '0' as int + n / 10; }
    }
  }

  /** An integer is written as its decimal numeral, without leading zeros or a plus sign;
      only negative ones have a sign. */
  lemma DecimalPlain(n: int)
    ensures var (d, minus) := (Decimal(n), n < 0);
            && (minus <==> d[..1] == Spelled("-")) && ValueOf(if minus then d[1..] else d) == (if minus then -n else n)
            && (forall i | (if minus then 1 else 0) <= i < |d| :: '0' as int <= d[i] <= '9' as int)
            && (|d| > (if minus then 2 else 1) ==> d[if minus then 1 else 0] != '0' as int)
  {
    DigitsPlain(if n < 0 then -n else n);
    if n < 0 { assert Decimal(n)[1..] == Digits(-n); }
  }

  // ---- Words and punctuation ----

  lemma Words()
    ensures Encode(Null) == Spelled("null") && Encode(Bool(true)) == Spelled("true") && Encode(Bool(false)) == Spelled("false")
    ensures Encode(Arr([])) == Spelled("[]") && Encode(Obj([])) == Spelled("{}")
  {
  }
}
