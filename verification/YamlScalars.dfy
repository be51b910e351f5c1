// One scalar, one line: what the reader makes of what the writer produced.

module YamlScalars {
  import opened Base
  import opened YamlText

  // ---- Trimmed text ----

  predicate Trim(t: string) { t != "" && !Space(t[0]) && !Space(t[|t| - 1]) }

  lemma TrimStays(t: string)
    requires Trim(t)
    ensures LStrip(t) == t && RStrip(t) == t && Strip(t) == t
  {
  }

  lemma {:induction false} LStripShrinks(t: string)
    ensures |LStrip(t)| <= |t| && (t != "" && Space(t[0]) ==> |LStrip(t)| < |t|)
    decreases |t|
  {
    if t != "" && Space(t[0]) { LStripShrinks(t[1..]); }
  }

  lemma {:induction false} RStripShrinks(t: string)
    ensures |RStrip(t)| <= |t| && (t != "" && Space(t[|t| - 1]) ==> |RStrip(t)| < |t|)
    decreases |t|
  {
    if t != "" && Space(t[|t| - 1]) { RStripShrinks(t[..|t| - 1]); }
  }

  /** Text that stripping leaves alone has no space at either end. */
  lemma StripStays(t: string)
    requires t != "" && Strip(t) == t
    ensures Trim(t)
  {
    LStripShrinks(t);
    RStripShrinks(LStrip(t));
  }

  lemma SpaceAhead(t: string)
    requires Trim(t)
    ensures Strip(" " + t) == t
  {
    assert (" " + t)[1..] == t;
    TrimStays(t);
  }

  // ---- Numbers ----

  lemma {:induction false} DigitsBack(n: nat)
    ensures Digits(DigitsOf(n)) && ToNat(DigitsOf(n)) == n
    decreases n
  {
    if n < 10 {
      assert DigitsOf(n)[..0] == "";
    } else {
      DigitsBack(n / 10);
      var s := DigitsOf(n);
      assert s[..|s| - 1] == DigitsOf(n / 10);
      forall i | 0 <= i < |s| ensures Digit(s[i]) { if i < |s| - 1 { assert s[i] == DigitsOf(n / 10)[i]; } }
    }
  }

  lemma IntBack(n: int)
    ensures IntText(FromInt(n)) && ToInt(FromInt(n)) == n
    ensures Trim(FromInt(n)) && FromInt(n)[0] != '"' && FromInt(n)[0] != '\''
  {
    var m: nat := if n < 0 then -n else n;
    DigitsBack(m);
    if n < 0 { assert FromInt(n)[1..] == DigitsOf(m); }
    var s := FromInt(n);
    assert s[|s| - 1] == DigitsOf(m)[|DigitsOf(m)| - 1];
    assert Digit(DigitsOf(m)[0]) && Digit(s[|s| - 1]);
  }

  // ---- Quoted text ----

  lemma {:induction false} UnescapeBack(t: string)
    ensures Unescape(EscapeText(t)) == t
    decreases |t|
  {
    if t != "" {
      var rest := EscapeText(t[1..]);
      UnescapeBack(t[1..]);
      var e := EscapeChar(t[0]);
      assert EscapeText(t) == e + rest;
      if |e| == 2 {
        assert (e + rest)[2..] == rest;
      } else {
        assert (e + rest)[1..] == rest;
      }
    }
  }

  /** Text the writer leaves unquoted. */
  predicate Plain(t: string) { !NeedsQuote(t) }

  lemma PlainShape(t: string)
    requires Plain(t)
    ensures Trim(t) && t[0] != '-' && t[0] != '?'
    ensures forall i | 0 <= i < |t| :: !Special(t[i]) && !Escaped(t[i])
    ensures '"' !in t && '\'' !in t && '#' !in t && ':' !in t && '{' !in t && '[' !in t
  {
    StripStays(t);
    forall c | c in t ensures !Special(c) {
      var i :| 0 <= i < |t| && t[i] == c;
    }
  }

  lemma QuotedTrim(t: string)
    ensures Trim(Quoted(t)) && |Quoted(t)| >= 2 && Quoted(t)[0] == '"' && Quoted(t)[|Quoted(t)| - 1] == '"'
    ensures Quoted(t)[1..|Quoted(t)| - 1] == EscapeText(t)
  {
  }

  lemma PlainParses(t: string)
    requires Plain(t)
    ensures ParseScalar(t) == Txt(t)
  {
    PlainShape(t);
    TrimStays(t);
    assert t[0] in t && t[|t| - 1] in t;
    Words(t);
  }

  /** The reader's words are among those the writer quotes. */
  lemma Words(t: string)
    ensures (NullWord(t) && |t| == 4) || TrueWord(t) || FalseWord(t) ==> Word(LowerAll(t))
  {
    if |t| == 4 { FourLetters(t); }
    if |t| == 5 { FiveLetters(t); }
  }

  lemma FourLetters(t: string)
    requires |t| == 4
    ensures NullWord(t) ==> LowerAll(t) == "null"
    ensures TrueWord(t) ==> LowerAll(t) == "true"
  {
    Lower4(t);
  }

  lemma FiveLetters(t: string)
    requires |t| == 5
    ensures FalseWord(t) ==> LowerAll(t) == "false"
  {
    Lower5(t);
  }

  lemma Lower4(t: string)
    requires |t| == 4
    ensures LowerAll(t) == [Lower(t[0]), Lower(t[1]), Lower(t[2]), Lower(t[3])]
  {
    assert t[1..][1..] == t[2..] && t[2..][1..] == t[3..] && t[3..][1..] == "";
    assert LowerAll(t[3..]) == [Lower(t[3])];
    assert LowerAll(t[2..]) == [Lower(t[2]), Lower(t[3])];
    assert LowerAll(t[1..]) == [Lower(t[1]), Lower(t[2]), Lower(t[3])];
  }

  lemma Lower5(t: string)
    requires |t| == 5
    ensures LowerAll(t) == [Lower(t[0]), Lower(t[1]), Lower(t[2]), Lower(t[3]), Lower(t[4])]
  {
    Lower4(t[1..]);
  }

  lemma QuotedParses(t: string)
    ensures ParseScalar(Quoted(t)) == Txt(t)
  {
    QuotedTrim(t);
    TrimStays(Quoted(t));
    UnescapeBack(t);
  }

  /** Every scalar the writer prints reads back as itself. */
  lemma ScalarBack(v: Scalar)
    ensures Trim(DumpScalar(v)) && ParseScalar(DumpScalar(v)) == v
    ensures DumpScalar(v) != "{}" && DumpScalar(v) != "[]"
  {
    match v
    case Nil => assert Trim("null"); TrimStays("null");
    case Flag(b) => TrimStays(if b then "true" else "false");
    case Num(n) =>
      IntBack(n);
      TrimStays(FromInt(n));
      NumberIsNoWord(FromInt(n));
    case Txt(t) =>
      if Plain(t) {
        PlainShape(t);
        PlainParses(t);
        assert t[0] in t;
      } else {
        QuotedTrim(t);
        QuotedParses(t);
      }
  }

  lemma NumberIsNoWord(t: string)
    requires IntText(t)
    ensures !NullWord(t) && !TrueWord(t) && !FalseWord(t) && t != "{}" && t != "[]"
  {
    assert t[0] == '-' || Digit(t[0]);
  }

  // ---- Comments ----

  function After(m: Scan, s: string): Scan
    decreases |s|
  {
    if s == "" then m else After(Step(m, s[0]), s[1..])
  }

  /** Nothing in `s` starts a comment. */
  predicate Quiet(m: Scan, s: string)
    decreases |s|
  {
    s == "" || (!Comment(m, s[0]) && Quiet(Step(m, s[0]), s[1..]))
  }

  lemma {:induction false} UncommentedAppend(m: Scan, a: string, b: string)
    requires Quiet(m, a)
    ensures Uncommented(m, a + b) == a + Uncommented(After(m, a), b)
    decreases |a|
  {
    if a == "" {
      assert a + b == b;
    } else {
      assert (a + b)[0] == a[0] && (a + b)[1..] == a[1..] + b;
      UncommentedAppend(Step(m, a[0]), a[1..], b);
    }
  }

  lemma {:induction false} QuietAppend(m: Scan, a: string, b: string)
    ensures Quiet(m, a + b) <==> Quiet(m, a) && Quiet(After(m, a), b)
    ensures After(m, a + b) == After(After(m, a), b)
    decreases |a|
  {
    if a == "" {
      assert a + b == b;
    } else {
      assert (a + b)[0] == a[0] && (a + b)[1..] == a[1..] + b;
      QuietAppend(Step(m, a[0]), a[1..], b);
    }
  }

  /** Without quotes or number signs nothing happens. */
  lemma {:induction false} NeutralQuiet(m: Scan, s: string)
    requires '"' !in s && '\'' !in s && '#' !in s
    ensures Quiet(m, s) && After(m, s).single == m.single && After(m, s).double == m.double
    ensures s != "" ==> After(m, s).prev == Some(s[|s| - 1])
    decreases |s|
  {
    if s != "" {
      assert s[0] in s && forall c | c in s[1..] :: c in s;
      NeutralQuiet(Step(m, s[0]), s[1..]);
    }
  }

  /** Inside double quotes the escaped text never closes them. */
  lemma {:induction false} EscapedQuiet(m: Scan, t: string)
    requires m.double && !m.single
    ensures var n := After(m, EscapeText(t));
            && Quiet(m, EscapeText(t)) && n.double && !n.single
            && (t != "" ==> (n.prev == Some('\\') <==> t[|t| - 1] == '\\'))
            && (t == "" ==> n == m)
    decreases |t|
  {
    if t != "" {
      var e := EscapeChar(t[0]);
      QuietAppend(m, e, EscapeText(t[1..]));
      EscapedOne(m, t[0]);
      EscapedQuiet(After(m, e), t[1..]);
    }
  }

  lemma EscapedOne(m: Scan, c: char)
    requires m.double && !m.single
    ensures var n := After(m, EscapeChar(c));
            Quiet(m, EscapeChar(c)) && n.double && !n.single && (n.prev == Some('\\') <==> c == '\\')
  {
    var e := EscapeChar(c);
    if |e| == 2 {
      assert e[1..][0] == e[1] && e[1..][1..] == "";
      assert After(Step(m, e[0]), e[1..]) == Step(Step(m, e[0]), e[1]);
      assert Quiet(Step(m, e[0]), e[1..]);
    } else {
      assert e[1..] == "";
    }
  }

  /** Quoted text is quiet; the scan sees its quotes closed exactly when it does not
      end in a backslash. */
  lemma QuotedQuiet(m: Scan, t: string)
    requires !m.double && !m.single
    ensures Quiet(m, Quoted(t)) && !After(m, Quoted(t)).single
    ensures After(m, Quoted(t)).double <==> t != "" && t[|t| - 1] == '\\'
  {
    var m1 := Step(m, '"');
    var body := EscapeText(t);
    QuietAppend(m, "\"", body + "\"");
    assert Quoted(t) == "\"" + (body + "\"");
    assert After(m, "\"") == m1;
    QuietAppend(m1, body, "\"");
    EscapedQuiet(m1, t);
    var m2 := After(m1, body);
    assert After(m2, "\"") == Step(m2, '"');
  }

  lemma QuietKept(line: string)
    requires Quiet(START, line)
    ensures StripComment(line) == line
  {
    UncommentedAppend(START, line, "");
    assert line + "" == line;
  }

  /** The scalar of a line whose quotes are all closed so far. */
  lemma ScalarQuiet(m: Scan, v: Scalar)
    requires !m.double && !m.single
    ensures Quiet(m, DumpScalar(v))
  {
    match v
    case Txt(t) =>
      if Plain(t) { PlainShape(t); NeutralQuiet(m, t); } else { QuotedQuiet(m, t); }
    case Num(n) =>
      NumberNeutral(n);
      NeutralQuiet(m, FromInt(n));
    case Nil => NeutralQuiet(m, "null");
    case Flag(b) => NeutralQuiet(m, if b then "true" else "false");
  }

  lemma NumberNeutral(n: int)
    ensures forall c | c in FromInt(n) :: Digit(c) || c == '-'
  {
    IntBack(n);
    var s := FromInt(n);
    forall i | 0 <= i < |s| ensures Digit(s[i]) || s[i] == '-' {
      if n < 0 && i > 0 { assert s[i] == s[1..][i - 1]; }
    }
  }

  // ---- Lines ----

  predicate OneLine(s: string) { forall i | 0 <= i < |s| :: !Breaks(s[i]) }

  lemma {:induction false} SplitOne(line: string, rest: string, sofar: string)
    requires OneLine(line)
    ensures SplitFrom(line + "\n" + rest, sofar) == [sofar + line] + SplitFrom(rest, "")
    decreases |line|
  {
    var text := line + "\n" + rest;
    if line == "" {
      assert text == "\n" + rest && text[1..] == rest && sofar + line == sofar;
    } else {
      assert text[0] == line[0] && text[1..] == line[1..] + "\n" + rest;
      assert !Breaks(text[0]);
      SplitOne(line[1..], rest, sofar + [line[0]]);
      assert sofar + [line[0]] + line[1..] == sofar + line;
    }
  }

  /** Splitting undoes joining when no line contains a break of its own. */
  lemma {:induction false} SplitBack(lines: seq<string>)
    requires forall i | 0 <= i < |lines| :: OneLine(lines[i])
    ensures SplitLines(JoinLines(lines)) == lines
    decreases |lines|
  {
    if lines != [] {
      SplitBack(lines[1..]);
      SplitOne(lines[0], JoinLines(lines[1..]), "");
      assert "" + lines[0] == lines[0];
    }
  }

  lemma {:induction false} PartitionAt(a: string, b: string)
    requires ':' !in a
    ensures Partition(a + ":" + b) == (a, b)
    decreases |a|
  {
    var s := a + ":" + b;
    if a == "" {
      assert s == ":" + b && s[1..] == b;
    } else {
      assert s[0] == a[0] && a[0] in a && s[1..] == a[1..] + ":" + b;
      PartitionAt(a[1..], b);
      assert [a[0]] + a[1..] == a;
    }
  }
}
