// Each line the writer emits: the cleaning step leaves it alone, and the reader
// sees the row it stands for.

module YamlLines {
  import opened Base
  import opened YamlText
  import opened YamlConfig
  import opened YamlScalars

  predicate NoColon(t: string) { ':' !in t }

  predicate NoOdd(t: string) { forall i | 0 <= i < |t| :: !OddBreak(t[i]) }

  /** A key that the writer quotes does not end in a backslash. */
  predicate Closes(k: string) { NeedsQuote(k) && k != "" ==> k[|k| - 1] != '\\' }

  // ---- Indentation ----

  lemma {:induction false} PadIndent(ind: nat, body: string)
    requires Trim(body)
    ensures IndentOf(Pad(ind) + body) == 2 * ind && LStrip(Pad(ind) + body) == body
    decreases ind
  {
    var s := Pad(ind) + body;
    if ind == 0 {
      assert s == body;
    } else {
      var t := Pad(ind - 1) + body;
      PadIndent(ind - 1, body);
      assert s == "  " + t;
      TwoSpaces(t);
    }
  }

  lemma TwoSpaces(t: string)
    ensures IndentOf("  " + t) == 2 + IndentOf(t) && LStrip("  " + t) == LStrip(t)
  {
    var s := "  " + t;
    assert s[1..] == " " + t && s[1..][1..] == t;
  }

  lemma PadStrip(ind: nat, body: string)
    requires Trim(body)
    ensures IndentOf(Pad(ind) + body) == 2 * ind && Strip(Pad(ind) + body) == body && RStrip(Pad(ind) + body) == Pad(ind) + body
  {
    PadIndent(ind, body);
    TrimStays(body);
    LastStays(Pad(ind), body);
  }

  lemma LastStays(a: string, b: string)
    requires Trim(b)
    ensures RStrip(a + b) == a + b
  {
    assert (a + b)[|a + b| - 1] == b[|b| - 1];
  }

  lemma {:induction false} PadQuiet(ind: nat)
    ensures forall c | c in Pad(ind) :: c == ' '
    decreases ind
  {
    if ind > 0 { PadQuiet(ind - 1); }
  }

  // ---- Keys and tails ----

  lemma KeyToken(k: string)
    ensures Trim(QuoteScalar(k)) && ParseScalar(QuoteScalar(k)) == Txt(k) && QuoteScalar(k)[0] != '-'
    ensures NoColon(k) ==> ':' !in QuoteScalar(k)
  {
    ScalarBack(Txt(k));
    if Plain(k) {
      PlainShape(k);
    } else {
      QuotedTrim(k);
      if NoColon(k) { EscapeNoColon(k); }
    }
  }

  lemma {:induction false} EscapeNoColon(t: string)
    requires ':' !in t
    ensures ':' !in EscapeText(t)
    decreases |t|
  {
    if t != "" {
      assert t[0] in t && forall c | c in t[1..] :: c in t;
      EscapeNoColon(t[1..]);
    }
  }

  /** What may follow a colon or a dash: nothing, or a space and one printed scalar. */
  predicate Tail(tail: string, token: Token) {
    || (tail == "" && token == Nothing)
    || (tail != "" && tail[0] == ' ' && Trim(tail[1..]) && token == TokenOf(tail[1..]))
  }

  lemma ScalarTail(v: Scalar)
    ensures Tail(" " + DumpScalar(v), Value(Leaf(v)))
  {
    ScalarBack(v);
    assert (" " + DumpScalar(v))[1..] == DumpScalar(v);
  }

  lemma TailToken(tail: string, token: Token)
    requires Tail(tail, token)
    ensures TokenOf(Strip(tail)) == token
  {
    if tail == "" {
      assert Strip("") == "";
    } else {
      SpaceAhead(tail[1..]);
      assert tail == " " + tail[1..];
    }
  }

  lemma TailTrim(head: string, tail: string, token: Token)
    requires Trim(head) && Tail(tail, token)
    ensures Trim(head + tail)
  {
    var s := head + tail;
    if tail == "" {
      assert s == head;
    } else {
      assert s[|s| - 1] == tail[1..][|tail[1..]| - 1];
    }
  }

  // ---- The rows ----

  lemma KeyBody(q: string, tail: string, token: Token)
    requires Trim(q) && q[0] != '-' && ':' !in q && Tail(tail, token)
    ensures var body := q + ":" + tail; Trim(body) && !Dashed(body) && ':' in body && Partition(body) == (q, tail)
  {
    var body := q + ":" + tail;
    ColonTrim(q);
    TailTrim(q + ":", tail, token);
    assert body[0] == q[0] && body[|q|] == ':';
    PartitionAt(q, tail);
  }

  lemma ColonTrim(q: string)
    requires Trim(q)
    ensures Trim(q + ":")
  {
  }

  /** The line of one mapping entry. */
  lemma KeyLine(ind: nat, k: string, tail: string, token: Token)
    requires NoColon(k) && Tail(tail, token)
    ensures RowOf(Pad(ind) + QuoteScalar(k) + ":" + tail) == KeyRow(2 * ind, k, token)
    ensures var line := Pad(ind) + QuoteScalar(k) + ":" + tail; RStrip(line) == line && Strip(line) != ""
  {
    var q := QuoteScalar(k);
    var body := q + ":" + tail;
    KeyToken(k);
    KeyBody(q, tail, token);
    PadStrip(ind, body);
    TailToken(tail, token);
    assert Pad(ind) + q + ":" + tail == Pad(ind) + body;
    KeyRead(Pad(ind) + body, 2 * ind, q, tail, token, k);
  }

  lemma KeyRead(line: string, indent: nat, q: string, tail: string, token: Token, k: string)
    requires IndentOf(line) == indent && Strip(line) == q + ":" + tail
    requires !Dashed(q + ":" + tail) && ':' in q + ":" + tail && Partition(q + ":" + tail) == (q, tail)
    requires ParseScalar(q) == Txt(k) && TokenOf(Strip(tail)) == token
    ensures RowOf(line) == KeyRow(indent, k, token)
  {
  }

  /** The line of one sequence item. */
  lemma DashLine(ind: nat, tail: string, token: Token)
    requires Tail(tail, token)
    ensures RowOf(Pad(ind) + "-" + tail) == DashRow(2 * ind, token)
    ensures var line := Pad(ind) + "-" + tail; RStrip(line) == line && Strip(line) != ""
  {
    var body := "-" + tail;
    TailTrim("-", tail, token);
    PadStrip(ind, body);
    TailToken(tail, token);
    assert Pad(ind) + "-" + tail == Pad(ind) + body;
    DashBody(tail, token);
    DashRead(Pad(ind) + body, 2 * ind, tail, token);
  }

  lemma DashBody(tail: string, token: Token)
    requires Tail(tail, token)
    ensures Dashed("-" + tail) && ("-" + tail)[1..] == tail
  {
    var body := "-" + tail;
    if tail == "" {
      assert body == "-";
    } else {
      assert body[..2] == "- ";
    }
  }

  lemma DashRead(line: string, indent: nat, tail: string, token: Token)
    requires IndentOf(line) == indent && Strip(line) == "-" + tail
    requires Dashed("-" + tail) && ("-" + tail)[1..] == tail && TokenOf(Strip(tail)) == token
    ensures RowOf(line) == DashRow(indent, token)
  {
  }

  /** The line of an empty container is one no mapping accepts. */
  lemma BracesLine(ind: nat, braces: string)
    requires braces == "{}" || braces == "[]"
    ensures RowOf(Pad(ind) + braces) == Junk(2 * ind)
    ensures RStrip(Pad(ind) + braces) == Pad(ind) + braces && Strip(Pad(ind) + braces) != ""
  {
    PadStrip(ind, braces);
    assert !Dashed(braces) && ':' !in braces;
  }

  // ---- Comments and line breaks ----

  /** The cleaning step keeps the line, and splitting does not break it. */
  predicate Survives(line: string) { OneLine(line) && RStrip(StripComment(line)) == line && Strip(line) != "" }

  /** The same, as far as comments do not matter. */
  predicate TidyLine(line: string) { OneLine(line) && RStrip(line) == line && Strip(line) != "" }

  lemma TidySurvives(line: string)
    requires TidyLine(line) && Quiet(START, line)
    ensures Survives(line)
  {
    QuietKept(line);
  }

  lemma {:induction false} EscapeOneLine(t: string)
    requires NoOdd(t)
    ensures OneLine(EscapeText(t))
    decreases |t|
  {
    if t != "" {
      assert !OddBreak(t[0]) && forall i | 0 <= i < |t[1..]| :: t[1..][i] == t[i + 1];
      EscapeOneLine(t[1..]);
    }
  }

  predicate LegibleScalar(v: Scalar) { v.Txt? ==> NoOdd(v.text) }

  lemma ScalarOneLine(v: Scalar)
    requires LegibleScalar(v)
    ensures OneLine(DumpScalar(v))
  {
    match v
    case Txt(t) => if Plain(t) { PlainOneLine(t); } else { EscapeOneLine(t); }
    case Num(n) => NumberOneLine(n);
    case _ =>
  }

  lemma PlainOneLine(t: string)
    requires Plain(t) && NoOdd(t)
    ensures OneLine(t)
  {
    PlainShape(t);
  }

  lemma NumberOneLine(n: int)
    ensures OneLine(FromInt(n))
  {
    NumberNeutral(n);
    forall i | 0 <= i < |FromInt(n)| ensures !Breaks(FromInt(n)[i]) { assert FromInt(n)[i] in FromInt(n); }
  }

  lemma {:induction false} PadOneLine(ind: nat, body: string)
    requires OneLine(body)
    ensures OneLine(Pad(ind) + body)
  {
    PadQuiet(ind);
    var s := Pad(ind) + body;
    forall i | 0 <= i < |s| ensures !Breaks(s[i]) {
      if i < |Pad(ind)| { assert s[i] in Pad(ind); } else { assert s[i] == body[i - |Pad(ind)|]; }
    }
  }

  lemma JoinOneLine(a: string, b: string)
    requires OneLine(a) && OneLine(b)
    ensures OneLine(a + b)
  {
  }

  lemma KeyQuiet(m: Scan, k: string)
    requires Closes(k) && !m.single && !m.double
    ensures Quiet(m, QuoteScalar(k)) && !After(m, QuoteScalar(k)).single && !After(m, QuoteScalar(k)).double
  {
    if Plain(k) {
      PlainShape(k);
      NeutralQuiet(m, k);
    } else {
      QuotedQuiet(m, k);
    }
  }

  /** Spaces, dashes and colons leave the scan where it was. */
  lemma PunctuationQuiet(m: Scan, s: string)
    requires !m.single && !m.double && forall c | c in s :: c == ' ' || c == '-' || c == ':'
    ensures Quiet(m, s) && !After(m, s).single && !After(m, s).double
  {
    NeutralQuiet(m, s);
  }

  /** A line prefix after which no quote is open. */
  predicate Closed(head: string) { Quiet(START, head) && !After(START, head).single && !After(START, head).double }

  lemma ClosedKey(ind: nat, k: string)
    requires Closes(k)
    ensures Closed(Pad(ind) + QuoteScalar(k) + ":")
  {
    var q := QuoteScalar(k);
    PadQuiet(ind);
    PunctuationQuiet(START, Pad(ind));
    KeyQuiet(After(START, Pad(ind)), k);
    QuietAppend(START, Pad(ind), q);
    PunctuationQuiet(After(START, Pad(ind) + q), ":");
    QuietAppend(START, Pad(ind) + q, ":");
  }

  lemma ClosedDash(ind: nat)
    ensures Closed(Pad(ind) + "-")
  {
    PadQuiet(ind);
    PunctuationQuiet(START, Pad(ind) + "-");
  }

  /** A closed prefix followed by nothing, or by one scalar, has no comment. */
  lemma ClosedQuiet(head: string, v: Option<Scalar>)
    requires Closed(head)
    ensures Quiet(START, head + TailOf(v))
  {
    if v.Some? {
      var m := After(START, head);
      PunctuationQuiet(m, " ");
      ScalarQuiet(After(m, " "), v.value);
      QuietAppend(m, " ", DumpScalar(v.value));
      QuietAppend(START, head, " " + DumpScalar(v.value));
    } else {
      assert head + "" == head;
    }
  }

  // A quoted key that ends in a backslash leaves the scan's quotes open.

  /** What the scan remembers when it comes to the value after such a key. */
  const OPEN: Scan := Scan(Some(' '), false, true)

  /** No comment is seen in the value's printed text from there. */
  predicate ValueUncut(v: Option<Scalar>) { v.Some? ==> Quiet(OPEN, DumpScalar(v.value)) }

  lemma OpenHead(ind: nat, k: string)
    requires !Closes(k)
    ensures var head := Pad(ind) + QuoteScalar(k) + ":";
            Quiet(START, head) && After(START, head).double && !After(START, head).single
  {
    var q := Quoted(k);
    PadQuiet(ind);
    PunctuationQuiet(START, Pad(ind));
    QuotedQuiet(After(START, Pad(ind)), k);
    QuietAppend(START, Pad(ind), q);
    NeutralQuiet(After(START, Pad(ind) + q), ":");
    QuietAppend(START, Pad(ind) + q, ":");
  }

  lemma OpenQuiet(ind: nat, k: string, v: Option<Scalar>)
    requires !Closes(k)
    ensures Quiet(START, Pad(ind) + QuoteScalar(k) + ":" + TailOf(v)) <==> ValueUncut(v)
  {
    var head := Pad(ind) + QuoteScalar(k) + ":";
    OpenHead(ind, k);
    if v.Some? {
      var m := After(START, head);
      NeutralQuiet(m, " ");
      assert " "[1..] == "" && After(m, " ") == Step(m, ' ') == OPEN;
      QuietAppend(m, " ", DumpScalar(v.value));
      QuietAppend(START, head, " " + DumpScalar(v.value));
    } else {
      assert head + "" == head;
    }
  }

  /** The line of an entry is free of comments exactly when its key's quotes are
      seen closed or its value has none from the open state. */
  lemma KeyLineQuiet(ind: nat, k: string, v: Option<Scalar>)
    ensures Quiet(START, Pad(ind) + QuoteScalar(k) + ":" + TailOf(v)) <==> Closes(k) || ValueUncut(v)
  {
    if Closes(k) {
      ClosedKey(ind, k);
      ClosedQuiet(Pad(ind) + QuoteScalar(k) + ":", v);
    } else {
      OpenQuiet(ind, k, v);
    }
  }

  lemma DashLineQuiet(ind: nat, v: Option<Scalar>)
    ensures Quiet(START, Pad(ind) + "-" + TailOf(v))
  {
    ClosedDash(ind);
    ClosedQuiet(Pad(ind) + "-", v);
  }

  function TailOf(v: Option<Scalar>): string { if v.Some? then " " + DumpScalar(v.value) else "" }

  function TokenFor(v: Option<Scalar>): Token { if v.Some? then Value(Leaf(v.value)) else Nothing }

  lemma TailOk(v: Option<Scalar>)
    requires v.Some? ==> LegibleScalar(v.value)
    ensures Tail(TailOf(v), TokenFor(v)) && OneLine(TailOf(v))
  {
    if v.Some? {
      ScalarTail(v.value);
      ScalarOneLine(v.value);
      JoinOneLine(" ", DumpScalar(v.value));
    }
  }

  lemma KeyLineTidy(ind: nat, k: string, v: Option<Scalar>)
    requires NoColon(k) && NoOdd(k) && (v.Some? ==> LegibleScalar(v.value))
    ensures TidyLine(Pad(ind) + QuoteScalar(k) + ":" + TailOf(v))
  {
    TailOk(v);
    KeyLine(ind, k, TailOf(v), TokenFor(v));
    ScalarOneLine(Txt(k));
    PadOneLine(ind, QuoteScalar(k));
    JoinOneLine(Pad(ind) + QuoteScalar(k), ":");
    JoinOneLine(Pad(ind) + QuoteScalar(k) + ":", TailOf(v));
  }

  lemma DashLineTidy(ind: nat, v: Option<Scalar>)
    requires v.Some? ==> LegibleScalar(v.value)
    ensures TidyLine(Pad(ind) + "-" + TailOf(v))
  {
    TailOk(v);
    DashLine(ind, TailOf(v), TokenFor(v));
    PadOneLine(ind, "-");
    JoinOneLine(Pad(ind) + "-", TailOf(v));
  }

  lemma BracesTidy(ind: nat, braces: string)
    requires braces == "{}" || braces == "[]"
    ensures TidyLine(Pad(ind) + braces) && Quiet(START, Pad(ind) + braces)
  {
    BracesLine(ind, braces);
    PadQuiet(ind);
    NeutralQuiet(START, Pad(ind) + braces);
    PadOneLine(ind, braces);
  }
}
