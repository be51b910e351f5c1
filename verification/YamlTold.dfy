// The restricted YAML subset told by its characters: what is trimmed, where lines and
// comments end, which texts are quoted, and what each printed word is read as.

module YamlTold {
  import opened Base
  import opened YamlText
  import opened YamlScalars
  import opened YamlConfig

  // ---- White space ----

  /** The code points for which `str.isspace` holds. */
  lemma SpaceTable(c: char)
    ensures Space(c) <==>
              c as int in {9, 10, 11, 12, 13, 28, 29, 30, 31, 32, 0x85, 0xA0, 0x1680, 0x2000, 0x2001, 0x2002, 0x2003, 0x2004, 0x2005,
                           0x2006, 0x2007, 0x2008, 0x2009, 0x200A, 0x2028, 0x2029, 0x202F, 0x205F, 0x3000}
  {
  }

  /** The code points at which `str.splitlines` splits. */
  lemma BreakTable(c: char)
    ensures Breaks(c) <==> c as int in {10, 11, 12, 13, 28, 29, 30, 0x85, 0x2028, 0x2029}
  {
  }

  ghost predicate AllSpace(s: string) { forall i | 0 <= i < |s| :: Space(s[i]) }

  lemma {:induction false} LStripIs(s: string) returns (a: string)
    ensures s == a + LStrip(s) && AllSpace(a) && (LStrip(s) != "" ==> !Space(LStrip(s)[0]))
    decreases |s|
  {
    a := "";
    if s != "" && Space(s[0]) {
      var b := LStripIs(s[1..]);
      a := [s[0]] + b;
    }
  }

  lemma {:induction false} RStripIs(s: string) returns (b: string)
    ensures s == RStrip(s) + b && AllSpace(b) && (RStrip(s) != "" ==> !Space(RStrip(s)[|RStrip(s)| - 1]))
    decreases |s|
  {
    b := "";
    if s != "" && Space(s[|s| - 1]) {
      var a := RStripIs(s[..|s| - 1]);
      b := a + [s[|s| - 1]];
      assert s == s[..|s| - 1] + [s[|s| - 1]];
    }
  }

  /** Stripping takes white space from both ends, and all of it. */
  lemma StripIs(s: string) returns (a: string, b: string)
    ensures s == a + Strip(s) + b && AllSpace(a) && AllSpace(b)
    ensures Strip(s) != "" ==> !Space(Strip(s)[0]) && !Space(Strip(s)[|Strip(s)| - 1])
  {
    a := LStripIs(s);
    b := RStripIs(LStrip(s));
    if Strip(s) != "" { assert LStrip(s)[0] == Strip(s)[0]; }
  }

  /** The indentation of a line: its leading blanks, tabs not counted. */
  lemma {:induction false} IndentIs(line: string)
    ensures var n := IndentOf(line);
            n <= |line| && (forall i | 0 <= i < n :: line[i] == ' ') && (n < |line| ==> line[n] != ' ')
    decreases |line|
  {
    if line != "" && line[0] == ' ' { IndentIs(line[1..]); }
  }

  // ---- Lines ----

  ghost predicate OneLine(s: string) { forall i | 0 <= i < |s| :: !Breaks(s[i]) }

  lemma {:induction false} SplitAt(a: string, c: char, b: string, sofar: string)
    requires OneLine(a) && Breaks(c)
    ensures var rest := if c == '\r' && b != "" && b[0] == '\n' then b[1..] else b;
            SplitFrom(a + [c] + b, sofar) == [sofar + a] + SplitFrom(rest, "")
    decreases |a|
  {
    var text := a + [c] + b;
    if a == "" {
      assert text == [c] + b && sofar + a == sofar;
      if c == '\r' && b != "" && b[0] == '\n' { assert text[2..] == b[1..]; } else { assert text[1..] == b; }
    } else {
      assert text[1..] == a[1..] + [c] + b;
      assert !Breaks(text[0]);
      assert OneLine(a[1..]) by { assert forall i | 0 <= i < |a[1..]| :: a[1..][i] == a[i + 1]; }
      SplitAt(a[1..], c, b, sofar + [a[0]]);
      assert sofar + [a[0]] + a[1..] == sofar + a;
    }
  }

  /** The first line ends at the first break, a carriage return and a newline counting as
      one; text without a break is one line, and no text is none. */
  lemma SplitIs(a: string, c: char, b: string)
    requires OneLine(a)
    ensures SplitLines(a) == if a == "" then [] else [a]
    ensures Breaks(c) ==>
              var rest := if c == '\r' && b != "" && b[0] == '\n' then b[1..] else b;
              SplitLines(a + [c] + b) == [a] + SplitLines(rest)
  {
    assert "" + a == a;
    SplitWhole(a, "");
    if Breaks(c) { SplitAt(a, c, b, ""); }
  }

  lemma {:induction false} SplitWhole(a: string, sofar: string)
    requires OneLine(a)
    ensures SplitFrom(a, sofar) == if sofar + a == "" then [] else [sofar + a]
    decreases |a|
  {
    if a == "" {
      assert sofar + a == sofar;
    } else {
      assert !Breaks(a[0]);
      assert OneLine(a[1..]) by { assert forall i | 0 <= i < |a[1..]| :: a[1..][i] == a[i + 1]; }
      SplitWhole(a[1..], sofar + [a[0]]);
      assert sofar + [a[0]] + a[1..] == sofar + a;
    }
  }

  // ---- Comments ----

  /** A number sign at the start or after a blank or a tab. */
  ghost predicate Sign(line: string, k: nat) { k < |line| && line[k] == '#' && (k == 0 || line[k - 1] == ' ' || line[k - 1] == '\t') }

  ghost predicate NoQuote(s: string) { forall i | 0 <= i < |s| :: s[i] != '\'' && s[i] != '"' }

  lemma {:induction false} UnquotedFrom(line: string, j: nat, m: Scan) returns (k: nat)
    requires j <= |line| && !m.single && !m.double && NoQuote(line)
    requires if j == 0 then m.prev == None else m.prev == Some(line[j - 1])
    ensures j <= k <= |line| && Uncommented(m, line[j..]) == line[j..k]
    ensures (k < |line| ==> Sign(line, k)) && forall i | j <= i < k :: !Sign(line, i)
    decreases |line| - j
  {
    k := j;
    if j < |line| && !Sign(line, j) {
      assert line[j..][0] == line[j] && line[j..][1..] == line[j + 1..];
      k := UnquotedFrom(line, j + 1, Step(m, line[j]));
      assert line[j..k] == [line[j]] + line[j + 1..k];
    }
  }

  /** Outside quotes a comment starts at the first such number sign. */
  lemma CommentIs(line: string) returns (k: nat)
    requires NoQuote(line)
    ensures k <= |line| && StripComment(line) == line[..k]
    ensures (k < |line| ==> Sign(line, k)) && forall i | 0 <= i < k :: !Sign(line, i)
  {
    k := UnquotedFrom(line, 0, START);
    assert line[0..] == line && line[0..k] == line[..k];
  }

  lemma {:induction false} SingleFrom(m: Scan, body: string, rest: string)
    requires m.single && !m.double && forall i | 0 <= i < |body| :: body[i] != '\''
    ensures Uncommented(m, body + "'" + rest) == body + "'" + Uncommented(Scan(Some('\''), false, false), rest)
    decreases |body|
  {
    var s := body + "'" + rest;
    if body == "" {
      assert s == "'" + rest && s[1..] == rest;
    } else {
      assert s[1..] == body[1..] + "'" + rest;
      SingleFrom(Step(m, body[0]), body[1..], rest);
    }
  }

  /** Between single quotes nothing is a comment. */
  lemma SingleQuotesShield(body: string, rest: string)
    requires forall i | 0 <= i < |body| :: body[i] != '\''
    ensures StripComment("'" + body + "'" + rest) == "'" + body + "'" + Uncommented(Scan(Some('\''), false, false), rest)
  {
    var s := "'" + body + "'" + rest;
    assert s[1..] == body + "'" + rest;
    SingleFrom(Step(START, '\''), body, rest);
  }

  // ---- Scalars as they are read ----

  /** The words that are no text: null, true and false, each in three spellings; quoted
      texts; decimal integers; and everything else is the trimmed text itself. */
  lemma ReadIff(token: string)
    ensures var (t, v) := (Strip(token), ParseScalar(token));
            var quoted := |t| >= 2 && t[0] == t[|t| - 1] && (t[0] == '"' || t[0] == '\'');
            && (v == Nil <==> t in {"", "~", "null", "Null", "NULL"})
            && (v == Flag(true) <==> t in {"true", "True", "TRUE"})
            && (v == Flag(false) <==> t in {"false", "False", "FALSE"})
            && (v.Num? <==> IntText(t))
            && (v.Txt? && !quoted ==> v.text == t)
            && (quoted ==> v.Txt?)
  {
    var t := Strip(token);
    if IntText(t) { NumberIsNoWord(t); }
  }

  /** Each apostrophe doubled. */
  function Doubled(t: string): string {
    if t == "" then "" else (if t[0] == '\'' then "''" else [t[0]]) + Doubled(t[1..])
  }

  lemma {:induction false} UndoubleBack(t: string)
    ensures Undouble(Doubled(t)) == t
    decreases |t|
  {
    if t != "" {
      UndoubleBack(t[1..]);
      var d := Doubled(t);
      if t[0] == '\'' {
        assert d[2..] == Doubled(t[1..]);
        assert t == "'" + t[1..];
      } else {
        assert d[0] == t[0] && d[1..] == Doubled(t[1..]);
        assert t == [t[0]] + t[1..];
      }
    }
  }

  /** Any text between single quotes, its apostrophes doubled, is read as that text. */
  lemma SingleQuotedRead(t: string)
    ensures ParseScalar("'" + Doubled(t) + "'") == Txt(t)
  {
    var s := "'" + Doubled(t) + "'";
    assert Trim(s);
    TrimStays(s);
    assert s[1..|s| - 1] == Doubled(t);
    UndoubleBack(t);
  }

  /** The escapes between double quotes: four letters stand for control characters, any
      other escaped character for itself, and a lone backslash at the end stays. */
  lemma EscapesRead(c: char, rest: string)
    ensures Unescape("\\" + [c] + rest) ==
            [if c == 'n' then '\U{0A}' else if c == 'r' then '\U{0D}' else if c == 't' then '\U{09}' else if c == '0' then '\U{00}' else c] + Unescape(rest)
    ensures c != '\\' ==> Unescape([c] + rest) == [c] + Unescape(rest)
    ensures Unescape("\\") == "\\"
  {
    var s := "\\" + [c] + rest;
    assert s[0] == '\\' && s[1] == c && s[2..] == rest;
    assert ([c] + rest)[1..] == rest;
  }

  // ---- Texts as they are written ----

  const MARKS := ":#{}[],&*!|>'\"%@`"

  /** No mark and no tab or line character in it. */
  ghost predicate NoMarks(t: string) { forall i | 0 <= i < |t| :: t[i] !in MARKS && t[i] as int != 9 && t[i] as int != 10 && t[i] as int != 13 }

  lemma NoMarksIff(t: string)
    ensures NoMarks(t) <==> !exists i | 0 <= i < |t| :: Special(t[i]) || Escaped(t[i])
  {
    forall i | 0 <= i < |t| ensures t[i] in MARKS <==> Special(t[i]) { MarkIff(t[i]); }
  }

  /** A text is written without quotes exactly when it cannot be taken for anything else:
      not empty, no number, none of the three words in any spelling, no tilde, trimmed, no
      dash or question mark in front, and none of the marks or line characters in it. */
  lemma PlainIff(t: string)
    ensures QuoteScalar(t) == t <==>
              && t != "" && !IntText(t) && LowerAll(t) != "true" && LowerAll(t) != "false" && LowerAll(t) != "null" && t != "~"
              && Strip(t) == t && t[0] != '-' && t[0] != '?' && NoMarks(t)
    ensures QuoteScalar(t) != t ==> QuoteScalar(t) == "\"" + EscapeText(t) + "\""
  {
    NoMarksIff(t);
    if NeedsQuote(t) { QuotedDiffers(t); }
  }

  lemma MarkIff(c: char)
    ensures c in MARKS <==> Special(c)
  {
    assert MARKS == [':', '#', '{', '}', '[', ']', ',', '&', '*', '!', '|', '>', '\'', '"', '%', '@', '`'];
    if Special(c) {
      assert MARKS[0] == ':' && MARKS[1] == '#' && MARKS[2] == '{' && MARKS[3] == '}' && MARKS[4] == '[' && MARKS[5] == ']';
      assert MARKS[6] == ',' && MARKS[7] == '&' && MARKS[8] == '*' && MARKS[9] == '!' && MARKS[10] == '|' && MARKS[11] == '>';
      assert MARKS[12] == '\'' && MARKS[13] == '"' && MARKS[14] == '%' && MARKS[15] == '@' && MARKS[16] == '`';
    }
  }

  lemma {:induction false} EscapeLonger(t: string)
    ensures |EscapeText(t)| >= |t|
    decreases |t|
  {
    if t != "" { EscapeLonger(t[1..]); }
  }

  lemma QuotedDiffers(t: string)
    ensures Quoted(t) != t
  {
    EscapeLonger(t);
    assert |Quoted(t)| == |EscapeText(t)| + 2;
  }

  /** What each character becomes between double quotes. */
  lemma EscapedAs(c: char)
    ensures EscapeChar(c) == if c as int == 0x5C then "\\\\" else if c as int == 0x22 then "\\\"" else if c as int == 0x0A then "\\n"
                             else if c as int == 0x0D then "\\r" else if c as int == 0x09 then "\\t" else [c]
  {
  }

  // ---- A document as it is written ----

  /** The lines of one entry and one item: colon and blank, dash and blank, containers on
      the lines below, one level in; empty containers as a pair of braces or brackets. */
  lemma LineForms(k: string, v: Scalar, d: Doc)
    requires !d.Leaf? && Supported(d)
    ensures Supported(Map([Entry(k, Leaf(v))])) && Emit(Map([Entry(k, Leaf(v))]), 0) == [QuoteScalar(k) + ": " + DumpScalar(v)]
    ensures Supported(List([Leaf(v)])) && Emit(List([Leaf(v)]), 0) == ["- " + DumpScalar(v)]
    ensures Supported(Map([Entry(k, d)])) && Emit(Map([Entry(k, d)]), 0) == [QuoteScalar(k) + ":"] + Emit(d, 1)
    ensures Supported(List([d])) && Emit(List([d]), 0) == ["-"] + Emit(d, 1)
    ensures Emit(Map([]), 0) == ["{}"] && Emit(List([]), 0) == ["[]"]
  {
    assert Pad(0) == "" && "" + QuoteScalar(k) == QuoteScalar(k) && "" + "- " == "- " && "" + "-" == "-";
    assert Pad(0) + "{}" == "{}" && Pad(0) + "[]" == "[]";
    OneEntry(k, Leaf(v));
    OneEntry(k, d);
    OneItem(Leaf(v));
    OneItem(d);
  }

  lemma OneEntry(k: string, d: Doc)
    requires Supported(d)
    ensures var m := Map([Entry(k, d)]);
            Supported(m) && EmitEntries(m, 1, 0) == []
            && Emit(m, 0) == if d.Leaf? then ["" + QuoteScalar(k) + ": " + DumpScalar(d.scalar)] else ["" + QuoteScalar(k) + ":"] + Emit(d, 1)
  {
    var m := Map([Entry(k, d)]);
    assert m.entries[0] == Entry(k, d) && Pad(0) == "";
    assert Supported(m);
    assert EmitEntries(m, 1, 0) == [];
  }

  lemma OneItem(d: Doc)
    requires Supported(d)
    ensures var l := List([d]);
            Supported(l) && EmitItems(l, 1, 0) == []
            && Emit(l, 0) == if d.Leaf? then ["" + "- " + DumpScalar(d.scalar)] else ["" + "-"] + Emit(d, 1)
  {
    var l := List([d]);
    assert l.items[0] == d && Pad(0) == "";
    assert Supported(l);
    assert EmitItems(l, 1, 0) == [];
  }

  // ---- What the reader makes of odd documents ----

  /** A repeated key keeps its first place and takes the last value; a new one goes to the end. */
  lemma {:induction false} PutIs(es: seq<Entry>, key: string, val: Doc) returns (i: nat)
    ensures i <= |es| && forall j | 0 <= j < i :: es[j].key != key
    ensures Put(es, key, val) == if i < |es| then es[i := Entry(key, val)] else es + [Entry(key, val)]
    ensures i < |es| ==> es[i].key == key
    decreases |es|
  {
    i := 0;
    if es != [] && es[0].key != key {
      var k := PutIs(es[1..], key, val);
      i := k + 1;
      assert forall j | 0 < j < |es| :: es[j] == es[1..][j - 1];
      assert es == [es[0]] + es[1..];
    }
  }

  lemma MapAlone(rows: seq<Row>, n: nat, k: string, token: Token)
    requires rows != [] && rows[0] == KeyRow(n, k, token) && (token == Nothing || token == Value(Leaf(Nil)))
    requires |rows| == 1 || (rows[1].indent <= n && (rows[1].indent != n || rows[1].DashRow?))
    ensures ParseBlock(rows, 0, -1) == Got(Map([Entry(k, Leaf(Nil))]), 1)
  {
    assert Put([], k, Leaf(Nil)) == [Entry(k, Leaf(Nil))];
    assert ParseMapping(rows, 1, n, [Entry(k, Leaf(Nil))]) == Got([Entry(k, Leaf(Nil))], 1);
    assert !Deeper(rows, 1, n);
    assert ParseMapping(rows, 0, n, []) == Got([Entry(k, Leaf(Nil))], 1);
  }

  lemma ListAlone(rows: seq<Row>, n: nat, token: Token)
    requires rows != [] && rows[0] == DashRow(n, token) && (token == Nothing || token == Value(Leaf(Nil)))
    requires |rows| == 1 || (rows[1].indent <= n && (rows[1].indent != n || !rows[1].DashRow?))
    ensures ParseBlock(rows, 0, -1) == Got(List([Leaf(Nil)]), 1)
  {
    assert [] + [Leaf(Nil)] == [Leaf(Nil)];
    assert ParseSequence(rows, 1, n, [Leaf(Nil)]) == Got([Leaf(Nil)], 1);
    assert !Deeper(rows, 1, n);
    assert ParseSequence(rows, 0, n, []) == Got([Leaf(Nil)], 1);
  }

  /** No line at all is an empty mapping; a key or a dash with nothing after it is null. */
  lemma LoneLines(k: string, n: nat)
    ensures ParseRows([]) == Some(Map([]))
    ensures ParseRows([KeyRow(n, k, Nothing)]) == Some(Map([Entry(k, Leaf(Nil))]))
    ensures ParseRows([DashRow(n, Nothing)]) == Some(List([Leaf(Nil)]))
  {
    MapAlone([KeyRow(n, k, Nothing)], n, k, Nothing);
    ListAlone([DashRow(n, Nothing)], n, Nothing);
  }

  /** A line that is neither key nor dash is refused, and so is whatever the first block
      leaves over: a line further out, or of the other kind. */
  lemma LeftOverRefused(k: string, n: nat, next: Row)
    ensures ParseRows([Junk(n)]) == None
    ensures next.indent < n || (next.indent == n && next.DashRow?) ==> ParseRows([KeyRow(n, k, Value(Leaf(Nil))), next]) == None
    ensures next.indent < n || (next.indent == n && !next.DashRow?) ==> ParseRows([DashRow(n, Value(Leaf(Nil))), next]) == None
  {
    var junk := [Junk(n)];
    assert ParseMapping(junk, 0, n, []) == Bad;
    assert ParseBlock(junk, 0, -1) == Bad;
    if next.indent < n || (next.indent == n && next.DashRow?) {
      MapAlone([KeyRow(n, k, Value(Leaf(Nil))), next], n, k, Value(Leaf(Nil)));
    }
    if next.indent < n || (next.indent == n && !next.DashRow?) {
      ListAlone([DashRow(n, Value(Leaf(Nil))), next], n, Value(Leaf(Nil)));
    }
  }

  /** Blank and comment lines do not count. */
  lemma {:induction false} BlanksDropped(a: seq<string>, blank: string, b: seq<string>)
    requires Strip(RStrip(StripComment(blank))) == ""
    ensures Kept(a + [blank] + b) == Kept(a) + Kept(b)
    decreases |a|
  {
    if a == [] {
      assert (a + [blank] + b)[1..] == b && (a + [blank] + b)[0] == blank;
    } else {
      assert (a + [blank] + b)[1..] == a[1..] + [blank] + b && (a + [blank] + b)[0] == a[0];
      BlanksDropped(a[1..], blank, b);
    }
  }

  /** Braces and brackets are empty containers, and no token at all may open a block. */
  lemma TokenIff(t: string)
    ensures TokenOf(t) == Value(Map([])) <==> t == "{}"
    ensures TokenOf(t) == Value(List([])) <==> t == "[]"
    ensures TokenOf(t) == Nothing <==> t == ""
    ensures t !in {"", "{}", "[]"} ==> TokenOf(t) == Value(Leaf(ParseScalar(t)))
  {
  }
}
