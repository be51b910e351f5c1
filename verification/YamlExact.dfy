// The other direction: whatever the reader returns is legible, and an empty
// container never survives.  Together: exactly when the round trip holds.

module YamlExact {
  import opened Base
  import opened YamlText
  import opened YamlConfig
  import opened YamlScalars
  import opened YamlLines
  import opened YamlRoundTrip
  import opened YamlCount

  // ---- What characters the reader can produce ----

  /** No character of `s` is a break, and, if `colons` is false, none is a colon. */
  predicate Tame(s: string, colons: bool) { OneLine(s) && (colons || NoColon(s)) }

  lemma TamePart(s: string, i: nat, j: nat, colons: bool)
    requires Tame(s, colons) && i <= j <= |s|
    ensures Tame(s[i..j], colons)
  {
    forall k | 0 <= k < |s[i..j]| ensures !Breaks(s[i..j][k]) { assert s[i..j][k] == s[i + k]; }
  }

  lemma {:induction false} LStripTame(s: string, colons: bool)
    requires Tame(s, colons)
    ensures Tame(LStrip(s), colons)
    decreases |s|
  {
    if s != "" && Space(s[0]) {
      TamePart(s, 1, |s|, colons);
      LStripTame(s[1..], colons);
    }
  }

  lemma {:induction false} RStripTame(s: string, colons: bool)
    requires Tame(s, colons)
    ensures Tame(RStrip(s), colons)
    decreases |s|
  {
    if s != "" && Space(s[|s| - 1]) {
      TamePart(s, 0, |s| - 1, colons);
      RStripTame(s[..|s| - 1], colons);
    }
  }

  lemma StripTame(s: string, colons: bool)
    requires Tame(s, colons)
    ensures Tame(Strip(s), colons)
  {
    LStripTame(s, colons);
    RStripTame(LStrip(s), colons);
  }

  lemma {:induction false} UncommentedTame(m: Scan, s: string)
    requires OneLine(s)
    ensures OneLine(Uncommented(m, s))
    decreases |s|
  {
    if s != "" && !Comment(m, s[0]) {
      TamePart(s, 1, |s|, true);
      UncommentedTame(Step(m, s[0]), s[1..]);
    }
  }

  lemma {:induction false} PartitionTame(s: string)
    requires OneLine(s)
    ensures Tame(Partition(s).0, false) && OneLine(Partition(s).1)
    decreases |s|
  {
    if s != "" {
      TamePart(s, 1, |s|, true);
      if s[0] != ':' { PartitionTame(s[1..]); }
    }
  }

  /** What a scalar of tame text may hold: the escapes add no odd break and no colon. */
  predicate Mild(s: string, colons: bool) { NoOdd(s) && (colons || NoColon(s)) }

  lemma {:induction false} UnescapeMild(s: string, colons: bool)
    requires Tame(s, colons)
    ensures Mild(Unescape(s), colons)
    decreases |s|
  {
    if s == "" {
    } else if s[0] == '\\' && |s| > 1 {
      TamePart(s, 2, |s|, colons);
      UnescapeMild(s[2..], colons);
      assert s[1] in s;
    } else {
      TamePart(s, 1, |s|, colons);
      UnescapeMild(s[1..], colons);
      assert s[0] in s;
    }
  }

  lemma {:induction false} UndoubleMild(s: string, colons: bool)
    requires Tame(s, colons)
    ensures Mild(Undouble(s), colons)
    decreases |s|
  {
    if s == "" {
    } else if |s| > 1 && s[0] == '\'' && s[1] == '\'' {
      TamePart(s, 2, |s|, colons);
      UndoubleMild(s[2..], colons);
    } else {
      TamePart(s, 1, |s|, colons);
      UndoubleMild(s[1..], colons);
      assert s[0] in s;
    }
  }

  lemma ScalarMild(token: string, colons: bool)
    requires Tame(token, colons)
    ensures ParseScalar(token).Txt? ==> Mild(ParseScalar(token).text, colons)
  {
    var t := Strip(token);
    StripTame(token, colons);
    if |t| >= 2 {
      TamePart(t, 1, |t| - 1, colons);
      UnescapeMild(t[1..|t| - 1], colons);
      UndoubleMild(t[1..|t| - 1], colons);
    }
  }

  // ---- What documents the reader can produce ----

  predicate GoodKey(k: string) { NoColon(k) && NoOdd(k) }

  predicate GoodToken(t: Token) { t.Value? ==> Legible(t.doc) }

  predicate GoodRow(r: Row) {
    match r
    case KeyRow(_, k, t) => GoodKey(k) && GoodToken(t)
    case DashRow(_, t) => GoodToken(t)
    case Junk(_) => true
  }

  lemma TokenGood(t: string)
    requires OneLine(t)
    ensures GoodToken(TokenOf(Strip(t)))
  {
    StripTame(t, true);
    ScalarMild(Strip(t), true);
  }

  lemma RowGood(line: string)
    requires OneLine(line)
    ensures GoodRow(RowOf(line))
  {
    var content := Strip(line);
    StripTame(line, true);
    if Dashed(content) {
      TamePart(content, 1, |content|, true);
      TokenGood(content[1..]);
    } else {
      PartitionTame(content);
      ScalarMild(Partition(content).0, false);
      TokenGood(Partition(content).1);
    }
  }

  predicate GoodRows(rows: seq<Row>) { forall i | 0 <= i < |rows| :: GoodRow(rows[i]) }

  predicate LegibleEntries(es: seq<Entry>) { forall i | 0 <= i < |es| :: GoodKey(es[i].key) && Legible(es[i].val) }

  predicate LegibleItems(ds: seq<Doc>) { forall i | 0 <= i < |ds| :: Legible(ds[i]) }

  lemma {:induction false} PutLegible(es: seq<Entry>, k: string, v: Doc)
    requires LegibleEntries(es) && GoodKey(k) && Legible(v)
    ensures LegibleEntries(Put(es, k, v))
    decreases |es|
  {
    if es != [] {
      assert forall i | 0 <= i < |es[1..]| :: es[1..][i] == es[i + 1];
      PutLegible(es[1..], k, v);
    }
  }

  /** Consumed rows, none of them one that a mapping refuses. */
  predicate Clear(rows: seq<Row>, pos: nat, end: nat) { forall i | pos <= i < end && i < |rows| :: !rows[i].Junk? }

  lemma {:induction false} BlockOk(rows: seq<Row>, pos: nat, parent: int)
    requires GoodRows(rows)
    ensures ParseBlock(rows, pos, parent).Got? ==>
              Legible(ParseBlock(rows, pos, parent).value) && Clear(rows, pos, ParseBlock(rows, pos, parent).pos)
    decreases |rows| - pos, 1
  {
    if pos < |rows| && rows[pos].indent > parent {
      if rows[pos].DashRow? {
        SequenceOk(rows, pos, rows[pos].indent, []);
      } else {
        MappingOk(rows, pos, rows[pos].indent, []);
      }
    }
  }

  lemma {:induction false} MappingOk(rows: seq<Row>, pos: nat, indent: nat, acc: seq<Entry>)
    requires GoodRows(rows) && pos <= |rows| && LegibleEntries(acc)
    ensures var r := ParseMapping(rows, pos, indent, acc); r.Got? ==> LegibleEntries(r.value) && Clear(rows, pos, r.pos)
    decreases |rows| - pos, 0
  {
    if pos < |rows| && rows[pos].indent == indent && rows[pos].KeyRow? {
      var row := rows[pos];
      assert GoodRow(row);
      if row.token.Value? {
        PutLegible(acc, row.key, row.token.doc);
        MappingOk(rows, pos + 1, indent, Put(acc, row.key, row.token.doc));
      } else if Deeper(rows, pos + 1, indent) {
        BlockOk(rows, pos + 1, indent);
        var b := ParseBlock(rows, pos + 1, indent);
        if b.Got? {
          PutLegible(acc, row.key, b.value);
          MappingOk(rows, b.pos, indent, Put(acc, row.key, b.value));
        }
      } else {
        PutLegible(acc, row.key, Leaf(Nil));
        MappingOk(rows, pos + 1, indent, Put(acc, row.key, Leaf(Nil)));
      }
    }
  }

  lemma {:induction false} SequenceOk(rows: seq<Row>, pos: nat, indent: nat, acc: seq<Doc>)
    requires GoodRows(rows) && pos <= |rows| && LegibleItems(acc)
    ensures var r := ParseSequence(rows, pos, indent, acc); r.Got? ==> LegibleItems(r.value) && Clear(rows, pos, r.pos)
    decreases |rows| - pos, 0
  {
    if pos < |rows| && rows[pos].indent == indent && rows[pos].DashRow? {
      var row := rows[pos];
      assert GoodRow(row);
      if row.token.Value? {
        SequenceOk(rows, pos + 1, indent, acc + [row.token.doc]);
      } else if Deeper(rows, pos + 1, indent) {
        BlockOk(rows, pos + 1, indent);
        var b := ParseBlock(rows, pos + 1, indent);
        if b.Got? { SequenceOk(rows, b.pos, indent, acc + [b.value]); }
      } else {
        SequenceOk(rows, pos + 1, indent, acc + [Leaf(Nil)]);
      }
    }
  }

  lemma {:induction false} SplitOneLine(text: string, line: string)
    requires OneLine(line)
    ensures forall i | 0 <= i < |SplitFrom(text, line)| :: OneLine(SplitFrom(text, line)[i])
    decreases |text|
  {
    if text == "" {
    } else if text[0] == '\r' && |text| > 1 && text[1] == '\n' {
      SplitOneLine(text[2..], "");
    } else if Breaks(text[0]) {
      SplitOneLine(text[1..], "");
    } else {
      SplitOneLine(text[1..], line + [text[0]]);
    }
  }

  lemma {:induction false} KeptRowsGood(raw: seq<string>)
    requires forall i | 0 <= i < |raw| :: OneLine(raw[i])
    ensures GoodRows(RowsOf(Kept(raw)))
    decreases |raw|
  {
    if raw != [] {
      var line := RStrip(StripComment(raw[0]));
      UncommentedTame(START, raw[0]);
      RStripTame(StripComment(raw[0]), true);
      RowGood(line);
      assert forall i | 0 <= i < |raw[1..]| :: raw[1..][i] == raw[i + 1];
      KeptRowsGood(raw[1..]);
      RowsOne(line);
      RowsAppend([line], Kept(raw[1..]));
      assert [] + Kept(raw[1..]) == Kept(raw[1..]);
    }
  }

  /** Whatever text it is given, a document the reader returns has no colon in a
      key and no odd line break anywhere, and no refused row was passed over. */
  lemma LoadLegible(text: string)
    ensures Load(text).Some? ==> Legible(Load(text).value)
  {
    SplitOneLine(text, "");
    KeptRowsGood(SplitLines(text));
    BlockOk(RowsOf(Kept(SplitLines(text))), 0, -1);
  }

  // ---- Empty containers ----

  predicate HasJunk(rows: seq<Row>) { exists i :: 0 <= i < |rows| && rows[i].Junk? }

  lemma JunkIn(a: seq<Row>, b: seq<Row>)
    ensures HasJunk(a) || HasJunk(b) ==> HasJunk(a + b)
  {
    if i :| 0 <= i < |a| && a[i].Junk? { assert (a + b)[i].Junk?; }
    if i :| 0 <= i < |b| && b[i].Junk? { assert (a + b)[|a| + i].Junk?; }
  }

  lemma {:induction false} EmptyMeansJunk(d: Doc, ind: nat)
    requires Supported(d) && !d.Leaf? && !NonEmpty(d)
    ensures HasJunk(DocRows(d, ind))
    decreases d, 1, 0
  {
    if (d.Map? && d.entries == []) || (d.List? && d.items == []) {
      assert DocRows(d, ind)[0].Junk?;
    } else if d.Map? {
      var i :| 0 <= i < |d.entries| && !NonEmpty(d.entries[i].val);
      EntryJunk(d, 0, i, ind);
    } else {
      var i :| 0 <= i < |d.items| && !NonEmpty(d.items[i]);
      ItemJunk(d, 0, i, ind);
    }
  }

  lemma {:induction false} EntryJunk(d: Doc, j: nat, i: nat, ind: nat)
    requires Supported(d) && d.Map? && j <= i < |d.entries| && !NonEmpty(d.entries[i].val)
    ensures HasJunk(EntryRows(d, j, ind))
    decreases d, 0, |d.entries| - j
  {
    var e := d.entries[j];
    if j == i {
      EmptyMeansJunk(e.val, ind + 1);
      JunkIn([KeyRow(2 * ind, e.key, Nothing)], DocRows(e.val, ind + 1));
    } else {
      EntryJunk(d, j + 1, i, ind);
    }
    JunkIn(EntryPart(e, ind), EntryRows(d, j + 1, ind));
  }

  lemma {:induction false} ItemJunk(d: Doc, j: nat, i: nat, ind: nat)
    requires Supported(d) && d.List? && j <= i < |d.items| && !NonEmpty(d.items[i])
    ensures HasJunk(ItemRows(d, j, ind))
    decreases d, 0, |d.items| - j
  {
    var v := d.items[j];
    if j == i {
      EmptyMeansJunk(v, ind + 1);
      JunkIn([DashRow(2 * ind, Nothing)], DocRows(v, ind + 1));
    } else {
      ItemJunk(d, j + 1, i, ind);
    }
    JunkIn(ItemPart(v, ind), ItemRows(d, j + 1, ind));
  }

  lemma JunkRefused(rows: seq<Row>)
    requires GoodRows(rows) && HasJunk(rows)
    ensures ParseRows(rows) == None
  {
    var i :| 0 <= i < |rows| && rows[i].Junk?;
    BlockOk(rows, 0, -1);
  }

  lemma {:induction false} EmittedRowsGood(lines: seq<string>)
    requires AllSurvive(lines)
    ensures GoodRows(RowsOf(lines))
    decreases |lines|
  {
    if lines != [] {
      assert Survives(lines[0]) && forall i | 0 <= i < |lines[1..]| :: lines[1..][i] == lines[i + 1];
      RowGood(lines[0]);
      EmittedRowsGood(lines[1..]);
    }
  }

  /** Writing and reading back returns the same document exactly when no mapping or
      sequence in it is empty, no key contains a colon, no text contains a line break
      other than newline and carriage return, and, next to a quoted key that ends in
      a backslash, the value's printed text shows the comment scan no comment. */
  lemma RoundTripIff(d: Doc)
    requires d.Map? && Supported(d) && Dictionary(d)
    ensures Load(Dump(d).value) == Some(d) <==> Faithful(d) && Uncut(d)
  {
    if Faithful(d) && Uncut(d) { RoundTrip(d); }
    if Load(Dump(d).value) == Some(d) {
      LoadLegible(Dump(d).value);
      BackIsUncut(d);
      ReadsRows(d);
      EmitSurvives(d, 0);
      EmittedRowsGood(Emit(d, 0));
      EmitRows(d, 0);
      if !NonEmpty(d) {
        EmptyMeansJunk(d, 0);
        JunkRefused(DocRows(d, 0));
      }
    }
  }

  lemma BackIsUncut(d: Doc)
    requires d.Map? && Supported(d) && Legible(d) && Load(Dump(d).value) == Some(d)
    ensures Uncut(d)
  {
    var lines := Emit(d, 0);
    EmitTidy(d, 0);
    forall i | 0 <= i < |lines| ensures OneLine(lines[i]) { assert TidyLine(lines[i]); }
    SplitBack(lines);
    BackMeansUncut(d);
  }

  /** The scan from the open state, read off the value: what is printed without quotes
      is safe, and a quoted text is exactly when its escaped form, followed by the
      closing quote, has no comment for a scan that starts after a closed quote. */
  lemma ValueUncutIff(v: Scalar)
    ensures ValueUncut(Some(v)) <==>
              (v.Txt? && NeedsQuote(v.text) ==> Quiet(Scan(Some('"'), false, false), EscapeText(v.text) + "\""))
  {
    match v
    case Txt(t) =>
      if NeedsQuote(t) {
        assert Quoted(t) == "\"" + (EscapeText(t) + "\"");
        assert Quoted(t)[0] == '"' && Quoted(t)[1..] == EscapeText(t) + "\"";
        assert Step(OPEN, '"') == Scan(Some('"'), false, false);
      } else {
        PlainShape(t);
        NeutralQuiet(OPEN, t);
      }
    case Num(n) =>
      NumberNeutral(n);
      NeutralQuiet(OPEN, FromInt(n));
    case Nil => NeutralQuiet(OPEN, "null");
    case Flag(b) => NeutralQuiet(OPEN, if b then "true" else "false");
  }

  // ---- A document of the cut kind for every such key ----

  /** For every key that is quoted and ends in a backslash there is a document that
      does not survive, faithful otherwise: the comment scan takes the key's closing
      quote for an escaped one, and then the value's text for a comment. */
  lemma OpenKeyLosesText(k: string)
    requires NeedsQuote(k) && k != "" && k[|k| - 1] == '\\' && NoColon(k) && NoOdd(k)
    ensures var d := OpenDoc(k);
            Faithful(d) && Supported(d) && Dictionary(d) && Load(Dump(d).value) == Some(Map([Entry(k, Leaf(Txt("\"x")))]))
  {
    OpenKeyLine(k);
    OpenLineOneLine(k);
    OpenRow(k);
    LoadsOne(Quoted(k) + ": \"x #y\"", k, Leaf(Txt("\"x")));
    OpenFaithful(k, "x #y");
  }

  lemma OpenFaithful(k: string, t: string)
    requires NoColon(k) && NoOdd(k) && NoOdd(t)
    ensures Faithful(Map([Entry(k, Leaf(Txt(t)))])) && Dictionary(Map([Entry(k, Leaf(Txt(t)))]))
  {
  }

  lemma LoadsOne(line: string, k: string, v: Doc)
    requires OneLine(line) && RowsOf(Kept([line])) == [KeyRow(0, k, Value(v))]
    ensures Load(JoinLines([line])) == Some(Map([Entry(k, v)]))
  {
    SplitBack([line]);
    ParsesOne(k, v);
  }

  lemma OpenKeyIsCut(k: string)
    requires NeedsQuote(k) && k != "" && k[|k| - 1] == '\\' && NoColon(k) && NoOdd(k)
    ensures !Uncut(OpenDoc(k))
  {
    OpenKeyLosesText(k);
    RoundTripIff(OpenDoc(k));
    assert |"x #y"| != |"\"x"|;
  }

  function OpenDoc(k: string): Doc { Map([Entry(k, Leaf(Txt("x #y")))]) }

  lemma OpenRow(k: string)
    requires NeedsQuote(k) && k != "" && k[|k| - 1] == '\\' && NoColon(k)
    ensures RowsOf(Kept([Quoted(k) + ": \"x #y\""])) == [KeyRow(0, k, Value(Leaf(Txt("\"x"))))]
  {
    var kept := Quoted(k) + ":" + " \"x";
    CutRow(k, kept);
    OpenKept(k, kept);
    RowsOne(kept);
  }

  lemma OpenKept(k: string, kept: string)
    requires k != "" && k[|k| - 1] == '\\' && kept == Quoted(k) + ":" + " \"x" && Strip(kept) != ""
    ensures Kept([Quoted(k) + ": \"x #y\""]) == [kept]
  {
    OpenLineCut(k);
    RStripCut(k);
    KeptSingle(Quoted(k) + ": \"x #y\"", kept);
  }

  lemma CutRow(k: string, kept: string)
    requires NeedsQuote(k) && NoColon(k) && kept == Quoted(k) + ":" + " \"x"
    ensures RowOf(kept) == KeyRow(0, k, Value(Leaf(Txt("\"x")))) && Strip(kept) != ""
  {
    CutTail();
    TopLine(k, " \"x", TokenOf("\"x"));
  }

  lemma TopLine(k: string, tail: string, token: Token)
    requires NeedsQuote(k) && NoColon(k) && Tail(tail, token)
    ensures var line := Quoted(k) + ":" + tail; RowOf(line) == KeyRow(0, k, token) && Strip(line) != ""
  {
    KeyLine(0, k, tail, token);
    assert Pad(0) + QuoteScalar(k) == Quoted(k);
  }

  lemma OpenKeyLine(k: string)
    requires NeedsQuote(k)
    ensures Supported(OpenDoc(k)) && Dump(OpenDoc(k)) == Some(JoinLines([Quoted(k) + ": \"x #y\""]))
  {
    OpenValue();
    EmitsOne(k, Txt("x #y"));
    var line := Pad(0) + QuoteScalar(k) + ": " + "\"x #y\"";
    assert line == Quoted(k) + ": \"x #y\"";
  }

  lemma OpenValue()
    ensures DumpScalar(Txt("x #y")) == "\"x #y\""
  {
    var t := "x #y";
    assert Special(t[2]);
    assert t[1..] == " #y" && " #y"[1..] == "#y" && "#y"[1..] == "y" && "y"[1..] == "";
    assert EscapeText("y") == "y" && EscapeText("#y") == "#y" && EscapeText(" #y") == " #y";
  }

  lemma EmitsOne(k: string, v: Scalar)
    ensures var d := Map([Entry(k, Leaf(v))]);
            Supported(d) && Dump(d) == Some(JoinLines([Pad(0) + QuoteScalar(k) + ": " + DumpScalar(v)]))
  {
    var d := Map([Entry(k, Leaf(v))]);
    var line := Pad(0) + QuoteScalar(k) + ": " + DumpScalar(v);
    assert EmitEntries(d, 1, 0) == [];
    assert Emit(d, 0) == EmitEntries(d, 0, 0) == [line] + EmitEntries(d, 1, 0);
  }

  /** The scan leaves the key with a quote still open, closes it at the value's
      opening quote, and finds the number sign after a space. */
  lemma OpenLineCut(k: string)
    requires k != "" && k[|k| - 1] == '\\'
    ensures StripComment(Quoted(k) + ": \"x #y\"") == Quoted(k) + ": \"x "
  {
    var m := After(START, Quoted(k));
    QuotedQuiet(START, k);
    NeutralQuiet(m, ": ");
    var m1 := After(m, ": ");
    var m2 := Step(m1, '"');
    assert Quiet(m1, "\"") && After(m1, "\"") == m2 by { assert "\""[1..] == ""; }
    NeutralQuiet(m2, "x ");
    QuietAppend(START, Quoted(k), ": ");
    QuietAppend(START, Quoted(k) + ": ", "\"");
    QuietAppend(START, Quoted(k) + ": " + "\"", "x ");
    var head := Quoted(k) + ": " + "\"" + "x ";
    UncommentedAppend(START, head, "#y\"");
    assert head + "#y\"" == Quoted(k) + ": \"x #y\"";
    assert head == Quoted(k) + ": \"x ";
  }

  lemma OpenLineOneLine(k: string)
    requires NoOdd(k)
    ensures OneLine(Quoted(k) + ": \"x #y\"")
  {
    EscapeOneLine(k);
    JoinOneLine("\"", EscapeText(k));
    JoinOneLine("\"" + EscapeText(k), "\"");
    JoinOneLine(Quoted(k), ": \"x #y\"");
  }

  lemma CutTail()
    ensures Tail(" \"x", TokenOf("\"x")) && TokenOf("\"x") == Value(Leaf(Txt("\"x")))
  {
    assert " \"x"[1..] == "\"x";
    TrimStays("\"x");
  }

  lemma RStripCut(k: string)
    ensures RStrip(Quoted(k) + ": \"x ") == Quoted(k) + ":" + " \"x"
  {
    var s := Quoted(k) + ": \"x ";
    assert s[..|s| - 1] == Quoted(k) + ":" + " \"x";
  }

  lemma KeptSingle(line: string, kept: string)
    requires RStrip(StripComment(line)) == kept && Strip(kept) != ""
    ensures Kept([line]) == [kept]
  {
    assert [line][1..] == [] && Kept([]) == [];
  }

  lemma ParsesOne(k: string, v: Doc)
    ensures ParseRows([KeyRow(0, k, Value(v))]) == Some(Map([Entry(k, v)]))
  {
    var rows := [KeyRow(0, k, Value(v))];
    MapLeaf(rows, 0, 0, [], k, v);
    MapStop(rows, 1, 0, [Entry(k, v)]);
  }
}
