// Number signs are never made: not by writing, not by reading.  So a document that
// comes back has lost none of them to the comment scan.

module YamlCount {
  import opened Base
  import opened YamlText
  import opened YamlConfig
  import opened YamlScalars
  import opened YamlLines
  import opened YamlRoundTrip

  // ---- In text ----

  function Hashes(s: string): nat { if s == "" then 0 else (if s[0] == '#' then 1 else 0) + Hashes(s[1..]) }

  lemma {:induction false} HashesAppend(a: string, b: string)
    ensures Hashes(a + b) == Hashes(a) + Hashes(b)
    decreases |a|
  {
    if a == "" {
      assert a + b == b;
    } else {
      assert (a + b)[0] == a[0] && (a + b)[1..] == a[1..] + b;
      HashesAppend(a[1..], b);
    }
  }

  lemma HashesPart(s: string, i: nat, j: nat)
    requires i <= j <= |s|
    ensures Hashes(s[i..j]) <= Hashes(s)
  {
    HashesAppend(s[..i], s[i..]);
    HashesAppend(s[i..j], s[j..]);
    assert s[..i] + s[i..] == s && s[i..j] + s[j..] == s[i..];
  }

  lemma {:induction false} NoHashes(s: string)
    requires '#' !in s
    ensures Hashes(s) == 0
    decreases |s|
  {
    if s != "" {
      assert s[0] in s && forall c | c in s[1..] :: c in s;
      NoHashes(s[1..]);
    }
  }

  lemma {:induction false} LStripHashes(s: string)
    ensures Hashes(LStrip(s)) <= Hashes(s)
    decreases |s|
  {
    if s != "" && Space(s[0]) { LStripHashes(s[1..]); }
  }

  lemma {:induction false} RStripHashes(s: string)
    ensures Hashes(RStrip(s)) <= Hashes(s)
    decreases |s|
  {
    if s != "" && Space(s[|s| - 1]) {
      RStripHashes(s[..|s| - 1]);
      HashesPart(s, 0, |s| - 1);
    }
  }

  lemma StripHashes(s: string)
    ensures Hashes(Strip(s)) <= Hashes(s)
  {
    LStripHashes(s);
    RStripHashes(LStrip(s));
  }

  lemma {:induction false} EscapeHashes(t: string)
    ensures Hashes(EscapeText(t)) == Hashes(t)
    decreases |t|
  {
    if t != "" {
      HashesAppend(EscapeChar(t[0]), EscapeText(t[1..]));
      EscapeCharHashes(t[0]);
      EscapeHashes(t[1..]);
    }
  }

  lemma EscapeCharHashes(c: char)
    ensures Hashes(EscapeChar(c)) == if c == '#' then 1 else 0
  {
    var e := EscapeChar(c);
    if |e| == 2 {
      TwoHashes(e);
    } else {
      assert e == [c] && e[1..] == "";
    }
  }

  lemma TwoHashes(e: string)
    requires |e| == 2 && e[0] != '#' && e[1] != '#'
    ensures Hashes(e) == 0
  {
    NoHashes(e);
  }

  lemma QuoteHashes(t: string)
    ensures Hashes(QuoteScalar(t)) == Hashes(t)
  {
    if NeedsQuote(t) {
      EscapeHashes(t);
      NoHashes("\"");
      HashesAppend("\"", EscapeText(t));
      HashesAppend("\"" + EscapeText(t), "\"");
    }
  }

  function ScalarHashes(v: Scalar): nat { if v.Txt? then Hashes(v.text) else 0 }

  lemma DumpHashes(v: Scalar)
    ensures Hashes(DumpScalar(v)) == ScalarHashes(v)
  {
    match v
    case Txt(t) => QuoteHashes(t);
    case Num(n) =>
      NumberNeutral(n);
      NoHashes(FromInt(n));
    case Nil => NoHashes("null");
    case Flag(b) => NoHashes(if b then "true" else "false");
  }

  lemma {:induction false} UnescapeHashes(s: string)
    ensures Hashes(Unescape(s)) <= Hashes(s)
    decreases |s|
  {
    if s == "" {
    } else if s[0] == '\\' && |s| > 1 {
      UnescapeHashes(s[2..]);
      assert s[1..][1..] == s[2..];
      assert Unescape(s) == [UnescapeChar(s[1])] + Unescape(s[2..]);
      assert Unescape(s)[1..] == Unescape(s[2..]);
    } else {
      UnescapeHashes(s[1..]);
      assert Unescape(s)[1..] == Unescape(s[1..]);
    }
  }

  lemma {:induction false} UndoubleHashes(s: string)
    ensures Hashes(Undouble(s)) <= Hashes(s)
    decreases |s|
  {
    if s == "" {
    } else if |s| > 1 && s[0] == '\'' && s[1] == '\'' {
      UndoubleHashes(s[2..]);
      assert s[1..][1..] == s[2..];
      assert Undouble(s)[1..] == Undouble(s[2..]);
    } else {
      UndoubleHashes(s[1..]);
      assert Undouble(s)[1..] == Undouble(s[1..]);
    }
  }

  lemma ParseHashes(token: string)
    ensures ScalarHashes(ParseScalar(token)) <= Hashes(token)
  {
    var t := Strip(token);
    StripHashes(token);
    if |t| >= 2 { InnerHashes(t, t[1..|t| - 1]); }
    if ParseScalar(token).Txt? { ParsedText(token, t); }
  }

  lemma InnerHashes(t: string, inner: string)
    requires |t| >= 2 && inner == t[1..|t| - 1]
    ensures Hashes(Unescape(inner)) <= Hashes(t) && Hashes(Undouble(inner)) <= Hashes(t)
  {
    HashesPart(t, 1, |t| - 1);
    UnescapeHashes(inner);
    UndoubleHashes(inner);
  }

  lemma ParsedText(token: string, t: string)
    requires t == Strip(token) && ParseScalar(token).Txt?
    ensures ParseScalar(token).text == t
            || (|t| >= 2 && (ParseScalar(token).text == Unescape(t[1..|t| - 1]) || ParseScalar(token).text == Undouble(t[1..|t| - 1])))
  {
  }

  lemma {:induction false} PartitionHashes(s: string)
    ensures Hashes(Partition(s).0) + Hashes(Partition(s).1) <= Hashes(s)
    decreases |s|
  {
    if s != "" && s[0] != ':' {
      PartitionHashes(s[1..]);
      assert Partition(s).0[1..] == Partition(s[1..]).0;
    }
  }

  /** The comment scan loses number signs exactly when it finds a comment. */
  lemma {:induction false} UncommentedHashes(m: Scan, s: string)
    ensures Hashes(Uncommented(m, s)) <= Hashes(s)
    ensures Hashes(Uncommented(m, s)) == Hashes(s) ==> Quiet(m, s)
    decreases |s|
  {
    if s != "" && !Comment(m, s[0]) {
      UncommentedHashes(Step(m, s[0]), s[1..]);
      assert Uncommented(m, s)[1..] == Uncommented(Step(m, s[0]), s[1..]);
    }
  }

  // ---- In documents ----

  function DocHashes(d: Doc): nat
    decreases d, 1
  {
    match d
    case Leaf(v) => ScalarHashes(v)
    case Map(es) => EntriesHashes(es)
    case List(ds) => ItemsHashes(ds)
    case Odd => 0
  }

  function EntriesHashes(es: seq<Entry>): nat
    decreases es, 0
  {
    if es == [] then 0 else Hashes(es[0].key) + DocHashes(es[0].val) + EntriesHashes(es[1..])
  }

  function ItemsHashes(ds: seq<Doc>): nat
    decreases ds, 0
  {
    if ds == [] then 0 else DocHashes(ds[0]) + ItemsHashes(ds[1..])
  }

  lemma {:induction false} PutHashes(es: seq<Entry>, k: string, v: Doc)
    ensures EntriesHashes(Put(es, k, v)) <= EntriesHashes(es) + Hashes(k) + DocHashes(v)
    decreases |es|
  {
    if es == [] {
      assert Put(es, k, v)[1..] == [];
    } else if es[0].key == k {
      assert Put(es, k, v)[1..] == es[1..];
    } else {
      PutHashes(es[1..], k, v);
      assert Put(es, k, v)[1..] == Put(es[1..], k, v);
    }
  }

  lemma {:induction false} PushHashes(ds: seq<Doc>, v: Doc)
    ensures ItemsHashes(ds + [v]) == ItemsHashes(ds) + DocHashes(v)
    decreases |ds|
  {
    if ds == [] {
      assert ds + [v] == [v] && [v][1..] == [];
    } else {
      assert (ds + [v])[0] == ds[0] && (ds + [v])[1..] == ds[1..] + [v];
      PushHashes(ds[1..], v);
    }
  }

  // ---- In what is written ----

  function LinesHashes(lines: seq<string>): nat { if lines == [] then 0 else Hashes(lines[0]) + LinesHashes(lines[1..]) }

  lemma {:induction false} LinesAppend(a: seq<string>, b: seq<string>)
    ensures LinesHashes(a + b) == LinesHashes(a) + LinesHashes(b)
    decreases |a|
  {
    if a == [] {
      assert a + b == b;
    } else {
      assert (a + b)[0] == a[0] && (a + b)[1..] == a[1..] + b;
      LinesAppend(a[1..], b);
    }
  }

  lemma LinesJoin(line: string, block: seq<string>, more: seq<string>)
    ensures LinesHashes([line] + block + more) == Hashes(line) + LinesHashes(block) + LinesHashes(more)
  {
    LinesAppend([line] + block, more);
    LinesAppend([line], block);
    assert [line][1..] == [];
  }

  lemma TailHashes(v: Option<Scalar>)
    ensures Hashes(TailOf(v)) == if v.Some? then ScalarHashes(v.value) else 0
  {
    if v.Some? {
      DumpHashes(v.value);
      NoHashes(" ");
      HashesAppend(" ", DumpScalar(v.value));
    }
  }

  lemma LineHashes(ind: nat, head: string, v: Option<Scalar>)
    ensures Hashes(Pad(ind) + head + TailOf(v)) == Hashes(head) + if v.Some? then ScalarHashes(v.value) else 0
  {
    PadQuiet(ind);
    NoHashes(Pad(ind));
    TailHashes(v);
    HashesAppend(Pad(ind), head);
    HashesAppend(Pad(ind) + head, TailOf(v));
  }

  lemma EntryLineHashes(e: Entry, ind: nat)
    ensures Hashes(EntryLine(e, ind)) == Hashes(e.key) + if e.val.Leaf? then ScalarHashes(e.val.scalar) else 0
  {
    QuoteHashes(e.key);
    NoHashes(":");
    HashesAppend(QuoteScalar(e.key), ":");
    LineHashes(ind, QuoteScalar(e.key) + ":", LeafOf(e.val));
    assert EntryLine(e, ind) == Pad(ind) + (QuoteScalar(e.key) + ":") + TailOf(LeafOf(e.val));
  }

  lemma ItemLineHashes(v: Doc, ind: nat)
    ensures Hashes(ItemLine(v, ind)) == if v.Leaf? then ScalarHashes(v.scalar) else 0
  {
    NoHashes("-");
    LineHashes(ind, "-", LeafOf(v));
  }

  lemma {:induction false} EmitHashes(d: Doc, ind: nat)
    requires Supported(d) && !d.Leaf?
    ensures LinesHashes(Emit(d, ind)) == DocHashes(d)
    decreases d, 1, 0
  {
    if d.Map? && d.entries == [] {
      BracesHashes(ind, "{}");
    } else if d.List? && d.items == [] {
      BracesHashes(ind, "[]");
    } else if d.Map? {
      EmitEntriesHashes(d, 0, ind);
      assert d.entries[0..] == d.entries;
    } else {
      EmitItemsHashes(d, 0, ind);
      assert d.items[0..] == d.items;
    }
  }

  lemma BracesHashes(ind: nat, braces: string)
    requires braces == "{}" || braces == "[]"
    ensures LinesHashes([Pad(ind) + braces]) == 0
  {
    PadQuiet(ind);
    NoHashes(Pad(ind) + braces);
    assert [Pad(ind) + braces][1..] == [];
  }

  lemma {:induction false} EmitEntriesHashes(d: Doc, i: nat, ind: nat)
    requires Supported(d) && d.Map? && i <= |d.entries|
    ensures LinesHashes(EmitEntries(d, i, ind)) == EntriesHashes(d.entries[i..])
    decreases d, 0, |d.entries| - i
  {
    if i < |d.entries| {
      var e := d.entries[i];
      EntryLineHashes(e, ind);
      if !e.val.Leaf? { EmitHashes(e.val, ind + 1); }
      EmitEntriesHashes(d, i + 1, ind);
      EntryLines(d, i, ind);
      LinesJoin(EntryLine(e, ind), BlockLines(e.val, ind + 1), EmitEntries(d, i + 1, ind));
      assert d.entries[i..][0] == e && d.entries[i..][1..] == d.entries[i + 1..];
    }
  }

  lemma {:induction false} EmitItemsHashes(d: Doc, i: nat, ind: nat)
    requires Supported(d) && d.List? && i <= |d.items|
    ensures LinesHashes(EmitItems(d, i, ind)) == ItemsHashes(d.items[i..])
    decreases d, 0, |d.items| - i
  {
    if i < |d.items| {
      var v := d.items[i];
      ItemLineHashes(v, ind);
      if !v.Leaf? { EmitHashes(v, ind + 1); }
      EmitItemsHashes(d, i + 1, ind);
      ItemLines(d, i, ind);
      LinesJoin(ItemLine(v, ind), BlockLines(v, ind + 1), EmitItems(d, i + 1, ind));
      assert d.items[i..][0] == v && d.items[i..][1..] == d.items[i + 1..];
    }
  }

  // ---- In what is read ----

  function TokenHashes(t: Token): nat { if t.Value? then DocHashes(t.doc) else 0 }

  function RowHashes(r: Row): nat {
    match r
    case KeyRow(_, k, t) => Hashes(k) + TokenHashes(t)
    case DashRow(_, t) => TokenHashes(t)
    case Junk(_) => 0
  }

  lemma ReadTokenHashes(t: string)
    ensures TokenHashes(TokenOf(Strip(t))) <= Hashes(t)
  {
    StripHashes(t);
    ParseHashes(Strip(t));
  }

  lemma ReadRowHashes(line: string)
    ensures RowHashes(RowOf(line)) <= Hashes(line)
  {
    var content := Strip(line);
    StripHashes(line);
    if Dashed(content) {
      HashesPart(content, 1, |content|);
      ReadTokenHashes(content[1..]);
    } else {
      PartitionHashes(content);
      ParseHashes(Partition(content).0);
      ReadTokenHashes(Partition(content).1);
    }
  }

  /** The rows from `i` to before `j`. */
  function RowsHashes(rows: seq<Row>, i: nat, j: nat): nat
    requires i <= j <= |rows|
    decreases j - i
  {
    if i == j then 0 else RowHashes(rows[i]) + RowsHashes(rows, i + 1, j)
  }

  lemma {:induction false} RowsSplit(rows: seq<Row>, i: nat, j: nat, k: nat)
    requires i <= j <= k <= |rows|
    ensures RowsHashes(rows, i, k) == RowsHashes(rows, i, j) + RowsHashes(rows, j, k)
    decreases j - i
  {
    if i < j { RowsSplit(rows, i + 1, j, k); }
  }

  lemma {:induction false} BlockHashes(rows: seq<Row>, pos: nat, parent: int)
    ensures ParseBlock(rows, pos, parent).Got? ==>
              pos <= |rows| && DocHashes(ParseBlock(rows, pos, parent).value) <= RowsHashes(rows, pos, ParseBlock(rows, pos, parent).pos)
    decreases |rows| - pos, 1
  {
    if pos < |rows| && rows[pos].indent > parent {
      if rows[pos].DashRow? {
        SequenceHashes(rows, pos, rows[pos].indent, []);
      } else {
        MappingHashes(rows, pos, rows[pos].indent, []);
      }
    }
  }

  lemma {:induction false} MappingHashes(rows: seq<Row>, pos: nat, indent: nat, acc: seq<Entry>)
    requires pos <= |rows|
    ensures var r := ParseMapping(rows, pos, indent, acc); r.Got? ==> EntriesHashes(r.value) <= EntriesHashes(acc) + RowsHashes(rows, pos, r.pos)
    decreases |rows| - pos, 0
  {
    if pos < |rows| && rows[pos].indent == indent && rows[pos].KeyRow? {
      var row := rows[pos];
      var r := ParseMapping(rows, pos, indent, acc);
      if row.token.Value? {
        PutHashes(acc, row.key, row.token.doc);
        MappingHashes(rows, pos + 1, indent, Put(acc, row.key, row.token.doc));
      } else if Deeper(rows, pos + 1, indent) {
        BlockHashes(rows, pos + 1, indent);
        var b := ParseBlock(rows, pos + 1, indent);
        if b.Got? {
          PutHashes(acc, row.key, b.value);
          MappingHashes(rows, b.pos, indent, Put(acc, row.key, b.value));
          if r.Got? { RowsSplit(rows, pos + 1, b.pos, r.pos); }
        }
      } else {
        PutHashes(acc, row.key, Leaf(Nil));
        MappingHashes(rows, pos + 1, indent, Put(acc, row.key, Leaf(Nil)));
      }
    }
  }

  lemma {:induction false} SequenceHashes(rows: seq<Row>, pos: nat, indent: nat, acc: seq<Doc>)
    requires pos <= |rows|
    ensures var r := ParseSequence(rows, pos, indent, acc); r.Got? ==> ItemsHashes(r.value) <= ItemsHashes(acc) + RowsHashes(rows, pos, r.pos)
    decreases |rows| - pos, 0
  {
    if pos < |rows| && rows[pos].indent == indent && rows[pos].DashRow? {
      var row := rows[pos];
      var r := ParseSequence(rows, pos, indent, acc);
      if row.token.Value? {
        PushHashes(acc, row.token.doc);
        SequenceHashes(rows, pos + 1, indent, acc + [row.token.doc]);
      } else if Deeper(rows, pos + 1, indent) {
        BlockHashes(rows, pos + 1, indent);
        var b := ParseBlock(rows, pos + 1, indent);
        if b.Got? {
          PushHashes(acc, b.value);
          SequenceHashes(rows, b.pos, indent, acc + [b.value]);
          if r.Got? { RowsSplit(rows, pos + 1, b.pos, r.pos); }
        }
      } else {
        PushHashes(acc, Leaf(Nil));
        SequenceHashes(rows, pos + 1, indent, acc + [Leaf(Nil)]);
      }
    }
  }

  lemma {:induction false} ReadLinesHashes(lines: seq<string>, i: nat)
    requires i <= |lines|
    ensures RowsHashes(RowsOf(lines), i, |lines|) <= LinesHashes(lines[i..])
    decreases |lines| - i
  {
    if i < |lines| {
      ReadLinesHashes(lines, i + 1);
      NthRow(lines, i);
      ReadRowHashes(lines[i]);
      assert lines[i..][0] == lines[i] && lines[i..][1..] == lines[i + 1..];
    }
  }

  lemma {:induction false} NthRow(lines: seq<string>, i: nat)
    requires i < |lines|
    ensures RowsOf(lines)[i] == RowOf(lines[i])
    decreases i
  {
    if i > 0 { NthRow(lines[1..], i - 1); }
  }

  /** The clean-up loses number signs unless it finds no comment at all. */
  lemma {:induction false} KeptHashes(raw: seq<string>)
    ensures LinesHashes(Kept(raw)) <= LinesHashes(raw)
    ensures LinesHashes(Kept(raw)) == LinesHashes(raw) ==> AllQuiet(raw)
    decreases |raw|
  {
    if raw != [] {
      var line := RStrip(StripComment(raw[0]));
      KeptHashes(raw[1..]);
      UncommentedHashes(START, raw[0]);
      RStripHashes(StripComment(raw[0]));
      var first := if Strip(line) != "" then [line] else [];
      LinesAppend(first, Kept(raw[1..]));
      assert first != [] ==> first[1..] == [];
      assert forall i | 0 < i < |raw| :: raw[i] == raw[1..][i - 1];
    }
  }

  /** A document that the reader gives back for its own emitted lines has lost none
      of them to a comment. */
  lemma BackMeansUncut(d: Doc)
    requires Supported(d) && d.Map? && ParseRows(RowsOf(Kept(Emit(d, 0)))) == Some(d)
    ensures Uncut(d)
  {
    var kept := Kept(Emit(d, 0));
    var rows := RowsOf(kept);
    EmitHashes(d, 0);
    KeptHashes(Emit(d, 0));
    ReadLinesHashes(kept, 0);
    assert kept[0..] == kept;
    if rows != [] {
      BlockHashes(rows, 0, -1);
      EmitQuiet(d, 0);
    } else {
      assert d == Map([]);
    }
  }
}
