// The writer appending to its shared list of lines, and the reader's loops over
// characters and positions (config.py).

module YamlWriter {
  import opened Base
  import opened YamlText
  import opened YamlConfig

  class LineList {
    var lines: seq<string>

    constructor ()
      ensures lines == []
    {
      lines := [];
    }

    method Add(line: string)
      modifies this
      ensures lines == old(lines) + [line]
    {
      lines := lines + [line];
    }
  }

  // ---- Writing ----

  /** `_emit_mapping` and `_emit_sequence`. */
  method EmitInto(d: Doc, ind: nat, out: LineList)
    requires Supported(d) && !d.Leaf?
    modifies out
    ensures out.lines == old(out.lines) + Emit(d, ind)
    decreases d, 1
  {
    if d.Map? { EmitMapping(d, ind, out); } else { EmitSequence(d, ind, out); }
  }

  method EmitMapping(d: Doc, ind: nat, out: LineList)
    requires Supported(d) && d.Map?
    modifies out
    ensures out.lines == old(out.lines) + Emit(d, ind)
    decreases d, 0
  {
    if d.entries == [] {
      out.Add(Pad(ind) + "{}");
      return;
    }
    var i := 0;
    while i < |d.entries|
      invariant 0 <= i <= |d.entries|
      invariant out.lines + EmitEntries(d, i, ind) == old(out.lines) + Emit(d, ind)
    {
      ghost var before := out.lines;
      EmitEntry(d.entries[i], ind, out);
      EntryEmitted(d, i, ind, before);
      i := i + 1;
    }
  }

  method EmitEntry(e: Entry, ind: nat, out: LineList)
    requires Supported(e.val)
    modifies out
    ensures e.val.Leaf? ==> out.lines == old(out.lines) + [Pad(ind) + QuoteScalar(e.key) + ": " + DumpScalar(e.val.scalar)]
    ensures !e.val.Leaf? ==> out.lines == old(out.lines) + [Pad(ind) + QuoteScalar(e.key) + ":"] + Emit(e.val, ind + 1)
    decreases e, 0
  {
    if e.val.Leaf? {
      out.Add(Pad(ind) + QuoteScalar(e.key) + ": " + DumpScalar(e.val.scalar));
    } else {
      out.Add(Pad(ind) + QuoteScalar(e.key) + ":");
      EmitInto(e.val, ind + 1, out);
    }
  }

  lemma EntryEmitted(d: Doc, i: nat, ind: nat, before: seq<string>)
    requires Supported(d) && d.Map? && i < |d.entries|
    ensures var e := d.entries[i];
            before + EmitEntries(d, i, ind) ==
              (if e.val.Leaf? then before + [Pad(ind) + QuoteScalar(e.key) + ": " + DumpScalar(e.val.scalar)]
               else before + [Pad(ind) + QuoteScalar(e.key) + ":"] + Emit(e.val, ind + 1))
              + EmitEntries(d, i + 1, ind)
  {
  }

  method EmitSequence(d: Doc, ind: nat, out: LineList)
    requires Supported(d) && d.List?
    modifies out
    ensures out.lines == old(out.lines) + Emit(d, ind)
    decreases d, 0
  {
    if d.items == [] {
      out.Add(Pad(ind) + "[]");
      return;
    }
    var i := 0;
    while i < |d.items|
      invariant 0 <= i <= |d.items|
      invariant out.lines + EmitItems(d, i, ind) == old(out.lines) + Emit(d, ind)
    {
      ghost var before := out.lines;
      EmitItem(d.items[i], ind, out);
      ItemEmitted(d, i, ind, before);
      i := i + 1;
    }
  }

  method EmitItem(v: Doc, ind: nat, out: LineList)
    requires Supported(v)
    modifies out
    ensures v.Leaf? ==> out.lines == old(out.lines) + [Pad(ind) + "- " + DumpScalar(v.scalar)]
    ensures !v.Leaf? ==> out.lines == old(out.lines) + [Pad(ind) + "-"] + Emit(v, ind + 1)
    decreases v, 2
  {
    if v.Leaf? {
      out.Add(Pad(ind) + "- " + DumpScalar(v.scalar));
    } else {
      out.Add(Pad(ind) + "-");
      EmitInto(v, ind + 1, out);
    }
  }

  lemma ItemEmitted(d: Doc, i: nat, ind: nat, before: seq<string>)
    requires Supported(d) && d.List? && i < |d.items|
    ensures var v := d.items[i];
            before + EmitItems(d, i, ind) ==
              (if v.Leaf? then before + [Pad(ind) + "- " + DumpScalar(v.scalar)] else before + [Pad(ind) + "-"] + Emit(v, ind + 1))
              + EmitItems(d, i + 1, ind)
  {
  }

  // ---- Characters ----

  method StripCommentOf(line: string) returns (out: string)
    ensures out == StripComment(line)
  {
    out := "";
    var m := START;
    var i := 0;
    assert line[0..] == line;
    while i < |line|
      invariant 0 <= i <= |line| && out + Uncommented(m, line[i..]) == StripComment(line)
    {
      var ch := line[i];
      assert line[i..][0] == ch && line[i..][1..] == line[i + 1..];
      if Comment(m, ch) { return; }
      out := out + [ch];
      m := Step(m, ch);
      i := i + 1;
    }
  }

  method UnescapeText(s: string) returns (out: string)
    ensures out == Unescape(s)
  {
    out := "";
    var i := 0;
    assert s[0..] == s;
    while i < |s|
      invariant 0 <= i <= |s| && out + Unescape(s[i..]) == Unescape(s)
    {
      assert s[i..][0] == s[i] && s[i..][1..] == s[i + 1..];
      if s[i] == '\\' && i + 1 < |s| {
        assert s[i..][1] == s[i + 1] && s[i..][2..] == s[i + 2..];
        out := out + [UnescapeChar(s[i + 1])];
        i := i + 2;
      } else {
        out := out + [s[i]];
        i := i + 1;
      }
    }
  }

  // ---- Blocks ----

  lemma {:induction false} RowAt(lines: seq<string>, i: nat)
    requires i < |lines|
    ensures RowsOf(lines)[i] == RowOf(lines[i])
    decreases i
  {
    if i > 0 { RowAt(lines[1..], i - 1); }
  }

  method ParseBlockAt(lines: seq<string>, pos: nat, parent: int) returns (r: Parsed<Doc>)
    ensures r == ParseBlock(RowsOf(lines), pos, parent)
    decreases |lines| - pos, 1
  {
    if pos >= |lines| { return Bad; }
    RowAt(lines, pos);
    var first := RowOf(lines[pos]);
    if first.indent <= parent { return Bad; }
    if first.DashRow? {
      var s := ParseSequenceAt(lines, pos, first.indent);
      r := if s.Got? then Got(List(s.value), s.pos) else Bad;
    } else {
      var m := ParseMappingAt(lines, pos, first.indent);
      r := if m.Got? then Got(Map(m.value), m.pos) else Bad;
    }
  }

  method ParseMappingAt(lines: seq<string>, start: nat, indent: nat) returns (r: Parsed<seq<Entry>>)
    requires start < |lines|
    ensures r == ParseMapping(RowsOf(lines), start, indent, [])
    decreases |lines| - start, 0
  {
    ghost var rows := RowsOf(lines);
    var mapping := [];
    var pos := start;
    while pos < |lines|
      invariant start <= pos <= |lines|
      invariant ParseMapping(rows, start, indent, []) == ParseMapping(rows, pos, indent, mapping)
    {
      RowAt(lines, pos);
      var row := RowOf(lines[pos]);
      if row.indent != indent || row.DashRow? { break; }
      if row.Junk? { return Bad; }
      if row.token.Value? {
        mapping := Put(mapping, row.key, row.token.doc);
        pos := pos + 1;
      } else {
        if pos + 1 < |lines| { RowAt(lines, pos + 1); }
        if pos + 1 < |lines| && RowOf(lines[pos + 1]).indent > indent {
          var block := ParseBlockAt(lines, pos + 1, indent);
          if block.Bad? { return Bad; }
          mapping := Put(mapping, row.key, block.value);
          pos := block.pos;
        } else {
          mapping := Put(mapping, row.key, Leaf(Nil));
          pos := pos + 1;
        }
      }
    }
    r := Got(mapping, pos);
  }

  method ParseSequenceAt(lines: seq<string>, start: nat, indent: nat) returns (r: Parsed<seq<Doc>>)
    requires start < |lines|
    ensures r == ParseSequence(RowsOf(lines), start, indent, [])
    decreases |lines| - start, 0
  {
    ghost var rows := RowsOf(lines);
    var items := [];
    var pos := start;
    while pos < |lines|
      invariant start <= pos <= |lines|
      invariant ParseSequence(rows, start, indent, []) == ParseSequence(rows, pos, indent, items)
    {
      RowAt(lines, pos);
      var row := RowOf(lines[pos]);
      if row.indent != indent || !row.DashRow? { break; }
      if row.token.Value? {
        items := items + [row.token.doc];
        pos := pos + 1;
      } else {
        if pos + 1 < |lines| { RowAt(lines, pos + 1); }
        if pos + 1 < |lines| && RowOf(lines[pos + 1]).indent > indent {
          var block := ParseBlockAt(lines, pos + 1, indent);
          if block.Bad? { return Bad; }
          items := items + [block.value];
          pos := block.pos;
        } else {
          items := items + [Leaf(Nil)];
          pos := pos + 1;
        }
      }
    }
    r := Got(items, pos);
  }

  method KeptLines(raw: seq<string>) returns (kept: seq<string>)
    ensures kept == Kept(raw)
  {
    kept := [];
    var i := 0;
    assert raw[0..] == raw;
    while i < |raw|
      invariant 0 <= i <= |raw| && kept + Kept(raw[i..]) == Kept(raw)
    {
      KeptOne(raw, i, kept);
      var uncommented := StripCommentOf(raw[i]);
      var line := RStrip(uncommented);
      if Strip(line) != "" { kept := kept + [line]; }
      i := i + 1;
    }
  }

  lemma KeptOne(raw: seq<string>, i: nat, kept: seq<string>)
    requires i < |raw|
    ensures var line := RStrip(StripComment(raw[i]));
            kept + Kept(raw[i..]) == (if Strip(line) != "" then kept + [line] else kept) + Kept(raw[i + 1..])
  {
    assert raw[i..][0] == raw[i] && raw[i..][1..] == raw[i + 1..];
  }

  /** `_parse_yaml`: clean the lines, parse one block, and demand that it used them all. */
  method ParseYaml(text: string) returns (doc: Option<Doc>)
    ensures doc == Load(text)
  {
    var kept := KeptLines(SplitLines(text));
    if kept == [] { return Some(Map([])); }
    var r := ParseBlockAt(kept, 0, -1);
    doc := if r.Got? && r.pos == |kept| then Some(r.value) else None;
  }
}
