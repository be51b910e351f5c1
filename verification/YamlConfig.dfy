// The restricted YAML writer and reader themselves (config.py): what lines a
// document becomes, and what the indentation parser makes of lines.

module YamlConfig {
  import opened Base
  import opened YamlText

  datatype Entry = Entry(key: string, val: Doc)

  /** A configuration value; `Odd` is any type the writer refuses. */
  datatype Doc = Leaf(scalar: Scalar) | Map(entries: seq<Entry>) | List(items: seq<Doc>) | Odd

  // ---- Writing ----

  predicate Supported(d: Doc)
    decreases d
  {
    match d
    case Leaf(_) => true
    case Map(es) => forall i | 0 <= i < |es| :: Supported(es[i].val)
    case List(ds) => forall i | 0 <= i < |ds| :: Supported(ds[i])
    case Odd => false
  }

  function Pad(ind: nat): string { if ind == 0 then "" else "  " + Pad(ind - 1) }

  function Emit(d: Doc, ind: nat): seq<string>
    requires Supported(d) && !d.Leaf?
    decreases d, 1, 0
  {
    if d.Map? then if d.entries == [] then [Pad(ind) + "{}"] else EmitEntries(d, 0, ind)
    else if d.items == [] then [Pad(ind) + "[]"] else EmitItems(d, 0, ind)
  }

  function EmitEntries(d: Doc, i: nat, ind: nat): seq<string>
    requires Supported(d) && d.Map? && i <= |d.entries|
    decreases d, 0, |d.entries| - i
  {
    if i == |d.entries| then []
    else
      var e := d.entries[i];
      (if e.val.Leaf? then [Pad(ind) + QuoteScalar(e.key) + ": " + DumpScalar(e.val.scalar)]
       else [Pad(ind) + QuoteScalar(e.key) + ":"] + Emit(e.val, ind + 1))
      + EmitEntries(d, i + 1, ind)
  }

  function EmitItems(d: Doc, i: nat, ind: nat): seq<string>
    requires Supported(d) && d.List? && i <= |d.items|
    decreases d, 0, |d.items| - i
  {
    if i == |d.items| then []
    else
      var v := d.items[i];
      (if v.Leaf? then [Pad(ind) + "- " + DumpScalar(v.scalar)] else [Pad(ind) + "-"] + Emit(v, ind + 1))
      + EmitItems(d, i + 1, ind)
  }

  /** `_dump_yaml`; a value type outside the subset raises. */
  function Dump(d: Doc): Option<string>
    requires d.Map?
  {
    if Supported(d) then Some(JoinLines(Emit(d, 0))) else None
  }

  // ---- Reading ----

  datatype Parsed<T> = Got(value: T, pos: nat) | Bad

  /** Dictionary assignment: the first insertion fixes the place. */
  function Put(es: seq<Entry>, key: string, val: Doc): seq<Entry> {
    if es == [] then [Entry(key, val)]
    else if es[0].key == key then [Entry(key, val)] + es[1..]
    else [es[0]] + Put(es[1..], key, val)
  }

  /** What a value token stands for; `Nothing` may open a nested block. */
  datatype Token = Nothing | Value(doc: Doc)

  function TokenOf(t: string): Token {
    if t == "" then Nothing
    else if t == "{}" then Value(Map([]))
    else if t == "[]" then Value(List([]))
    else Value(Leaf(ParseScalar(t)))
  }

  /** One line as the parser looks at it; `Junk` is what a mapping refuses. */
  datatype Row =
    | KeyRow(indent: nat, key: string, token: Token)
    | DashRow(indent: nat, token: Token)
    | Junk(indent: nat)

  function RowOf(line: string): Row {
    var content := Strip(line);
    if Dashed(content) then DashRow(IndentOf(line), TokenOf(Strip(content[1..])))
    else if ':' !in content then Junk(IndentOf(line))
    else
      var parts := Partition(content);
      var key := ParseScalar(parts.0);
      if key.Txt? then KeyRow(IndentOf(line), key.text, TokenOf(Strip(parts.1))) else Junk(IndentOf(line))
  }

  function RowsOf(lines: seq<string>): (r: seq<Row>)
    ensures |r| == |lines|
  {
    if lines == [] then [] else [RowOf(lines[0])] + RowsOf(lines[1..])
  }

  /** The row at `pos` opens a block deeper than `indent`. */
  predicate Deeper(rows: seq<Row>, pos: nat, indent: nat) { pos < |rows| && rows[pos].indent > indent }

  function ParseBlock(rows: seq<Row>, pos: nat, parent: int): (r: Parsed<Doc>)
    ensures r.Got? ==> pos < r.pos <= |rows|
    decreases |rows| - pos, 1
  {
    if pos >= |rows| || rows[pos].indent <= parent then Bad
    else if rows[pos].DashRow? then
      match ParseSequence(rows, pos, rows[pos].indent, [])
      case Got(items, p) => Got(List(items), p)
      case Bad => Bad
    else
      match ParseMapping(rows, pos, rows[pos].indent, [])
      case Got(es, p) => Got(Map(es), p)
      case Bad => Bad
  }

  function ParseMapping(rows: seq<Row>, pos: nat, indent: nat, acc: seq<Entry>): (r: Parsed<seq<Entry>>)
    requires pos <= |rows|
    ensures r.Got? ==> pos <= r.pos <= |rows|
    ensures r.Got? && pos < |rows| && rows[pos].indent == indent && !rows[pos].DashRow? ==> pos < r.pos
    decreases |rows| - pos, 0
  {
    if pos == |rows| || rows[pos].indent != indent || rows[pos].DashRow? then Got(acc, pos)
    else if rows[pos].Junk? then Bad
    else if rows[pos].token.Value? then
      ParseMapping(rows, pos + 1, indent, Put(acc, rows[pos].key, rows[pos].token.doc))
    else if Deeper(rows, pos + 1, indent) then
      match ParseBlock(rows, pos + 1, indent)
      case Got(v, p) => ParseMapping(rows, p, indent, Put(acc, rows[pos].key, v))
      case Bad => Bad
    else ParseMapping(rows, pos + 1, indent, Put(acc, rows[pos].key, Leaf(Nil)))
  }

  function ParseSequence(rows: seq<Row>, pos: nat, indent: nat, acc: seq<Doc>): (r: Parsed<seq<Doc>>)
    requires pos <= |rows|
    ensures r.Got? ==> pos <= r.pos <= |rows|
    ensures r.Got? && pos < |rows| && rows[pos].indent == indent && rows[pos].DashRow? ==> pos < r.pos
    decreases |rows| - pos, 0
  {
    if pos == |rows| || rows[pos].indent != indent || !rows[pos].DashRow? then Got(acc, pos)
    else if rows[pos].token.Value? then ParseSequence(rows, pos + 1, indent, acc + [rows[pos].token.doc])
    else if Deeper(rows, pos + 1, indent) then
      match ParseBlock(rows, pos + 1, indent)
      case Got(v, p) => ParseSequence(rows, p, indent, acc + [v])
      case Bad => Bad
    else ParseSequence(rows, pos + 1, indent, acc + [Leaf(Nil)])
  }

  /** Comments and trailing space removed, blank lines dropped. */
  function Kept(raw: seq<string>): seq<string> {
    if raw == [] then []
    else
      var line := RStrip(StripComment(raw[0]));
      (if Strip(line) != "" then [line] else []) + Kept(raw[1..])
  }

  function ParseRows(rows: seq<Row>): Option<Doc> {
    if rows == [] then Some(Map([]))
    else
      match ParseBlock(rows, 0, -1)
      case Got(v, p) => if p == |rows| then Some(v) else None
      case Bad => None
  }

  /** `_parse_yaml`; `None` is the ValueError. */
  function Load(text: string): Option<Doc> { ParseRows(RowsOf(Kept(SplitLines(text)))) }
}
