// Writing a configuration and reading it back: exactly when that returns the
// same document.

module YamlRoundTrip {
  import opened Base
  import opened YamlText
  import opened YamlConfig
  import opened YamlScalars
  import opened YamlLines

  // ---- Conditions on documents ----

  predicate EveryKey(d: Doc, p: string -> bool)
    decreases d
  {
    match d
    case Map(es) => forall i | 0 <= i < |es| :: p(es[i].key) && EveryKey(es[i].val, p)
    case List(ds) => forall i | 0 <= i < |ds| :: EveryKey(ds[i], p)
    case _ => true
  }

  predicate EveryText(d: Doc, p: string -> bool)
    decreases d
  {
    match d
    case Leaf(v) => v.Txt? ==> p(v.text)
    case Map(es) => forall i | 0 <= i < |es| :: EveryText(es[i].val, p)
    case List(ds) => forall i | 0 <= i < |ds| :: EveryText(ds[i], p)
    case Odd => true
  }

  /** No mapping or sequence is empty. */
  predicate NonEmpty(d: Doc)
    decreases d
  {
    match d
    case Map(es) => es != [] && forall i | 0 <= i < |es| :: NonEmpty(es[i].val)
    case List(ds) => ds != [] && forall i | 0 <= i < |ds| :: NonEmpty(ds[i])
    case _ => true
  }

  /** A Python dictionary has each key once. */
  predicate Dictionary(d: Doc)
    decreases d
  {
    match d
    case Map(es) =>
      (forall i, j | 0 <= i < j < |es| :: es[i].key != es[j].key) && forall i | 0 <= i < |es| :: Dictionary(es[i].val)
    case List(ds) => forall i | 0 <= i < |ds| :: Dictionary(ds[i])
    case _ => true
  }

  /** Keys without a colon, and no line break but the two that are escaped. */
  predicate Legible(d: Doc) { EveryKey(d, NoColon) && EveryKey(d, NoOdd) && EveryText(d, NoOdd) }

  predicate Faithful(d: Doc) { NonEmpty(d) && Legible(d) }

  // ---- The rows of a document ----

  function DocRows(d: Doc, ind: nat): seq<Row>
    requires !d.Leaf? && Supported(d)
    decreases d, 1, 0
  {
    if (d.Map? && d.entries == []) || (d.List? && d.items == []) then [Junk(2 * ind)]
    else if d.Map? then EntryRows(d, 0, ind) else ItemRows(d, 0, ind)
  }

  /** The rows of one entry, and of one item. */
  function EntryPart(e: Entry, ind: nat): seq<Row>
    requires Supported(e.val)
    decreases e.val, 2, 0
  {
    if e.val.Leaf? then [KeyRow(2 * ind, e.key, Value(e.val))] else [KeyRow(2 * ind, e.key, Nothing)] + DocRows(e.val, ind + 1)
  }

  function ItemPart(v: Doc, ind: nat): seq<Row>
    requires Supported(v)
    decreases v, 2, 0
  {
    if v.Leaf? then [DashRow(2 * ind, Value(v))] else [DashRow(2 * ind, Nothing)] + DocRows(v, ind + 1)
  }

  function EntryRows(d: Doc, i: nat, ind: nat): seq<Row>
    requires d.Map? && Supported(d) && i <= |d.entries|
    decreases d, 0, |d.entries| - i
  {
    if i == |d.entries| then [] else EntryPart(d.entries[i], ind) + EntryRows(d, i + 1, ind)
  }

  function ItemRows(d: Doc, i: nat, ind: nat): seq<Row>
    requires d.List? && Supported(d) && i <= |d.items|
    decreases d, 0, |d.items| - i
  {
    if i == |d.items| then [] else ItemPart(d.items[i], ind) + ItemRows(d, i + 1, ind)
  }

  lemma {:induction false} RowsAppend(a: seq<string>, b: seq<string>)
    ensures RowsOf(a + b) == RowsOf(a) + RowsOf(b)
    decreases |a|
  {
    if a == [] {
      assert a + b == b;
    } else {
      assert (a + b)[0] == a[0] && (a + b)[1..] == a[1..] + b;
      RowsAppend(a[1..], b);
    }
  }

  lemma RowsOne(line: string)
    ensures RowsOf([line]) == [RowOf(line)]
  {
    assert [line][1..] == [];
  }

  function LeafOf(d: Doc): Option<Scalar> { if d.Leaf? then Some(d.scalar) else None }

  lemma EntryHead(ind: nat, e: Entry)
    requires NoColon(e.key)
    ensures e.val.Leaf? ==> RowOf(Pad(ind) + QuoteScalar(e.key) + ": " + DumpScalar(e.val.scalar)) == KeyRow(2 * ind, e.key, Value(e.val))
    ensures !e.val.Leaf? ==> RowOf(Pad(ind) + QuoteScalar(e.key) + ":") == KeyRow(2 * ind, e.key, Nothing)
  {
    var head := Pad(ind) + QuoteScalar(e.key);
    var tail := TailOf(LeafOf(e.val));
    if e.val.Leaf? {
      ScalarTail(e.val.scalar);
      assert head + ":" + tail == head + ": " + DumpScalar(e.val.scalar);
    } else {
      assert head + ":" + tail == head + ":";
    }
    KeyLine(ind, e.key, tail, TokenFor(LeafOf(e.val)));
  }

  lemma ItemHead(ind: nat, v: Doc)
    ensures v.Leaf? ==> RowOf(Pad(ind) + "- " + DumpScalar(v.scalar)) == DashRow(2 * ind, Value(v))
    ensures !v.Leaf? ==> RowOf(Pad(ind) + "-") == DashRow(2 * ind, Nothing)
  {
    var tail := TailOf(LeafOf(v));
    if v.Leaf? {
      ScalarTail(v.scalar);
      assert Pad(ind) + "-" + tail == Pad(ind) + "- " + DumpScalar(v.scalar);
    } else {
      assert Pad(ind) + "-" + tail == Pad(ind) + "-";
    }
    DashLine(ind, tail, TokenFor(LeafOf(v)));
  }

  /** The reader sees a document's emitted lines as its rows. */
  lemma {:induction false} EmitRows(d: Doc, ind: nat)
    requires Supported(d) && !d.Leaf? && EveryKey(d, NoColon)
    ensures RowsOf(Emit(d, ind)) == DocRows(d, ind)
    decreases d, 1, 0
  {
    if d.Map? && d.entries == [] {
      BracesLine(ind, "{}");
      RowsOne(Pad(ind) + "{}");
    } else if d.List? && d.items == [] {
      BracesLine(ind, "[]");
      RowsOne(Pad(ind) + "[]");
    } else if d.Map? {
      EmitEntryRows(d, 0, ind);
    } else {
      EmitItemRows(d, 0, ind);
    }
  }

  lemma {:induction false} EmitEntryRows(d: Doc, i: nat, ind: nat)
    requires Supported(d) && d.Map? && EveryKey(d, NoColon) && i <= |d.entries|
    ensures RowsOf(EmitEntries(d, i, ind)) == EntryRows(d, i, ind)
    decreases d, 0, |d.entries| - i
  {
    if i < |d.entries| {
      var e := d.entries[i];
      EntryHead(ind, e);
      EmitEntryRows(d, i + 1, ind);
      if e.val.Leaf? {
        OneThenRows(Pad(ind) + QuoteScalar(e.key) + ": " + DumpScalar(e.val.scalar), [], EmitEntries(d, i + 1, ind));
      } else {
        EmitRows(e.val, ind + 1);
        OneThenRows(Pad(ind) + QuoteScalar(e.key) + ":", Emit(e.val, ind + 1), EmitEntries(d, i + 1, ind));
      }
    }
  }

  lemma {:induction false} EmitItemRows(d: Doc, i: nat, ind: nat)
    requires Supported(d) && d.List? && EveryKey(d, NoColon) && i <= |d.items|
    ensures RowsOf(EmitItems(d, i, ind)) == ItemRows(d, i, ind)
    decreases d, 0, |d.items| - i
  {
    if i < |d.items| {
      var v := d.items[i];
      ItemHead(ind, v);
      EmitItemRows(d, i + 1, ind);
      if v.Leaf? {
        OneThenRows(Pad(ind) + "- " + DumpScalar(v.scalar), [], EmitItems(d, i + 1, ind));
      } else {
        EmitRows(v, ind + 1);
        OneThenRows(Pad(ind) + "-", Emit(v, ind + 1), EmitItems(d, i + 1, ind));
      }
    }
  }

  lemma OneThenRows(line: string, block: seq<string>, more: seq<string>)
    ensures RowsOf([line] + block + more) == [RowOf(line)] + RowsOf(block) + RowsOf(more)
    ensures RowsOf([line] + more) == [RowOf(line)] + RowsOf(more)
  {
    RowsOne(line);
    RowsAppend([line], block);
    RowsAppend([line] + block, more);
    RowsAppend([line], more);
  }

  // ---- The parser consumes exactly the rows of each subtree ----

  predicate Holds(rows: seq<Row>, pos: nat, part: seq<Row>) {
    pos + |part| <= |rows| && rows[pos..pos + |part|] == part
  }

  /** The next row, if any, is less indented. */
  predicate Ends(rows: seq<Row>, pos: nat, ind: nat) { pos >= |rows| || rows[pos].indent < 2 * ind }

  lemma HoldsSplit(rows: seq<Row>, pos: nat, a: seq<Row>, b: seq<Row>)
    requires Holds(rows, pos, a + b)
    ensures Holds(rows, pos, a) && Holds(rows, pos + |a|, b)
  {
    assert rows[pos..pos + |a|] == (a + b)[..|a|] == a;
    assert rows[pos + |a|..pos + |a| + |b|] == (a + b)[|a|..] == b;
  }

  predicate Ready(d: Doc) { Supported(d) && NonEmpty(d) && Dictionary(d) }

  lemma PartHeads(e: Entry, v: Doc, ind: nat)
    requires Supported(e.val) && Supported(v)
    ensures EntryPart(e, ind) != [] && EntryPart(e, ind)[0] == KeyRow(2 * ind, e.key, if e.val.Leaf? then Value(e.val) else Nothing)
    ensures ItemPart(v, ind) != [] && ItemPart(v, ind)[0] == DashRow(2 * ind, if v.Leaf? then Value(v) else Nothing)
  {
  }

  /** A block starts at its own indentation, with a dash exactly for a sequence. */
  lemma FirstRow(d: Doc, ind: nat)
    requires Ready(d) && !d.Leaf?
    ensures DocRows(d, ind) != [] && DocRows(d, ind)[0].indent == 2 * ind && (DocRows(d, ind)[0].DashRow? <==> d.List?)
    ensures !DocRows(d, ind)[0].Junk?
  {
    if d.Map? { PartHeads(d.entries[0], d.entries[0].val, ind); } else { PartHeads(Entry("", d.items[0]), d.items[0], ind); }
  }

  // One step of the parser.

  lemma MapStop(rows: seq<Row>, pos: nat, ind: nat, acc: seq<Entry>)
    requires pos <= |rows| && Ends(rows, pos, ind)
    ensures ParseMapping(rows, pos, 2 * ind, acc) == Got(acc, pos)
  {
  }

  lemma SeqStop(rows: seq<Row>, pos: nat, ind: nat, acc: seq<Doc>)
    requires pos <= |rows| && Ends(rows, pos, ind)
    ensures ParseSequence(rows, pos, 2 * ind, acc) == Got(acc, pos)
  {
  }

  lemma MapLeaf(rows: seq<Row>, pos: nat, indent: nat, acc: seq<Entry>, key: string, v: Doc)
    requires pos < |rows| && rows[pos] == KeyRow(indent, key, Value(v))
    ensures ParseMapping(rows, pos, indent, acc) == ParseMapping(rows, pos + 1, indent, Put(acc, key, v))
  {
  }

  lemma MapBlock(rows: seq<Row>, pos: nat, indent: nat, acc: seq<Entry>, key: string, v: Doc, p: nat)
    requires pos + 1 < |rows| && rows[pos] == KeyRow(indent, key, Nothing) && rows[pos + 1].indent > indent
    requires ParseBlock(rows, pos + 1, indent) == Got(v, p)
    ensures p <= |rows| && ParseMapping(rows, pos, indent, acc) == ParseMapping(rows, p, indent, Put(acc, key, v))
  {
  }

  lemma SeqLeaf(rows: seq<Row>, pos: nat, indent: nat, acc: seq<Doc>, v: Doc)
    requires pos < |rows| && rows[pos] == DashRow(indent, Value(v))
    ensures ParseSequence(rows, pos, indent, acc) == ParseSequence(rows, pos + 1, indent, acc + [v])
  {
  }

  lemma SeqBlock(rows: seq<Row>, pos: nat, indent: nat, acc: seq<Doc>, v: Doc, p: nat)
    requires pos + 1 < |rows| && rows[pos] == DashRow(indent, Nothing) && rows[pos + 1].indent > indent
    requires ParseBlock(rows, pos + 1, indent) == Got(v, p)
    ensures p <= |rows| && ParseSequence(rows, pos, indent, acc) == ParseSequence(rows, p, indent, acc + [v])
  {
  }

  lemma {:induction false} BlockParses(d: Doc, ind: nat, rows: seq<Row>, pos: nat, parent: int)
    requires Ready(d) && !d.Leaf? && parent < 2 * ind
    requires Holds(rows, pos, DocRows(d, ind)) && Ends(rows, pos + |DocRows(d, ind)|, ind)
    ensures ParseBlock(rows, pos, parent) == Got(d, pos + |DocRows(d, ind)|)
    decreases d, 1, 0
  {
    FirstRow(d, ind);
    assert rows[pos] == DocRows(d, ind)[0];
    if d.Map? {
      assert DocRows(d, ind) == EntryRows(d, 0, ind) && d.entries[..0] == [];
      EntriesParse(d, 0, ind, rows, pos);
      BlockOfEntries(rows, pos, parent, d.entries, pos + |DocRows(d, ind)|);
    } else {
      assert DocRows(d, ind) == ItemRows(d, 0, ind) && d.items[..0] == [];
      ItemsParse(d, 0, ind, rows, pos);
      BlockOfItems(rows, pos, parent, d.items, pos + |DocRows(d, ind)|);
    }
  }

  lemma BlockOfEntries(rows: seq<Row>, pos: nat, parent: int, es: seq<Entry>, p: nat)
    requires pos < |rows| && rows[pos].indent > parent && !rows[pos].DashRow?
    requires ParseMapping(rows, pos, rows[pos].indent, []) == Got(es, p)
    ensures ParseBlock(rows, pos, parent) == Got(Map(es), p)
  {
  }

  lemma BlockOfItems(rows: seq<Row>, pos: nat, parent: int, ds: seq<Doc>, p: nat)
    requires pos < |rows| && rows[pos].indent > parent && rows[pos].DashRow?
    requires ParseSequence(rows, pos, rows[pos].indent, []) == Got(ds, p)
    ensures ParseBlock(rows, pos, parent) == Got(List(ds), p)
  {
  }

  lemma Appends(d: Doc, i: nat)
    requires Ready(d) && d.Map? && i < |d.entries|
    ensures Put(d.entries[..i], d.entries[i].key, d.entries[i].val) == d.entries[..i + 1]
  {
    assert d.entries[..i + 1] == d.entries[..i] + [d.entries[i]];
    assert forall j | 0 <= j < i :: d.entries[..i][j].key != d.entries[i].key;
    PutNew(d.entries[..i], d.entries[i].key, d.entries[i].val);
  }

  lemma {:induction false} PutNew(es: seq<Entry>, key: string, val: Doc)
    requires forall j | 0 <= j < |es| :: es[j].key != key
    ensures Put(es, key, val) == es + [Entry(key, val)]
  {
    if es != [] {
      PutNew(es[1..], key, val);
      assert [es[0]] + (es[1..] + [Entry(key, val)]) == es + [Entry(key, val)];
    }
  }

  lemma EntryParts(d: Doc, i: nat, ind: nat, rows: seq<Row>, pos: nat)
    requires d.Map? && Supported(d) && i < |d.entries| && Holds(rows, pos, EntryRows(d, i, ind))
    ensures var part := EntryPart(d.entries[i], ind); var more := EntryRows(d, i + 1, ind);
            Holds(rows, pos, part) && Holds(rows, pos + |part|, more) && |EntryRows(d, i, ind)| == |part| + |more|
  {
    HoldsSplit(rows, pos, EntryPart(d.entries[i], ind), EntryRows(d, i + 1, ind));
  }

  lemma ItemParts(d: Doc, i: nat, ind: nat, rows: seq<Row>, pos: nat)
    requires d.List? && Supported(d) && i < |d.items| && Holds(rows, pos, ItemRows(d, i, ind))
    ensures var part := ItemPart(d.items[i], ind); var more := ItemRows(d, i + 1, ind);
            Holds(rows, pos, part) && Holds(rows, pos + |part|, more) && |ItemRows(d, i, ind)| == |part| + |more|
  {
    HoldsSplit(rows, pos, ItemPart(d.items[i], ind), ItemRows(d, i + 1, ind));
  }

  /** After a nested block the next row belongs to a shallower one. */
  lemma ShallowerEntry(d: Doc, i: nat, ind: nat, rows: seq<Row>, pos: nat)
    requires d.Map? && Supported(d) && i <= |d.entries|
    requires Holds(rows, pos, EntryRows(d, i, ind)) && Ends(rows, pos + |EntryRows(d, i, ind)|, ind)
    ensures Ends(rows, pos, ind + 1)
  {
    if i < |d.entries| {
      var e := d.entries[i];
      EntryParts(d, i, ind, rows, pos);
      PartHeads(e, e.val, ind);
      FirstHeld(rows, pos, EntryPart(e, ind));
    }
  }

  lemma ShallowerItem(d: Doc, i: nat, ind: nat, rows: seq<Row>, pos: nat)
    requires d.List? && Supported(d) && i <= |d.items|
    requires Holds(rows, pos, ItemRows(d, i, ind)) && Ends(rows, pos + |ItemRows(d, i, ind)|, ind)
    ensures Ends(rows, pos, ind + 1)
  {
    if i < |d.items| {
      var v := d.items[i];
      ItemParts(d, i, ind, rows, pos);
      PartHeads(Entry("", v), v, ind);
      FirstHeld(rows, pos, ItemPart(v, ind));
    }
  }

  lemma FirstHeld(rows: seq<Row>, pos: nat, part: seq<Row>)
    requires Holds(rows, pos, part) && part != []
    ensures pos < |rows| && rows[pos] == part[0]
  {
    assert rows[pos..pos + |part|][0] == part[0];
  }

  /** A nested value's rows follow its key or dash, and are deeper. */
  lemma BlockOpens(v: Doc, ind: nat, rows: seq<Row>, pos: nat, row: Row)
    requires Ready(v) && !v.Leaf? && Holds(rows, pos, [row] + DocRows(v, ind + 1))
    ensures pos + 1 < |rows| && rows[pos] == row && rows[pos + 1].indent > 2 * ind
    ensures Holds(rows, pos + 1, DocRows(v, ind + 1))
  {
    FirstRow(v, ind + 1);
    HoldsSplit(rows, pos, [row], DocRows(v, ind + 1));
    FirstHeld(rows, pos, [row]);
    FirstHeld(rows, pos + 1, DocRows(v, ind + 1));
  }

  /** One turn of the mapping loop takes exactly one entry's rows. */
  lemma {:induction false} EntryParses(e: Entry, ind: nat, rows: seq<Row>, pos: nat, acc: seq<Entry>)
    requires Ready(e.val) && Holds(rows, pos, EntryPart(e, ind)) && Ends(rows, pos + |EntryPart(e, ind)|, ind + 1)
    ensures ParseMapping(rows, pos, 2 * ind, acc) == ParseMapping(rows, pos + |EntryPart(e, ind)|, 2 * ind, Put(acc, e.key, e.val))
    decreases e.val, 2, 0
  {
    if e.val.Leaf? {
      FirstHeld(rows, pos, EntryPart(e, ind));
      MapLeaf(rows, pos, 2 * ind, acc, e.key, e.val);
    } else {
      BlockOpens(e.val, ind, rows, pos, KeyRow(2 * ind, e.key, Nothing));
      BlockParses(e.val, ind + 1, rows, pos + 1, 2 * ind);
      MapBlock(rows, pos, 2 * ind, acc, e.key, e.val, pos + 1 + |DocRows(e.val, ind + 1)|);
    }
  }

  lemma {:induction false} ItemParses(v: Doc, ind: nat, rows: seq<Row>, pos: nat, acc: seq<Doc>)
    requires Ready(v) && Holds(rows, pos, ItemPart(v, ind)) && Ends(rows, pos + |ItemPart(v, ind)|, ind + 1)
    ensures ParseSequence(rows, pos, 2 * ind, acc) == ParseSequence(rows, pos + |ItemPart(v, ind)|, 2 * ind, acc + [v])
    decreases v, 2, 0
  {
    if v.Leaf? {
      FirstHeld(rows, pos, ItemPart(v, ind));
      SeqLeaf(rows, pos, 2 * ind, acc, v);
    } else {
      BlockOpens(v, ind, rows, pos, DashRow(2 * ind, Nothing));
      BlockParses(v, ind + 1, rows, pos + 1, 2 * ind);
      SeqBlock(rows, pos, 2 * ind, acc, v, pos + 1 + |DocRows(v, ind + 1)|);
    }
  }

  lemma {:induction false} EntriesParse(d: Doc, i: nat, ind: nat, rows: seq<Row>, pos: nat)
    requires Ready(d) && d.Map? && i <= |d.entries|
    requires Holds(rows, pos, EntryRows(d, i, ind)) && Ends(rows, pos + |EntryRows(d, i, ind)|, ind)
    ensures ParseMapping(rows, pos, 2 * ind, d.entries[..i]) == Got(d.entries, pos + |EntryRows(d, i, ind)|)
    decreases d, 0, |d.entries| - i
  {
    if i == |d.entries| {
      assert d.entries[..i] == d.entries;
      MapStop(rows, pos, ind, d.entries);
    } else {
      var next := pos + |EntryPart(d.entries[i], ind)|;
      EntryTurn(d, i, ind, rows, pos);
      EntriesParse(d, i + 1, ind, rows, next);
    }
  }

  lemma {:induction false} EntryTurn(d: Doc, i: nat, ind: nat, rows: seq<Row>, pos: nat)
    requires Ready(d) && d.Map? && i < |d.entries|
    requires Holds(rows, pos, EntryRows(d, i, ind)) && Ends(rows, pos + |EntryRows(d, i, ind)|, ind)
    ensures var e := d.entries[i]; var next := pos + |EntryPart(e, ind)|;
            && Holds(rows, next, EntryRows(d, i + 1, ind)) && next + |EntryRows(d, i + 1, ind)| == pos + |EntryRows(d, i, ind)|
            && ParseMapping(rows, pos, 2 * ind, d.entries[..i]) == ParseMapping(rows, next, 2 * ind, d.entries[..i + 1])
    decreases d, 0, |d.entries| - i, 0
  {
    EntryParts(d, i, ind, rows, pos);
    ShallowerEntry(d, i + 1, ind, rows, pos + |EntryPart(d.entries[i], ind)|);
    EntryParses(d.entries[i], ind, rows, pos, d.entries[..i]);
    Appends(d, i);
  }

  lemma {:induction false} ItemsParse(d: Doc, i: nat, ind: nat, rows: seq<Row>, pos: nat)
    requires Ready(d) && d.List? && i <= |d.items|
    requires Holds(rows, pos, ItemRows(d, i, ind)) && Ends(rows, pos + |ItemRows(d, i, ind)|, ind)
    ensures ParseSequence(rows, pos, 2 * ind, d.items[..i]) == Got(d.items, pos + |ItemRows(d, i, ind)|)
    decreases d, 0, |d.items| - i
  {
    if i == |d.items| {
      assert d.items[..i] == d.items;
      SeqStop(rows, pos, ind, d.items);
    } else {
      var next := pos + |ItemPart(d.items[i], ind)|;
      ItemTurn(d, i, ind, rows, pos);
      ItemsParse(d, i + 1, ind, rows, next);
    }
  }

  lemma {:induction false} ItemTurn(d: Doc, i: nat, ind: nat, rows: seq<Row>, pos: nat)
    requires Ready(d) && d.List? && i < |d.items|
    requires Holds(rows, pos, ItemRows(d, i, ind)) && Ends(rows, pos + |ItemRows(d, i, ind)|, ind)
    ensures var next := pos + |ItemPart(d.items[i], ind)|;
            && Holds(rows, next, ItemRows(d, i + 1, ind)) && next + |ItemRows(d, i + 1, ind)| == pos + |ItemRows(d, i, ind)|
            && ParseSequence(rows, pos, 2 * ind, d.items[..i]) == ParseSequence(rows, next, 2 * ind, d.items[..i + 1])
    decreases d, 0, |d.items| - i, 0
  {
    ItemParts(d, i, ind, rows, pos);
    ShallowerItem(d, i + 1, ind, rows, pos + |ItemPart(d.items[i], ind)|);
    ItemParses(d.items[i], ind, rows, pos, d.items[..i]);
    assert d.items[..i + 1] == d.items[..i] + [d.items[i]];
  }

  // ---- Emitted lines survive the clean-up ----

  predicate AllSurvive(lines: seq<string>) { forall i | 0 <= i < |lines| :: Survives(lines[i]) }

  predicate AllTidy(lines: seq<string>) { forall i | 0 <= i < |lines| :: TidyLine(lines[i]) }

  predicate AllQuiet(lines: seq<string>) { forall i | 0 <= i < |lines| :: Quiet(START, lines[i]) }

  lemma EntryText(ind: nat, e: Entry)
    ensures e.val.Leaf? ==> Pad(ind) + QuoteScalar(e.key) + ":" + TailOf(LeafOf(e.val)) == Pad(ind) + QuoteScalar(e.key) + ": " + DumpScalar(e.val.scalar)
    ensures !e.val.Leaf? ==> Pad(ind) + QuoteScalar(e.key) + ":" + TailOf(LeafOf(e.val)) == Pad(ind) + QuoteScalar(e.key) + ":"
  {
    var head := Pad(ind) + QuoteScalar(e.key);
    if e.val.Leaf? { assert head + ":" + TailOf(LeafOf(e.val)) == head + ": " + DumpScalar(e.val.scalar); }
  }

  lemma ItemText(ind: nat, v: Doc)
    ensures v.Leaf? ==> Pad(ind) + "-" + TailOf(LeafOf(v)) == Pad(ind) + "- " + DumpScalar(v.scalar)
    ensures !v.Leaf? ==> Pad(ind) + "-" + TailOf(LeafOf(v)) == Pad(ind) + "-"
  {
    if v.Leaf? { assert Pad(ind) + "-" + TailOf(LeafOf(v)) == Pad(ind) + "- " + DumpScalar(v.scalar); }
  }

  /** The first line of an entry, and of an item. */
  function EntryLine(e: Entry, ind: nat): string { Pad(ind) + QuoteScalar(e.key) + ":" + TailOf(LeafOf(e.val)) }

  function ItemLine(v: Doc, ind: nat): string { Pad(ind) + "-" + TailOf(LeafOf(v)) }

  function BlockLines(v: Doc, ind: nat): seq<string>
    requires Supported(v)
  {
    if v.Leaf? then [] else Emit(v, ind)
  }

  lemma EntryLines(d: Doc, i: nat, ind: nat)
    requires Supported(d) && d.Map? && i < |d.entries|
    ensures EmitEntries(d, i, ind) == [EntryLine(d.entries[i], ind)] + BlockLines(d.entries[i].val, ind + 1) + EmitEntries(d, i + 1, ind)
  {
    EntryText(ind, d.entries[i]);
  }

  lemma ItemLines(d: Doc, i: nat, ind: nat)
    requires Supported(d) && d.List? && i < |d.items|
    ensures EmitItems(d, i, ind) == [ItemLine(d.items[i], ind)] + BlockLines(d.items[i], ind + 1) + EmitItems(d, i + 1, ind)
  {
    ItemText(ind, d.items[i]);
  }

  lemma {:induction false} EmitTidy(d: Doc, ind: nat)
    requires Supported(d) && !d.Leaf? && Legible(d)
    ensures AllTidy(Emit(d, ind))
    decreases d, 1, 0
  {
    if d.Map? && d.entries == [] {
      BracesTidy(ind, "{}");
    } else if d.List? && d.items == [] {
      BracesTidy(ind, "[]");
    } else if d.Map? {
      EntriesTidy(d, 0, ind);
    } else {
      ItemsTidy(d, 0, ind);
    }
  }

  lemma {:induction false} EntriesTidy(d: Doc, i: nat, ind: nat)
    requires Supported(d) && d.Map? && Legible(d) && i <= |d.entries|
    ensures AllTidy(EmitEntries(d, i, ind))
    decreases d, 0, |d.entries| - i
  {
    if i < |d.entries| {
      var e := d.entries[i];
      LegibleEntry(d, i);
      KeyLineTidy(ind, e.key, LeafOf(e.val));
      if !e.val.Leaf? { EmitTidy(e.val, ind + 1); }
      EntriesTidy(d, i + 1, ind);
      EntryLines(d, i, ind);
      TidyJoin(EntryLine(e, ind), BlockLines(e.val, ind + 1), EmitEntries(d, i + 1, ind));
    }
  }

  lemma {:induction false} ItemsTidy(d: Doc, i: nat, ind: nat)
    requires Supported(d) && d.List? && Legible(d) && i <= |d.items|
    ensures AllTidy(EmitItems(d, i, ind))
    decreases d, 0, |d.items| - i
  {
    if i < |d.items| {
      var v := d.items[i];
      assert Legible(v);
      DashLineTidy(ind, LeafOf(v));
      if !v.Leaf? { EmitTidy(v, ind + 1); }
      ItemsTidy(d, i + 1, ind);
      ItemLines(d, i, ind);
      TidyJoin(ItemLine(v, ind), BlockLines(v, ind + 1), EmitItems(d, i + 1, ind));
    }
  }

  lemma TidyJoin(line: string, block: seq<string>, more: seq<string>)
    ensures AllTidy([line] + block + more) <==> TidyLine(line) && AllTidy(block) && AllTidy(more)
    ensures AllQuiet([line] + block + more) <==> Quiet(START, line) && AllQuiet(block) && AllQuiet(more)
  {
    var all := [line] + block + more;
    assert all[0] == line;
    assert forall i | 0 <= i < |block| :: all[1 + i] == block[i];
    assert forall i | 0 <= i < |more| :: all[1 + |block| + i] == more[i];
  }

  lemma LegibleEntry(d: Doc, i: nat)
    requires d.Map? && Legible(d) && i < |d.entries|
    ensures var e := d.entries[i]; NoColon(e.key) && NoOdd(e.key) && Legible(e.val) && (e.val.Leaf? ==> LegibleScalar(e.val.scalar))
  {
  }

  /** Where a quoted key ends in a backslash, its value shows the scan no comment. */
  predicate Uncut(d: Doc)
    decreases d
  {
    match d
    case Map(es) => forall i | 0 <= i < |es| :: EntryUncut(es[i]) && Uncut(es[i].val)
    case List(ds) => forall i | 0 <= i < |ds| :: Uncut(ds[i])
    case _ => true
  }

  /** No emitted line has a comment exactly when the document is `Uncut`. */
  lemma {:induction false} EmitQuiet(d: Doc, ind: nat)
    requires Supported(d) && !d.Leaf?
    ensures AllQuiet(Emit(d, ind)) <==> Uncut(d)
    decreases d, 1, 0
  {
    if d.Map? && d.entries == [] {
      BracesTidy(ind, "{}");
    } else if d.List? && d.items == [] {
      BracesTidy(ind, "[]");
    } else if d.Map? {
      EntriesQuiet(d, 0, ind);
    } else {
      ItemsQuiet(d, 0, ind);
    }
  }

  predicate EntryUncut(e: Entry) { Closes(e.key) || ValueUncut(LeafOf(e.val)) }

  predicate EntriesUncut(d: Doc, i: nat)
    requires d.Map?
  {
    forall j | i <= j < |d.entries| :: EntryUncut(d.entries[j]) && Uncut(d.entries[j].val)
  }

  lemma EntriesUncutStep(d: Doc, i: nat)
    requires d.Map? && i < |d.entries|
    ensures EntriesUncut(d, i) <==> EntryUncut(d.entries[i]) && Uncut(d.entries[i].val) && EntriesUncut(d, i + 1)
  {
  }

  predicate ItemsUncut(d: Doc, i: nat)
    requires d.List?
  {
    forall j | i <= j < |d.items| :: Uncut(d.items[j])
  }

  lemma {:induction false} EntriesQuiet(d: Doc, i: nat, ind: nat)
    requires Supported(d) && d.Map? && i <= |d.entries|
    ensures AllQuiet(EmitEntries(d, i, ind)) <==> EntriesUncut(d, i)
    decreases d, 0, |d.entries| - i
  {
    if i < |d.entries| {
      var e := d.entries[i];
      KeyLineQuiet(ind, e.key, LeafOf(e.val));
      if !e.val.Leaf? { EmitQuiet(e.val, ind + 1); }
      EntriesQuiet(d, i + 1, ind);
      EntriesUncutStep(d, i);
      EntryLines(d, i, ind);
      TidyJoin(EntryLine(e, ind), BlockLines(e.val, ind + 1), EmitEntries(d, i + 1, ind));
    }
  }

  lemma {:induction false} ItemsQuiet(d: Doc, i: nat, ind: nat)
    requires Supported(d) && d.List? && i <= |d.items|
    ensures AllQuiet(EmitItems(d, i, ind)) <==> ItemsUncut(d, i)
    decreases d, 0, |d.items| - i
  {
    if i < |d.items| {
      var v := d.items[i];
      DashLineQuiet(ind, LeafOf(v));
      if !v.Leaf? { EmitQuiet(v, ind + 1); }
      ItemsQuiet(d, i + 1, ind);
      ItemLines(d, i, ind);
      TidyJoin(ItemLine(v, ind), BlockLines(v, ind + 1), EmitItems(d, i + 1, ind));
    }
  }

  lemma EmitSurvives(d: Doc, ind: nat)
    requires Supported(d) && !d.Leaf? && Legible(d) && Uncut(d)
    ensures AllSurvive(Emit(d, ind))
  {
    var lines := Emit(d, ind);
    EmitTidy(d, ind);
    EmitQuiet(d, ind);
    forall i | 0 <= i < |lines| ensures Survives(lines[i]) { TidySurvives(lines[i]); }
  }

  lemma {:induction false} KeptBack(lines: seq<string>)
    requires AllSurvive(lines)
    ensures Kept(lines) == lines
    decreases |lines|
  {
    if lines != [] {
      assert Survives(lines[0]) && forall i | 0 <= i < |lines[1..]| :: lines[1..][i] == lines[i + 1];
      KeptBack(lines[1..]);
    }
  }

  /** Reading a legible document's text is parsing its rows. */
  lemma ReadsRows(d: Doc)
    requires Supported(d) && d.Map? && Legible(d) && Uncut(d)
    ensures Load(JoinLines(Emit(d, 0))) == ParseRows(DocRows(d, 0))
  {
    var lines := Emit(d, 0);
    EmitSurvives(d, 0);
    forall i | 0 <= i < |lines| ensures OneLine(lines[i]) { assert Survives(lines[i]); }
    SplitBack(lines);
    KeptBack(lines);
    EmitRows(d, 0);
  }

  /** A faithful document is read back as written. */
  lemma RoundTrip(d: Doc)
    requires d.Map? && Supported(d) && Dictionary(d) && Faithful(d) && Uncut(d)
    ensures Load(Dump(d).value) == Some(d)
  {
    var rows := DocRows(d, 0);
    ReadsRows(d);
    FirstRow(d, 0);
    assert rows[0..0 + |rows|] == rows;
    BlockParses(d, 0, rows, 0, -1);
  }
}
