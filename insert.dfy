/** `TitlePageWordGenerator.find_and_insert_table_after_text`: the first body
    paragraph that mentions a placeholder becomes the anchor of a new bordered
    table; when no body paragraph does, the first table-cell paragraph that
    mentions it is replaced by a one-line summary. */
module TableInsert {
  import opened Wrappers
  import opened Text
  import opened Seqs
  import opened DocModel
  import TableBuilders

  /** `search_text in paragraph.text`. */
  predicate Mentions(p: Paragraph, search: string) {
    Contains(ParagraphText(p), search)
  }

  // ---- the body paragraphs ----

  /** A body paragraph that mentions the search text. */
  predicate Hit(b: Block, search: string) {
    b.Para? && Mentions(b.paragraph, search)
  }

  function HitAt(blocks: seq<Block>, search: string): nat -> bool {
    (j: nat) => j < |blocks| && Hit(blocks[j], search)
  }

  /** The block of the first body paragraph that mentions the search text. */
  function FirstHit(blocks: seq<Block>, search: string): Option<nat> {
    Leftmost(HitAt(blocks, search), 0, |blocks|)
  }

  /** The title run: bold 12-point Arial. */
  const TitleFormat := Format(Some("Arial"), Some(12), true, false, None)

  /** A matched paragraph after `clear()`, holding the title as one run when
      there is a title. */
  function Anchor(title: string): Paragraph {
    if title == "" then Cleared else Paragraph([TextRun(title, TitleFormat)])
  }

  function Retitle(search: string, title: string): (nat, Paragraph) -> Paragraph {
    (k, p) => if Mentions(p, search) then Anchor(title) else p
  }

  /** Every body paragraph that mentions the search text made an anchor:
      what the loop leaves when no table can be built. */
  function Retitled(blocks: seq<Block>, search: string, title: string): seq<Block> {
    MapParagraphs(blocks, Retitle(search, title))
  }

  // ---- the table cells ----

  /** The text that replaces a placeholder found in a table cell. */
  function Summary(title: string, rows: nat): string {
    if title != "" then title + ": " + NatToString(rows) + " items"
    else "Table with " + NatToString(rows) + " rows"
  }

  function ParagraphFix(search: string, summary: string): Paragraph -> Option<Paragraph> {
    (p: Paragraph) => if Mentions(p, search) then Some(WithText(summary)) else None
  }

  function CellFix(search: string, summary: string): Cell -> Option<Cell> {
    (c: Cell) => match ReplaceFirst(c.paragraphs, ParagraphFix(search, summary))
         case Some(ps) => Some(Cell(ps))
         case None => None
  }

  function RowFix(search: string, summary: string): seq<Cell> -> Option<seq<Cell>> {
    (cells: seq<Cell>) => ReplaceFirst(cells, CellFix(search, summary))
  }

  function TableFix(search: string, summary: string): Table -> Option<Table> {
    (t: Table) => match ReplaceFirst(t.rows, RowFix(search, summary))
         case Some(rows) => Some(t.(rows := rows))
         case None => None
  }

  function BlockFix(search: string, summary: string): Block -> Option<Block> {
    (b: Block) => match b
         case Para(_) => None
         case Tbl(t) =>
           match TableFix(search, summary)(t)
           case Some(u) => Some(Tbl(u))
           case None => None
  }

  /** The body with the first table-cell paragraph that mentions the search
      text (tables, rows, cells and paragraphs in order) set to the summary;
      nothing when no cell mentions it. */
  function CellFallback(blocks: seq<Block>, search: string, summary: string): Option<seq<Block>> {
    ReplaceFirst(blocks, BlockFix(search, summary))
  }

  predicate ParagraphsMention(ps: seq<Paragraph>, search: string) {
    exists k :: 0 <= k < |ps| && Mentions(ps[k], search)
  }

  predicate RowMentions(cells: seq<Cell>, search: string) {
    exists k :: 0 <= k < |cells| && ParagraphsMention(cells[k].paragraphs, search)
  }

  predicate TableMentions(t: Table, search: string) {
    exists k :: 0 <= k < |t.rows| && RowMentions(t.rows[k], search)
  }

  /** Some paragraph of some cell of some body table mentions the text. */
  predicate TablesMention(blocks: seq<Block>, search: string) {
    exists j :: 0 <= j < |blocks| && blocks[j].Tbl? && TableMentions(blocks[j].table, search)
  }

  // ---- the search, level by level ----

  /** The paragraphs of one cell. */
  method ReplaceInParagraphs(ps: seq<Paragraph>, search: string, summary: string)
    returns (r: Option<seq<Paragraph>>)
    ensures r == ReplaceFirst(ps, ParagraphFix(search, summary))
  {
    for k := 0 to |ps|
      invariant forall i :: 0 <= i < k ==> ParagraphFix(search, summary)(ps[i]).None?
    {
      if Mentions(ps[k], search) {
        ReplaceFirstAt(ps, ParagraphFix(search, summary), k);
        return Some(ps[k := WithText(summary)]);
      }
    }
    ReplaceFirstNone(ps, ParagraphFix(search, summary));
    return None;
  }

  /** The cells of one row. */
  method ReplaceInRow(cells: seq<Cell>, search: string, summary: string)
    returns (r: Option<seq<Cell>>)
    ensures r == RowFix(search, summary)(cells)
  {
    for k := 0 to |cells|
      invariant forall i :: 0 <= i < k ==> CellFix(search, summary)(cells[i]).None?
    {
      var ps := ReplaceInParagraphs(cells[k].paragraphs, search, summary);
      if ps.Some? {
        ReplaceFirstAt(cells, CellFix(search, summary), k);
        return Some(cells[k := Cell(ps.value)]);
      }
    }
    ReplaceFirstNone(cells, CellFix(search, summary));
    return None;
  }

  /** The rows of one table. */
  method ReplaceInTable(t: Table, search: string, summary: string)
    returns (r: Option<Table>)
    ensures r == TableFix(search, summary)(t)
  {
    for k := 0 to |t.rows|
      invariant forall i :: 0 <= i < k ==> RowFix(search, summary)(t.rows[i]).None?
    {
      var cells := ReplaceInRow(t.rows[k], search, summary);
      if cells.Some? {
        ReplaceFirstAt(t.rows, RowFix(search, summary), k);
        return Some(t.(rows := t.rows[k := cells.value]));
      }
    }
    ReplaceFirstNone(t.rows, RowFix(search, summary));
    return None;
  }

  /** The tables of the body: the first cell paragraph that mentions the
      text gets the summary. */
  method ReplaceInTables(doc: Document, search: string, summary: string) returns (found: bool)
    modifies doc
    ensures match CellFallback(old(doc.blocks), search, summary)
            case Some(b) => found && doc.blocks == b
            case None => !found && doc.blocks == old(doc.blocks)
  {
    var b := doc.blocks;
    for j := 0 to |b|
      invariant doc.blocks == b
      invariant forall i :: 0 <= i < j ==> BlockFix(search, summary)(b[i]).None?
    {
      if b[j].Tbl? {
        var u := ReplaceInTable(b[j].table, search, summary);
        if u.Some? {
          ReplaceFirstAt(b, BlockFix(search, summary), j);
          doc.SetTable(j, u.value);
          return true;
        }
      }
    }
    ReplaceFirstNone(b, BlockFix(search, summary));
    return false;
  }

  /** The loop over the body paragraphs: the first one that mentions
      `search` is cleared or retitled and gets `table` right after it; with
      no table every mentioning paragraph is cleared or retitled. */
  method AnchorTable(doc: Document, search: string, table: Option<Table>, title: string)
    returns (inserted: bool)
    modifies doc
    ensures var b := old(doc.blocks);
            var first := FirstHit(b, search);
            if table.Some? && first.Some? then
              inserted && doc.blocks == b[..first.value] + [Para(Anchor(title)), Tbl(table.value)] + b[first.value + 1..]
            else
              !inserted && doc.blocks == Retitled(b, search, title)
  {
    var b := doc.blocks;
    var g := Retitle(search, title);
    for j := 0 to |b|
      invariant doc.blocks == MapParagraphs(b[..j], g) + b[j..]
      invariant table.Some? ==> forall i :: 0 <= i < j ==> !Hit(b[i], search)
    {
      RetitleNext(b, search, title, j);
      if Hit(b[j], search) {
        doc.SetParagraph(j, Anchor(title));
        if table.Some? {
          AnchorInserted(b, search, title, table.value, j);
          doc.InsertTableAfter(j, table.value);
          return true;
        }
      }
    }
    assert b[..|b|] == b;
    if table.Some? {
      FirstHitNone(b, search);
    }
    return false;
  }

  /** The body after `find_and_insert_table_after_text`. */
  function AfterInsert(b: seq<Block>, search: string, data: seq<seq<string>>, headers: seq<string>,
                       title: string): seq<Block>
  {
    var table := TableBuilders.CreateBorderedTable(data, headers);
    var first := FirstHit(b, search);
    if table.Some? && first.Some? then b[..first.value] + [Para(Anchor(title)), Tbl(table.value)] + b[first.value + 1..]
    else
      var b1 := Retitled(b, search, title);
      match CellFallback(b1, search, Summary(title, |data|))
      case Some(b2) => b2
      case None => b1
  }

  /** Inserts the table built from `data` and `headers` after the first body
      paragraph that mentions `search`, which is cleared or retitled, and
      reports whether a table or summary went in. When no table can be built
      every mentioning paragraph is cleared or retitled; when nothing was
      inserted the table cells are searched instead. */
  method FindAndInsertTableAfterText(doc: Document, search: string, data: seq<seq<string>>,
                                     headers: seq<string>, title: string)
    returns (inserted: bool)
    modifies doc
    ensures doc.blocks == AfterInsert(old(doc.blocks), search, data, headers, title)
    ensures var b := old(doc.blocks);
            var table := TableBuilders.CreateBorderedTable(data, headers);
            var first := FirstHit(b, search);
            if table.Some? && first.Some? then
              inserted && doc.blocks == b[..first.value] + [Para(Anchor(title)), Tbl(table.value)] + b[first.value + 1..]
            else
              var b1 := Retitled(b, search, title);
              match CellFallback(b1, search, Summary(title, |data|))
              case Some(b2) => inserted && doc.blocks == b2
              case None => !inserted && doc.blocks == b1
  {
    var table := TableBuilders.CreateBorderedTable(data, headers);
    inserted := AnchorTable(doc, search, table, title);
    if !inserted {
      inserted := ReplaceInTables(doc, search, Summary(title, |data|));
    }
  }

  /** One more block through the retitling loop. */
  lemma RetitleNext(b: seq<Block>, search: string, title: string, j: nat)
    requires j < |b|
    ensures var cur := MapParagraphs(b[..j], Retitle(search, title)) + b[j..];
            && j < |cur| && cur[j] == b[j]
            && MapParagraphs(b[..j + 1], Retitle(search, title)) + b[j + 1..]
               == cur[j := if Hit(b[j], search) then Para(Anchor(title)) else b[j]]
  {
    var g := Retitle(search, title);
    MapParagraphsNext(b, g, j);
    var m := MapParagraphs(b[..j], g);
    var k := ParagraphIndex(b, j);
    assert MapBlock(b[j], g, k) == if Hit(b[j], search) then Para(Anchor(title)) else b[j];
    assert (m + b[j..])[j := MapBlock(b[j], g, k)] == m + [MapBlock(b[j], g, k)] + b[j + 1..];
  }

  /** At the first mentioning paragraph the anchor and the table go in
      after the blocks before it, which are unchanged. */
  lemma AnchorInserted(b: seq<Block>, search: string, title: string, t: Table, j: nat)
    requires j < |b| && Hit(b[j], search)
    requires forall i :: 0 <= i < j ==> !Hit(b[i], search)
    ensures FirstHit(b, search) == Some(j)
    ensures var c := (MapParagraphs(b[..j], Retitle(search, title)) + b[j..])[j := Para(Anchor(title))];
            c[..j + 1] + [Tbl(t)] + c[j + 1..] == b[..j] + [Para(Anchor(title)), Tbl(t)] + b[j + 1..]
  {
    AnchorFirst(b, search, title, j);
    InsertedShape(b, j, Anchor(title), t);
    FirstHitIs(b, search, j);
  }

  /** At the first mentioning paragraph the blocks before it are unchanged,
      so the anchor and the table go in after them. */
  lemma AnchorFirst(b: seq<Block>, search: string, title: string, j: nat)
    requires j < |b|
    requires forall i :: 0 <= i < j ==> !Hit(b[i], search)
    ensures MapParagraphs(b[..j], Retitle(search, title)) + b[j..] == b
  {
    NoHitKeeps(b[..j], search, title);
    assert b[..j] + b[j..] == b;
  }

  lemma InsertedShape(b: seq<Block>, j: nat, anchor: Paragraph, t: Table)
    requires j < |b|
    ensures var c := b[j := Para(anchor)];
            c[..j + 1] + [Tbl(t)] + c[j + 1..] == b[..j] + [Para(anchor), Tbl(t)] + b[j + 1..]
  {
    var c := b[j := Para(anchor)];
    assert c[..j + 1] == b[..j] + [Para(anchor)];
    assert c[j + 1..] == b[j + 1..];
  }

  /** A body with no mentioning paragraph is not retitled. */
  lemma NoHitKeeps(blocks: seq<Block>, search: string, title: string)
    requires forall i :: 0 <= i < |blocks| ==> !Hit(blocks[i], search)
    ensures Retitled(blocks, search, title) == blocks
  {
    MapParagraphsKeeps(blocks, Retitle(search, title));
  }

  lemma FirstHitIs(blocks: seq<Block>, search: string, j: nat)
    requires j < |blocks| && Hit(blocks[j], search)
    requires forall i :: 0 <= i < j ==> !Hit(blocks[i], search)
    ensures FirstHit(blocks, search) == Some(j)
  {
    var ok := HitAt(blocks, search);
    assert ok(j);
    var r := FirstHit(blocks, search);
    assert r.Some? && r.value <= j;
    assert !ok(r.value) || r.value >= j;
  }

  lemma FirstHitNone(blocks: seq<Block>, search: string)
    requires forall i :: 0 <= i < |blocks| ==> !Hit(blocks[i], search)
    ensures FirstHit(blocks, search).None?
  {
  }

  // ---- what the insertion promises ----

  /** The anchor reads as the title, or as nothing without one. */
  lemma AnchorText(title: string)
    ensures ParagraphText(Anchor(title)) == title
  {
    if title == "" {
      WithTextText(title);
    } else {
      RunsTextAppend([], TextRun(title, TitleFormat));
      assert [] + [TextRun(title, TitleFormat)] == Anchor(title).runs;
    }
  }

  /** With a table built and a mentioning paragraph found, no paragraph
      before it mentions the text, the table is the block right after it,
      and of `doc.paragraphs` only that paragraph changes, to the anchor. */
  lemma OnlyFirstAnchored(b: seq<Block>, search: string, title: string, t: Table)
    requires FirstHit(b, search).Some?
    ensures var j := FirstHit(b, search).value;
            var r := b[..j] + [Para(Anchor(title)), Tbl(t)] + b[j + 1..];
            && Hit(b[j], search)
            && (forall i :: 0 <= i < j ==> !Hit(b[i], search))
            && r[j] == Para(Anchor(title)) && r[j + 1] == Tbl(t)
            && ParagraphIndex(b, j) < |BodyParagraphs(b)|
            && BodyParagraphs(r) == BodyParagraphs(b)[ParagraphIndex(b, j) := Anchor(title)]
  {
    var j := FirstHit(b, search).value;
    assert HitAt(b, search)(j);
    forall i | 0 <= i < j ensures !Hit(b[i], search) {
      assert !HitAt(b, search)(i);
    }
    var c := b[j := Para(Anchor(title))];
    InsertedShape(b, j, Anchor(title), t);
    BodyParagraphsInsertTable(c, j + 1, t);
    assert c[..j + 1] + [Tbl(t)] + c[j + 1..] == b[..j] + [Para(Anchor(title)), Tbl(t)] + b[j + 1..];
    BodyParagraphsUpdate(b, j, Anchor(title));
  }

  /** Without a table every mentioning body paragraph becomes the anchor
      and every other paragraph stays. */
  lemma RetitledParagraphs(b: seq<Block>, search: string, title: string)
    ensures var ps := BodyParagraphs(b);
            var qs := BodyParagraphs(Retitled(b, search, title));
            && |qs| == |ps|
            && forall k :: 0 <= k < |ps| ==> qs[k] == if Mentions(ps[k], search) then Anchor(title) else ps[k]
  {
    BodyParagraphsMap(b, Retitle(search, title));
  }

  lemma CellFixFinds(c: Cell, search: string, summary: string)
    ensures CellFix(search, summary)(c).Some? <==> ParagraphsMention(c.paragraphs, search)
  {
    ReplaceFirstNone(c.paragraphs, ParagraphFix(search, summary));
  }

  lemma RowFixFinds(cells: seq<Cell>, search: string, summary: string)
    ensures RowFix(search, summary)(cells).Some? <==> RowMentions(cells, search)
  {
    ReplaceFirstNone(cells, CellFix(search, summary));
    forall k | 0 <= k < |cells| {
      CellFixFinds(cells[k], search, summary);
    }
  }

  lemma TableFixFinds(t: Table, search: string, summary: string)
    ensures TableFix(search, summary)(t).Some? <==> TableMentions(t, search)
  {
    ReplaceFirstNone(t.rows, RowFix(search, summary));
    forall k | 0 <= k < |t.rows| {
      RowFixFinds(t.rows[k], search, summary);
    }
  }

  /** The table-cell search changes something exactly when a paragraph in
      some cell of some body table mentions the text. */
  lemma FallbackFinds(b: seq<Block>, search: string, summary: string)
    ensures CellFallback(b, search, summary).Some? <==> TablesMention(b, search)
  {
    ReplaceFirstNone(b, BlockFix(search, summary));
    forall j | 0 <= j < |b| && b[j].Tbl? {
      TableFixFinds(b[j].table, search, summary);
    }
  }

  /** The table-cell search changes one table and leaves `doc.paragraphs`
      as it was. */
  lemma FallbackKeepsBody(b: seq<Block>, search: string, summary: string)
    requires CellFallback(b, search, summary).Some?
    ensures BodyParagraphs(CellFallback(b, search, summary).value) == BodyParagraphs(b)
  {
    var f := BlockFix(search, summary);
    ReplaceFirstSome(b, f);
    var i :| 0 <= i < |b| && f(b[i]).Some? && CellFallback(b, search, summary).value == b[i := f(b[i]).value];
    assert b[i].Tbl?;
    BodyParagraphsSetTable(b, i, f(b[i]).value.table);
  }

  /** When nothing in the document mentions the text, nothing changes and
      nothing is reported inserted. */
  lemma NoMatchUnchanged(b: seq<Block>, search: string, title: string, summary: string)
    requires forall j :: 0 <= j < |b| ==> !Hit(b[j], search)
    requires !TablesMention(b, search)
    ensures FirstHit(b, search).None?
    ensures Retitled(b, search, title) == b
    ensures CellFallback(Retitled(b, search, title), search, summary).None?
  {
    FirstHitNone(b, search);
    NoHitKeeps(b, search, title);
    FallbackFinds(b, search, summary);
  }
}
