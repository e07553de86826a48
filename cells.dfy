/** The table-cell pass of `generate_with_proper_tables`: every paragraph of
    every cell of every body table gets the replacements, and a blank
    paragraph in the last cell of a row that mentions "AI Generated" gets the
    generation date (the version-history row of the template). Cells are
    visited row by row, cell by cell, paragraph by paragraph, and the row is
    read as the earlier steps left it. */
module VersionCells {
  import opened Text
  import opened Seqs
  import opened DocModel
  import opened Substitution

  const AiGenerated := "AI Generated"

  /** `[c.text.strip() for c in row.cells]`. */
  function RowTexts(row: seq<Cell>): seq<string> {
    Map((c: Cell) => Strip(CellText(c)), row)
  }

  /** `"AI Generated" in " ".join(row_texts)`. */
  predicate MentionsAiGenerated(row: seq<Cell>) {
    Contains(Join(RowTexts(row), " "), AiGenerated)
  }

  /** Same cells, each with the same number of paragraphs. */
  predicate SameShape(r: seq<Cell>, row: seq<Cell>) {
    |r| == |row| && forall c :: 0 <= c < |row| ==> |r[c].paragraphs| == |row[c].paragraphs|
  }

  function SetCellParagraph(row: seq<Cell>, c: nat, k: nat, p: Paragraph): (r: seq<Cell>)
    requires c < |row| && k < |row[c].paragraphs|
    ensures SameShape(r, row) && r[c].paragraphs[k] == p
    ensures forall c', k' :: 0 <= c' < |row| && 0 <= k' < |row[c'].paragraphs| && (c' != c || k' != k) ==>
              r[c'].paragraphs[k'] == row[c'].paragraphs[k']
  {
    row[c := Cell(row[c].paragraphs[k := p])]
  }

  /** Paragraph `k` of cell `c`: the replacements, then the date when it is
      left blank in the last cell of a row whose text mentions
      "AI Generated". */
  function Step(row: seq<Cell>, c: nat, k: nat, pairs: seq<Pair>, date: string): (r: seq<Cell>)
    requires c < |row| && k < |row[c].paragraphs|
    ensures SameShape(r, row)
  {
    var p1 := Substituted(row[c].paragraphs[k], pairs);
    var row1 := SetCellParagraph(row, c, k, p1);
    if Strip(ParagraphText(p1)) == [] && MentionsAiGenerated(row1) && c == |row| - 1
    then SetCellParagraph(row1, c, k, WithText(date))
    else row1
  }

  /** The row after every step before paragraph `k` of cell `c`. */
  function Through(row: seq<Cell>, c: nat, k: nat, pairs: seq<Pair>, date: string): (r: seq<Cell>)
    requires c <= |row| && (c < |row| ==> k <= |row[c].paragraphs|) && (c == |row| ==> k == 0)
    ensures SameShape(r, row)
    decreases c, k
  {
    if k > 0 then Step(Through(row, c, k - 1, pairs, date), c, k - 1, pairs, date)
    else if c == 0 then row
    else Through(row, c - 1, |row[c - 1].paragraphs|, pairs, date)
  }

  /** A row after the pass. */
  function RowFilled(row: seq<Cell>, pairs: seq<Pair>, date: string): seq<Cell> {
    Through(row, |row|, 0, pairs, date)
  }

  function TableFilled(t: Table, pairs: seq<Pair>, date: string): Table {
    t.(rows := Map((row: seq<Cell>) => RowFilled(row, pairs, date), t.rows))
  }

  /** The body after the pass: tables filled, paragraphs as they were. */
  function BlocksFilled(b: seq<Block>, pairs: seq<Pair>, date: string): seq<Block> {
    Map((x: Block) => if x.Tbl? then Tbl(TableFilled(x.table, pairs, date)) else x, b)
  }

  method FillRow(row: seq<Cell>, pairs: seq<Pair>, date: string) returns (r: seq<Cell>)
    ensures r == RowFilled(row, pairs, date)
  {
    r := row;
    for c := 0 to |row|
      invariant r == Through(row, c, 0, pairs, date)
    {
      for k := 0 to |row[c].paragraphs|
        invariant r == Through(row, c, k, pairs, date)
      {
        r := FillParagraph(r, c, k, pairs, date);
      }
    }
  }

  /** One step of the row pass. */
  method FillParagraph(row: seq<Cell>, c: nat, k: nat, pairs: seq<Pair>, date: string) returns (r: seq<Cell>)
    requires c < |row| && k < |row[c].paragraphs|
    ensures r == Step(row, c, k, pairs, date)
  {
    var p1 := SubstituteParagraph(row[c].paragraphs[k], pairs);
    r := SetCellParagraph(row, c, k, p1);
    if Strip(ParagraphText(p1)) == [] {
      if MentionsAiGenerated(r) && c == |r| - 1 {
        r := SetCellParagraph(r, c, k, WithText(date));
      }
    }
  }

  method FillTable(t: Table, pairs: seq<Pair>, date: string) returns (u: Table)
    ensures u == TableFilled(t, pairs, date)
  {
    var rows: seq<seq<Cell>> := [];
    for i := 0 to |t.rows|
      invariant rows == Map((row: seq<Cell>) => RowFilled(row, pairs, date), t.rows[..i])
    {
      var r := FillRow(t.rows[i], pairs, date);
      rows := rows + [r];
    }
    assert t.rows[..|t.rows|] == t.rows;
    u := t.(rows := rows);
  }

  /** The pass over `doc.tables`. */
  method FillTables(doc: Document, pairs: seq<Pair>, date: string)
    modifies doc
    ensures doc.blocks == BlocksFilled(old(doc.blocks), pairs, date)
  {
    var b := doc.blocks;
    for j := 0 to |b|
      invariant |doc.blocks| == |b|
      invariant forall i :: 0 <= i < j ==> doc.blocks[i] == BlocksFilled(b, pairs, date)[i]
      invariant forall i :: j <= i < |b| ==> doc.blocks[i] == b[i]
    {
      if b[j].Tbl? {
        var u := FillTable(b[j].table, pairs, date);
        doc.SetTable(j, u);
      }
    }
  }

  // ---- what the pass promises ----

  /** The first version-date test of the source can never hold: a text
      holding "AI Generated" or "0.01" is not blank. */
  lemma VersionTestDead(t: string)
    requires Contains(t, AiGenerated) || Contains(t, "0.01")
    ensures Strip(t) != []
  {
    var x := if Contains(t, AiGenerated) then AiGenerated else "0.01";
    var i := IndexOf(t, x);
    assert t[i] == x[0];
    StripNonEmpty(t, i);
  }

  /** Step `(c, k)` comes before step `(c', k')`. */
  predicate Before(c': nat, k': nat, c: nat, k: nat) {
    c' < c || (c' == c && k' < k)
  }

  /** A step changes paragraph `k` of cell `c` and nothing else. */
  lemma StepEffect(row: seq<Cell>, c: nat, k: nat, pairs: seq<Pair>, date: string)
    requires c < |row| && k < |row[c].paragraphs|
    ensures var r := Step(row, c, k, pairs, date);
            var p := row[c].paragraphs[k];
            && (r[c].paragraphs[k] == Substituted(p, pairs)
                || (c == |row| - 1 && r[c].paragraphs[k] == WithText(date)
                    && Strip(ParagraphText(Substituted(p, pairs))) == []))
            && forall c', k' :: 0 <= c' < |row| && 0 <= k' < |row[c'].paragraphs| && (c' != c || k' != k) ==>
                 r[c'].paragraphs[k'] == row[c'].paragraphs[k']
  {
  }

  /** `q` is what the pass makes of paragraph `p`: `p` with the
      replacements, or, in the last cell and when they left it blank, the
      date. */
  predicate FilledFrom(q: Paragraph, p: Paragraph, last: bool, pairs: seq<Pair>, date: string) {
    q == Substituted(p, pairs) || (last && q == WithText(date) && Strip(ParagraphText(Substituted(p, pairs))) == [])
  }

  /** Row `r` is `row` after the steps before paragraph `k` of cell `c`:
      the paragraphs visited are filled, the others as they were. */
  predicate Stage(row: seq<Cell>, r: seq<Cell>, c: nat, k: nat, pairs: seq<Pair>, date: string)
    requires SameShape(r, row)
  {
    forall c', k' :: 0 <= c' < |row| && 0 <= k' < |row[c'].paragraphs| ==>
      if Before(c', k', c, k) then FilledFrom(r[c'].paragraphs[k'], row[c'].paragraphs[k'], c' == |row| - 1, pairs, date)
      else r[c'].paragraphs[k'] == row[c'].paragraphs[k']
  }

  lemma StageStep(row: seq<Cell>, r: seq<Cell>, c: nat, k: nat, pairs: seq<Pair>, date: string)
    requires SameShape(r, row) && c < |row| && k < |row[c].paragraphs|
    requires Stage(row, r, c, k, pairs, date)
    ensures Stage(row, Step(r, c, k, pairs, date), c, k + 1, pairs, date)
  {
    StepEffect(r, c, k, pairs, date);
  }

  lemma StageNextCell(row: seq<Cell>, r: seq<Cell>, c: nat, pairs: seq<Pair>, date: string)
    requires SameShape(r, row) && 0 < c <= |row|
    requires Stage(row, r, c - 1, |row[c - 1].paragraphs|, pairs, date)
    ensures Stage(row, r, c, 0, pairs, date)
  {
  }

  /** Up to paragraph `k` of cell `c`, every visited paragraph is filled
      and every other is as it was. */
  lemma {:induction false} ThroughEffect(row: seq<Cell>, c: nat, k: nat, pairs: seq<Pair>, date: string)
    requires c <= |row| && (c < |row| ==> k <= |row[c].paragraphs|) && (c == |row| ==> k == 0)
    ensures Stage(row, Through(row, c, k, pairs, date), c, k, pairs, date)
    decreases c, k
  {
    if k > 0 {
      ThroughEffect(row, c, k - 1, pairs, date);
      StageStep(row, Through(row, c, k - 1, pairs, date), c, k - 1, pairs, date);
    } else if c > 0 {
      ThroughEffect(row, c - 1, |row[c - 1].paragraphs|, pairs, date);
      StageNextCell(row, Through(row, c, k, pairs, date), c, pairs, date);
    }
  }

  /** In a filled row every paragraph outside the last cell holds the
      replacements; in the last cell a paragraph the replacements left blank
      may hold the date instead. Cells and paragraphs keep their number. */
  lemma RowFilledEffect(row: seq<Cell>, pairs: seq<Pair>, date: string)
    ensures var r := RowFilled(row, pairs, date);
            && SameShape(r, row)
            && forall c, k :: 0 <= c < |row| && 0 <= k < |row[c].paragraphs| ==>
                 var p := row[c].paragraphs[k];
                 r[c].paragraphs[k] == Substituted(p, pairs)
                 || (c == |row| - 1 && r[c].paragraphs[k] == WithText(date)
                     && Strip(ParagraphText(Substituted(p, pairs))) == [])
  {
    ThroughEffect(row, |row|, 0, pairs, date);
  }

  /** The pass leaves the body paragraphs alone. */
  lemma BlocksFilledParagraphs(b: seq<Block>, pairs: seq<Pair>, date: string)
    ensures BodyParagraphs(BlocksFilled(b, pairs, date)) == BodyParagraphs(b)
    ensures forall j :: 0 <= j < |b| && b[j].Para? ==> BlocksFilled(b, pairs, date)[j] == b[j]
  {
    BodyParagraphsTablesOnly(b, BlocksFilled(b, pairs, date));
  }
}
