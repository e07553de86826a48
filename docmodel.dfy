/** The part of a Word document that the template filler reads and changes,
    as python-docx presents it: a body of paragraphs and tables in order;
    a paragraph is a sequence of runs, a table rows of cells, a cell a
    sequence of paragraphs. Fonts, sizes and borders are reduced to a run's
    `Format` and a table's `bordered` flag and column widths. */
module DocModel {
  import opened Wrappers
  import opened Text
  import opened Seqs

  /** The character formatting of a run: copied, never inspected. */
  datatype Format = Format(font: Option<string>, size: Option<nat>, bold: bool, italic: bool, color: Option<string>)

  /** A run added without any formatting. */
  const Unformatted := Format(None, None, false, false, None)

  /** A run of text, or a run that holds a line break (`run.add_break()`),
      which python-docx reads as `"\n"`. */
  datatype Run = TextRun(text: string, format: Format) | BreakRun

  datatype Paragraph = Paragraph(runs: seq<Run>)

  datatype Cell = Cell(paragraphs: seq<Paragraph>)

  /** `widths` holds a column width per column in hundredths of an inch,
      or nothing when the template's widths stay. */
  datatype Table = Table(rows: seq<seq<Cell>>, widths: seq<nat>, bordered: bool)

  /** A block of the document body. */
  datatype Block = Para(paragraph: Paragraph) | Tbl(table: Table)

  function RunText(r: Run): string {
    match r
    case TextRun(t, _) => t
    case BreakRun => "\n"
  }

  /** `run.font`: a break run was added without formatting. */
  function RunFormat(r: Run): Format {
    match r
    case TextRun(_, f) => f
    case BreakRun => Unformatted
  }

  /** The text of a sequence of runs, one after the other. */
  function RunsText(runs: seq<Run>): string {
    if runs == [] then "" else RunsText(runs[..|runs| - 1]) + RunText(runs[|runs| - 1])
  }

  /** `paragraph.text`. */
  function ParagraphText(p: Paragraph): string {
    RunsText(p.runs)
  }

  /** `paragraph.clear()`: every run removed. */
  const Cleared := Paragraph([])

  /** `paragraph.text = s`: the runs replaced by one unformatted run. */
  function WithText(s: string): Paragraph {
    Paragraph([TextRun(s, Unformatted)])
  }

  /** `cell.text`: the cell's paragraphs joined by line breaks. */
  function CellText(c: Cell): string {
    Join(Map(ParagraphText, c.paragraphs), "\n")
  }

  /** `doc.paragraphs`: the body paragraphs in order, outside tables. */
  function BodyParagraphs(blocks: seq<Block>): seq<Paragraph> {
    if blocks == [] then []
    else
      var rest := BodyParagraphs(blocks[..|blocks| - 1]);
      match blocks[|blocks| - 1]
      case Para(p) => rest + [p]
      case Tbl(_) => rest
  }

  /** How many body paragraphs come before block `j`: the index
      `doc.paragraphs` gives the paragraph of block `j`. */
  function ParagraphIndex(blocks: seq<Block>, j: nat): nat
    requires j <= |blocks|
  {
    |BodyParagraphs(blocks[..j])|
  }

  lemma RunsTextAppend(runs: seq<Run>, r: Run)
    ensures RunsText(runs + [r]) == RunsText(runs) + RunText(r)
  {
    assert (runs + [r])[..|runs|] == runs;
  }

  /** A paragraph set to a text reads back that text; a cleared one reads
      empty. */
  lemma WithTextText(s: string)
    ensures ParagraphText(WithText(s)) == s && ParagraphText(Cleared) == ""
  {
    RunsTextAppend([], TextRun(s, Unformatted));
    assert [] + [TextRun(s, Unformatted)] == WithText(s).runs;
  }

  /** The body paragraph of block `j` is at position `ParagraphIndex(blocks, j)`
      of `doc.paragraphs`. */
  lemma {:induction false} ParagraphAt(blocks: seq<Block>, j: nat)
    requires j < |blocks| && blocks[j].Para?
    ensures ParagraphIndex(blocks, j) < |BodyParagraphs(blocks)|
    ensures BodyParagraphs(blocks)[ParagraphIndex(blocks, j)] == blocks[j].paragraph
    decreases |blocks|
  {
    if j < |blocks| - 1 {
      var init := blocks[..|blocks| - 1];
      assert init[..j] == blocks[..j];
      ParagraphAt(init, j);
    } else {
      assert blocks[..|blocks| - 1] == blocks[..j];
    }
  }

  /** Changing one body paragraph keeps the blocks' kinds and the other
      paragraphs, and puts the new one at the same position. */
  lemma {:induction false} BodyParagraphsUpdate(blocks: seq<Block>, j: nat, p: Paragraph)
    requires j < |blocks| && blocks[j].Para?
    ensures ParagraphIndex(blocks, j) < |BodyParagraphs(blocks)|
    ensures BodyParagraphs(blocks[j := Para(p)])
         == BodyParagraphs(blocks)[ParagraphIndex(blocks, j) := p]
    decreases |blocks|
  {
    ParagraphAt(blocks, j);
    var b := blocks[j := Para(p)];
    var init := blocks[..|blocks| - 1];
    if j < |blocks| - 1 {
      assert b[..|b| - 1] == init[j := Para(p)];
      assert init[..j] == blocks[..j];
      BodyParagraphsUpdate(init, j, p);
      ParagraphAt(init, j);
    } else {
      assert b[..|b| - 1] == init;
      assert blocks[..j] == init;
    }
  }

  /** A table inserted into the body leaves `doc.paragraphs` as it was. */
  lemma {:induction false} BodyParagraphsInsertTable(blocks: seq<Block>, k: nat, t: Table)
    requires k <= |blocks|
    ensures BodyParagraphs(blocks[..k] + [Tbl(t)] + blocks[k..]) == BodyParagraphs(blocks)
    decreases |blocks|
  {
    var b := blocks[..k] + [Tbl(t)] + blocks[k..];
    if k == |blocks| {
      assert b[..|b| - 1] == blocks;
    } else {
      var init := blocks[..|blocks| - 1];
      assert b[..|b| - 1] == init[..k] + [Tbl(t)] + init[k..];
      assert b[|b| - 1] == blocks[|blocks| - 1];
      BodyParagraphsInsertTable(init, k, t);
    }
  }

  /** A block with its paragraph, if it is one, replaced by `g(k, p)`. */
  function MapBlock(b: Block, g: (nat, Paragraph) -> Paragraph, k: nat): Block {
    match b
    case Para(p) => Para(g(k, p))
    case Tbl(t) => Tbl(t)
  }

  /** `for k, paragraph in enumerate(doc.paragraphs)` changing each paragraph
      to `g(k, paragraph)`: every body paragraph is replaced where it stands
      and the tables stay as they are. */
  function MapParagraphs(blocks: seq<Block>, g: (nat, Paragraph) -> Paragraph): (r: seq<Block>)
    ensures |r| == |blocks|
  {
    if blocks == [] then []
    else
      var init := blocks[..|blocks| - 1];
      MapParagraphs(init, g) + [MapBlock(blocks[|blocks| - 1], g, |BodyParagraphs(init)|)]
  }

  /** `[g(k, p) for k, p in enumerate(ps)]`. */
  function IndexedMap(g: (nat, Paragraph) -> Paragraph, ps: seq<Paragraph>): (r: seq<Paragraph>)
    ensures |r| == |ps|
  {
    seq(|ps|, k requires 0 <= k < |ps| => g(k, ps[k]))
  }

  /** The position in `doc.paragraphs` moves on by one past each paragraph. */
  lemma ParagraphIndexNext(blocks: seq<Block>, j: nat)
    requires j < |blocks|
    ensures ParagraphIndex(blocks, j + 1) == ParagraphIndex(blocks, j) + (if blocks[j].Para? then 1 else 0)
  {
    assert blocks[..j + 1][..j] == blocks[..j];
  }

  /** Mapping one block more. */
  lemma MapParagraphsNext(blocks: seq<Block>, g: (nat, Paragraph) -> Paragraph, j: nat)
    requires j < |blocks|
    ensures MapParagraphs(blocks[..j + 1], g)
         == MapParagraphs(blocks[..j], g) + [MapBlock(blocks[j], g, ParagraphIndex(blocks, j))]
  {
    assert blocks[..j + 1][..j] == blocks[..j];
  }

  /** Block `j` of the mapped body is block `j` mapped with its own position
      in `doc.paragraphs`: a table is kept, a paragraph changed in place. */
  lemma {:induction false} MapParagraphsAt(blocks: seq<Block>, g: (nat, Paragraph) -> Paragraph, j: nat)
    requires j < |blocks|
    ensures MapParagraphs(blocks, g)[j] == MapBlock(blocks[j], g, ParagraphIndex(blocks, j))
    decreases |blocks|
  {
    var init := blocks[..|blocks| - 1];
    if j < |blocks| - 1 {
      assert init[..j] == blocks[..j];
      MapParagraphsAt(init, g, j);
    } else {
      assert init == blocks[..j];
    }
  }

  /** Read back through `doc.paragraphs`, the mapped body is the paragraphs
      mapped one by one. */
  lemma {:induction false} BodyParagraphsMap(blocks: seq<Block>, g: (nat, Paragraph) -> Paragraph)
    ensures BodyParagraphs(MapParagraphs(blocks, g)) == IndexedMap(g, BodyParagraphs(blocks))
    decreases |blocks|
  {
    if blocks != [] {
      var init := blocks[..|blocks| - 1];
      var m := MapParagraphs(blocks, g);
      assert m[..|m| - 1] == MapParagraphs(init, g);
      BodyParagraphsMap(init, g);
      var ps := BodyParagraphs(init);
      match blocks[|blocks| - 1]
      case Para(p) =>
        assert BodyParagraphs(blocks) == ps + [p];
        assert IndexedMap(g, ps + [p]) == IndexedMap(g, ps) + [g(|ps|, p)];
      case Tbl(_) =>
    }
  }

  /** The state of a loop that has mapped the blocks before `j`, one block
      later. */
  lemma MapParagraphsStep(blocks: seq<Block>, g: (nat, Paragraph) -> Paragraph, j: nat)
    requires j < |blocks|
    ensures var cur := MapParagraphs(blocks[..j], g) + blocks[j..];
            && j < |cur| && cur[j] == blocks[j]
            && MapParagraphs(blocks[..j + 1], g) + blocks[j + 1..]
               == cur[j := MapBlock(blocks[j], g, ParagraphIndex(blocks, j))]
  {
    MapParagraphsNext(blocks, g, j);
    var m := MapParagraphs(blocks[..j], g);
    var x := MapBlock(blocks[j], g, ParagraphIndex(blocks, j));
    assert (m + blocks[j..])[j := x] == m + [x] + blocks[j + 1..];
  }

  /** Mappings that agree everywhere map alike. */
  lemma {:induction false} MapParagraphsExt(blocks: seq<Block>, g: (nat, Paragraph) -> Paragraph, h: (nat, Paragraph) -> Paragraph)
    requires forall k, p :: g(k, p) == h(k, p)
    ensures MapParagraphs(blocks, g) == MapParagraphs(blocks, h)
    decreases |blocks|
  {
    if blocks != [] {
      MapParagraphsExt(blocks[..|blocks| - 1], g, h);
    }
  }

  /** `g` then `h`, paragraph by paragraph. */
  function Then(g: (nat, Paragraph) -> Paragraph, h: (nat, Paragraph) -> Paragraph): (nat, Paragraph) -> Paragraph {
    (k: nat, p: Paragraph) => h(k, g(k, p))
  }

  /** Two passes over `doc.paragraphs` are one pass doing both. */
  lemma {:induction false} MapParagraphsThen(blocks: seq<Block>, g: (nat, Paragraph) -> Paragraph, h: (nat, Paragraph) -> Paragraph)
    ensures MapParagraphs(MapParagraphs(blocks, g), h) == MapParagraphs(blocks, Then(g, h))
    decreases |blocks|
  {
    if blocks != [] {
      var init := blocks[..|blocks| - 1];
      var m := MapParagraphs(blocks, g);
      assert m[..|m| - 1] == MapParagraphs(init, g);
      MapParagraphsThen(init, g, h);
      BodyParagraphsMap(init, g);
    }
  }

  /** A mapping that leaves each of the body's paragraphs as it is leaves
      the body as it is. */
  lemma MapParagraphsKeeps(blocks: seq<Block>, g: (nat, Paragraph) -> Paragraph)
    requires forall j :: 0 <= j < |blocks| && blocks[j].Para? ==>
               g(ParagraphIndex(blocks, j), blocks[j].paragraph) == blocks[j].paragraph
    ensures MapParagraphs(blocks, g) == blocks
  {
    forall j | 0 <= j < |blocks| ensures MapParagraphs(blocks, g)[j] == blocks[j] {
      MapParagraphsAt(blocks, g, j);
    }
  }

  /** Changing a table leaves `doc.paragraphs` as it was. */
  lemma {:induction false} BodyParagraphsSetTable(blocks: seq<Block>, j: nat, t: Table)
    requires j < |blocks| && blocks[j].Tbl?
    ensures BodyParagraphs(blocks[j := Tbl(t)]) == BodyParagraphs(blocks)
    decreases |blocks|
  {
    var b := blocks[j := Tbl(t)];
    var init := blocks[..|blocks| - 1];
    if j < |blocks| - 1 {
      assert b[..|b| - 1] == init[j := Tbl(t)];
      BodyParagraphsSetTable(init, j, t);
    } else {
      assert b[..|b| - 1] == init;
    }
  }

  /** Blocks that change only inside their tables leave `doc.paragraphs`
      as it was. */
  lemma {:induction false} BodyParagraphsTablesOnly(blocks: seq<Block>, c: seq<Block>)
    requires |c| == |blocks|
    requires forall j :: 0 <= j < |blocks| ==> if blocks[j].Para? then c[j] == blocks[j] else c[j].Tbl?
    ensures BodyParagraphs(c) == BodyParagraphs(blocks)
    decreases |blocks|
  {
    if blocks != [] {
      var n := |blocks| - 1;
      BodyParagraphsTablesOnly(blocks[..n], c[..n]);
    }
  }

  /** The document body python-docx opens from the template. */
  class Document {
    var blocks: seq<Block>

    constructor(body: seq<Block>)
      ensures blocks == body
    {
      blocks := body;
    }

    /** Writes a body paragraph back after a change. */
    method SetParagraph(j: nat, p: Paragraph)
      requires j < |blocks| && blocks[j].Para?
      modifies this
      ensures blocks == old(blocks)[j := Para(p)]
    {
      blocks := blocks[j := Para(p)];
    }

    /** `paragraph._element.addnext(table._element)`: the table becomes the
        block right after block `j`. */
    method InsertTableAfter(j: nat, t: Table)
      requires j < |blocks|
      modifies this
      ensures blocks == old(blocks)[..j + 1] + [Tbl(t)] + old(blocks)[j + 1..]
    {
      blocks := blocks[..j + 1] + [Tbl(t)] + blocks[j + 1..];
    }

    /** Writes a table back after a change to one of its cells. */
    method SetTable(j: nat, t: Table)
      requires j < |blocks| && blocks[j].Tbl?
      modifies this
      ensures blocks == old(blocks)[j := Tbl(t)]
    {
      blocks := blocks[j := Tbl(t)];
    }
  }
}
