/** The `(data, headers)` pairs `TitlePageWordGenerator` prepares from the
    extracted tables, the column widths `WordTableManager` chooses from the
    headers, and the bordered table it builds from them. */
module TableBuilders {
  import opened Wrappers
  import opened Text
  import opened Seqs
  import opened DocModel
  import TitleExtract

  /** The rows of a table and its header cells. */
  datatype TableData = TableData(data: seq<seq<string>>, headers: seq<string>)

  /** `return [], []`: what every builder returns for an empty list. */
  const NoTable := TableData([], [])

  /** Every row has one cell per header. */
  predicate Rectangular(t: TableData) {
    forall i :: 0 <= i < |t.data| ==> |t.data[i]| == |t.headers|
  }

  // ---- the builders ----

  const SelectionHeaders := ["Parameter", "Type", "Description", "Mandatory", "Select-Option", "No Intervals"]
  const DetailHeaders := ["Nama Field", "Technical Field", "Keterangan"]
  const ErrorHeaders := ["No", "Potensi Error", "Penyelesaian", "Kode Error & Severity"]
  const TestHeaders := ["No", "KONDISI PENGUJIAN", "HASIL YANG DIHARAPKAN", "DATA UJI", "PRIORITAS"]
  const TestSummaryHeaders := ["KONDISI PENGUJIAN", "HASIL YANG DIHARAPKAN"]
  const ConditionHeaders := ["Data", "Kondisi"]

  function SelectionRowData(item: TitleExtract.SelectionItem): seq<string> {
    [item.parameter, item.kind, item.description, item.mandatory, item.selectOption, item.noIntervals]
  }

  /** `create_selection_screen_table_data`: one row per parameter, its six
      fields in the order of the headers. */
  function SelectionScreenTableData(items: seq<TitleExtract.SelectionItem>): (r: TableData)
    ensures items == [] <==> r == NoTable
    ensures items != [] ==> r.headers == SelectionHeaders && r.data == Map(SelectionRowData, items)
    ensures Rectangular(r)
  {
    if items == [] then NoTable else TableData(Map(SelectionRowData, items), SelectionHeaders)
  }

  /** The pieces of the `Keterangan` cell: where the field comes from, the
      processing logic unless it is `N/A`, and the processing type unless it
      is `DIRECT`. */
  function DetailParts(item: TitleExtract.DetailItem): seq<string> {
    var logic := Strip(item.processingLogic);
    (if item.sourceTable != [] then ["Ambil " + item.technicalField + " dari tabel " + item.sourceTable] else [])
    + (if item.processingLogic != [] && logic != "N/A" && logic != [] then [logic] else [])
    + (if item.processingType != [] && item.processingType != "DIRECT" then ["Processing Type: " + item.processingType] else [])
  }

  /** `'. '.join(keterangan_parts) if keterangan_parts else 'N/A'`. */
  function Keterangan(item: TitleExtract.DetailItem): string {
    var parts := DetailParts(item);
    if parts == [] then "N/A" else Join(parts, ". ")
  }

  function DetailRowData(item: TitleExtract.DetailItem): seq<string> {
    [item.fieldName, item.technicalField, Keterangan(item)]
  }

  /** `create_detail_processing_table_data`: field name, technical field and
      the composed `Keterangan`. */
  function DetailProcessingTableData(items: seq<TitleExtract.DetailItem>): (r: TableData)
    ensures items == [] <==> r == NoTable
    ensures items != [] ==> r.headers == DetailHeaders && r.data == Map(DetailRowData, items)
    ensures Rectangular(r)
  {
    if items == [] then NoTable else TableData(Map(DetailRowData, items), DetailHeaders)
  }

  function ConditionRowData(item: TitleExtract.ConditionItem): seq<string> {
    [item.data, item.condition]
  }

  /** `create_data_condition_table_data` (and its copies
      `create_valid_datasets_table_data`, `create_country_info_table_data`). */
  function DataConditionTableData(items: seq<TitleExtract.ConditionItem>): (r: TableData)
    ensures items == [] <==> r == NoTable
    ensures items != [] ==> r.headers == ConditionHeaders && r.data == Map(ConditionRowData, items)
    ensures Rectangular(r)
  {
    if items == [] then NoTable else TableData(Map(ConditionRowData, items), ConditionHeaders)
  }

  /** The last error column: `"code (severity)"`, or `"(severity)"` when the
      code is `N/A`. */
  function CodeSeverity(code: string, severity: string): string {
    if code != "N/A" then code + " (" + severity + ")" else "(" + severity + ")"
  }

  function ErrorRowData(item: TitleExtract.ErrorItem): seq<string> {
    [item.no, item.errorDescription, item.resolution, CodeSeverity(item.errorCode, item.severity)]
  }

  /** `create_error_handling_table_data`: four columns, code and severity
      combined in the last. */
  function ErrorHandlingTableData(items: seq<TitleExtract.ErrorItem>): (r: TableData)
    ensures items == [] <==> r == NoTable
    ensures items != [] ==> r.headers == ErrorHeaders && r.data == Map(ErrorRowData, items)
    ensures Rectangular(r)
  {
    if items == [] then NoTable else TableData(Map(ErrorRowData, items), ErrorHeaders)
  }

  function TestRowData(item: TitleExtract.TestItem): seq<string> {
    [item.no, item.testCondition, item.expectedResult, item.testData, Upper(item.priority)]
  }

  /** `create_testing_requirements_table_data`: five columns, the priority
      upper-cased. */
  function TestingRequirementsTableData(items: seq<TitleExtract.TestItem>): (r: TableData)
    ensures items == [] <==> r == NoTable
    ensures items != [] ==> r.headers == TestHeaders && r.data == Map(TestRowData, items)
    ensures Rectangular(r)
  {
    if items == [] then NoTable else TableData(Map(TestRowData, items), TestHeaders)
  }

  function TestSummaryRowData(item: TitleExtract.TestItem): seq<string> {
    [item.testCondition, item.expectedResult]
  }

  /** `create_testing_requirements_summary_table_data`: condition and
      expected result only. */
  function TestingSummaryTableData(items: seq<TitleExtract.TestItem>): (r: TableData)
    ensures items == [] <==> r == NoTable
    ensures items != [] ==> r.headers == TestSummaryHeaders && r.data == Map(TestSummaryRowData, items)
    ensures Rectangular(r)
  {
    if items == [] then NoTable else TableData(Map(TestSummaryRowData, items), TestSummaryHeaders)
  }

  // ---- what the builders promise ----

  /** The last error column names the severity in parentheses, after the
      code and a space unless the code is `N/A`. */
  lemma CodeSeverityShape(code: string, severity: string)
    ensures var cell := CodeSeverity(code, severity);
            EndsWith(cell, "(" + severity + ")")
            && (code != "N/A" ==> StartsWith(cell, code + " ") && |cell| == |code| + |severity| + 3)
            && (code == "N/A" ==> |cell| == |severity| + 2)
  {
    var cell := CodeSeverity(code, severity);
    var tail := "(" + severity + ")";
    if code != "N/A" {
      assert cell == (code + " ") + tail;
    } else {
      assert cell == tail;
    }
    assert cell[|cell| - |tail|..] == tail;
  }

  /** The test priority is written in capitals. */
  lemma PriorityUpperCased(items: seq<TitleExtract.TestItem>, i: nat)
    requires i < |items|
    ensures var r := TestingRequirementsTableData(items).data[i][4];
            |r| == |items[i].priority|
            && forall k :: 0 <= k < |r| ==> !('a' <= r[k] <= 'z')
  {
  }

  /** The `Keterangan` pieces: one per kept source, logic and type, the
      source sentence first and the processing type last. */
  lemma {:induction false} DetailPartsShape(item: TitleExtract.DetailItem)
    ensures var parts := DetailParts(item);
            var logic := Strip(item.processingLogic);
            |parts| == (if item.sourceTable != [] then 1 else 0)
                       + (if logic != [] && logic != "N/A" then 1 else 0)
                       + (if item.processingType != [] && item.processingType != "DIRECT" then 1 else 0)
            && (item.sourceTable != [] ==>
                  parts[0] == "Ambil " + item.technicalField + " dari tabel " + item.sourceTable)
            && (item.processingType != [] && item.processingType != "DIRECT" ==>
                  parts[|parts| - 1] == "Processing Type: " + item.processingType)
            && (forall k :: 0 <= k < |parts| ==> parts[k] != [] && parts[k] != "N/A")
  {
    var logic := Strip(item.processingLogic);
    if item.processingLogic == [] {
      assert logic == [];
    }
    var a := if item.sourceTable != [] then ["Ambil " + item.technicalField + " dari tabel " + item.sourceTable] else [];
    var b := if item.processingLogic != [] && logic != "N/A" && logic != [] then [logic] else [];
    var c := if item.processingType != [] && item.processingType != "DIRECT" then ["Processing Type: " + item.processingType] else [];
    assert DetailParts(item) == a + b + c;
    OptionalParts(a, b, c);
    if a != [] { LongPiece(a[0]); }
    if c != [] { LongPiece(c[0]); }
    PiecesKept(a, b, c);
  }

  /** Pieces that are neither empty nor `N/A` stay so once put together. */
  lemma PiecesKept(a: seq<string>, b: seq<string>, c: seq<string>)
    requires |a| <= 1 && |b| <= 1 && |c| <= 1
    requires a != [] ==> a[0] != [] && a[0] != "N/A"
    requires b != [] ==> b[0] != [] && b[0] != "N/A"
    requires c != [] ==> c[0] != [] && c[0] != "N/A"
    ensures forall k :: 0 <= k < |a + b + c| ==> (a + b + c)[k] != [] && (a + b + c)[k] != "N/A"
  {
    OptionalParts(a, b, c);
  }

  /** A piece longer than three characters is neither empty nor `N/A`. */
  lemma LongPiece(x: string)
    requires |x| > 3
    ensures x != [] && x != "N/A"
  {
  }

  /** Up to three optional pieces, kept in order. */
  lemma OptionalParts(a: seq<string>, b: seq<string>, c: seq<string>)
    requires |a| <= 1 && |b| <= 1 && |c| <= 1
    ensures var p := a + b + c;
            |p| == |a| + |b| + |c|
            && (a != [] ==> p[0] == a[0])
            && (c != [] ==> p[|p| - 1] == c[0])
            && forall k :: 0 <= k < |p| ==>
                 (a != [] && p[k] == a[0]) || (b != [] && p[k] == b[0]) || (c != [] && p[k] == c[0])
  {
  }

  /** `Keterangan` is `N/A` exactly when there is no piece: no piece is
      `N/A`, and two pieces joined are longer. */
  lemma KeteranganNotApplicable(item: TitleExtract.DetailItem)
    ensures Keterangan(item) == "N/A" <==> DetailParts(item) == []
  {
    var parts := DetailParts(item);
    DetailPartsShape(item);
    if parts != [] && |parts| > 1 {
      assert Join(parts, ". ") == parts[0] + ". " + Join(parts[1..], ". ");
      JoinNonEmpty(parts[1..], ". ");
    }
  }

  /** Joining non-empty pieces gives a non-empty text. */
  lemma JoinNonEmpty(parts: seq<string>, sep: string)
    requires parts != [] && parts[0] != []
    ensures Join(parts, sep) != []
  {
  }

  // ---- the column widths ----

  /** The column widths `create_bordered_table` sets, in hundredths of an
      inch, keyed on the column count and, for three and five columns, on a
      header's text; other counts keep the template's widths. */
  function ColumnWidths(headers: seq<string>): (r: seq<nat>)
    ensures r == [] || |r| == |headers|
    ensures r != [] <==> 2 <= |headers| <= 6
  {
    if |headers| == 3 then
      if Contains(headers[0], "Nama Field") then [200, 150, 400] else [150, 300, 300]
    else if |headers| == 6 then [120, 100, 200, 80, 100, 80]
    else if |headers| == 2 then [350, 400]
    else if |headers| == 4 then [50, 300, 300, 100]
    else if |headers| == 5 then
      if Contains(headers[1], "KONDISI PENGUJIAN") then [40, 280, 280, 150, 80] else [50, 250, 250, 100, 80]
    else []
  }

  lemma ContainsItself(s: string)
    ensures Contains(s, s)
  {
  }

  /** Each builder's headers select the widths meant for that table; the
      generic three-column and the five-column error widths are never
      chosen for a builder's table. */
  lemma BuilderWidths()
    ensures ColumnWidths(DetailHeaders) == [200, 150, 400]
    ensures ColumnWidths(SelectionHeaders) == [120, 100, 200, 80, 100, 80]
    ensures ColumnWidths(ErrorHeaders) == [50, 300, 300, 100]
    ensures ColumnWidths(TestHeaders) == [40, 280, 280, 150, 80]
    ensures ColumnWidths(TestSummaryHeaders) == [350, 400]
    ensures ColumnWidths(ConditionHeaders) == [350, 400]
  {
    ContainsItself("Nama Field");
    ContainsItself("KONDISI PENGUJIAN");
  }

  // ---- the bordered table ----

  const HeaderFormat := Format(Some("Arial"), Some(10), true, false, None)
  const DataFormat := Format(Some("Arial"), Some(9), false, false, None)

  /** `cell.text = s`: one paragraph holding one run. */
  function TextCell(s: string, f: Format): Cell {
    Cell([Paragraph([TextRun(s, f)])])
  }

  /** A cell `add_row` creates and nothing fills: one empty paragraph. */
  const EmptyCell := Cell([Paragraph([])])

  /** A data row cut or padded to the column count. */
  function DataRow(row: seq<string>, columns: nat): seq<Cell> {
    seq(columns, i requires 0 <= i < columns => if i < |row| then TextCell(row[i], DataFormat) else EmptyCell)
  }

  function HeaderRow(headers: seq<string>): seq<Cell> {
    seq(|headers|, i requires 0 <= i < |headers| => TextCell(headers[i], HeaderFormat))
  }

  /** `WordTableManager.create_bordered_table`: nothing without data or
      headers, else a header row and one row per data row, bordered. */
  function CreateBorderedTable(data: seq<seq<string>>, headers: seq<string>): Option<Table> {
    if data == [] || headers == [] then None
    else Some(Table([HeaderRow(headers)] + seq(|data|, i requires 0 <= i < |data| => DataRow(data[i], |headers|)),
                    ColumnWidths(headers), true))
  }

  lemma TextCellText(s: string, f: Format)
    ensures CellText(TextCell(s, f)) == s
  {
    var p := Paragraph([TextRun(s, f)]);
    RunsTextAppend([], TextRun(s, f));
    assert [] + [TextRun(s, f)] == p.runs;
    assert Map(ParagraphText, [p]) == [ParagraphText(p)];
  }

  lemma EmptyCellText()
    ensures CellText(EmptyCell) == ""
  {
    assert Map(ParagraphText, [Paragraph([])]) == [""];
  }

  /** The table reads back as its headers and data: one row more than the
      data, every row as wide as the headers, each cell the data cell or
      empty where the data row is short; a row longer than the headers loses
      its extra cells. */
  lemma {:induction false} BorderedTableReadsBack(data: seq<seq<string>>, headers: seq<string>)
    requires data != [] && headers != []
    ensures var t := CreateBorderedTable(data, headers).value;
            |t.rows| == |data| + 1 && t.bordered && t.widths == ColumnWidths(headers)
            && (forall c :: 0 <= c < |headers| ==> CellText(t.rows[0][c]) == headers[c])
            && (forall r, c :: 0 <= r < |data| && 0 <= c < |headers| ==>
                  CellText(t.rows[r + 1][c]) == if c < |data[r]| then data[r][c] else "")
            && forall r :: 0 <= r < |t.rows| ==> |t.rows[r]| == |headers|
  {
    var t := CreateBorderedTable(data, headers).value;
    forall c | 0 <= c < |headers| ensures CellText(t.rows[0][c]) == headers[c] {
      TextCellText(headers[c], HeaderFormat);
    }
    forall r, c | 0 <= r < |data| && 0 <= c < |headers|
      ensures CellText(t.rows[r + 1][c]) == if c < |data[r]| then data[r][c] else ""
    {
      assert t.rows[r + 1] == DataRow(data[r], |headers|);
      if c < |data[r]| {
        TextCellText(data[r][c], DataFormat);
      } else {
        EmptyCellText();
      }
    }
  }

  /** A builder's table is never cut or padded: its cells read back as the
      builder's rows. */
  lemma BuiltTableReadsBack(t: TableData)
    requires t != NoTable && t.data != [] && t.headers != [] && Rectangular(t)
    ensures var table := CreateBorderedTable(t.data, t.headers).value;
            forall r, c :: 0 <= r < |t.data| && 0 <= c < |t.headers| ==> CellText(table.rows[r + 1][c]) == t.data[r][c]
  {
    BorderedTableReadsBack(t.data, t.headers);
  }
}
