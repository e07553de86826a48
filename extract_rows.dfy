/** The rows `_generate_markdown` writes for the selection-screen, detail,
    data/condition, error and test tables are read back, cell for cell, by
    `extract_title_info`, provided no cell holds a `|`, a `---`, or the
    header word that marks a table's header row. */
module TitleExtractRows {
  import opened Wrappers
  import opened Text
  import opened TitleExtract
  import opened TitleExtractFacts
  import Fsd
  import Render

  // ---- searching a pipe row ----

  /** Where an occurrence of `p` at `k` in `a + sep + b` lies: inside `a`,
      inside `b`, or over a character of `sep`. */
  lemma Locate(a: string, sep: string, b: string, p: string, k: nat)
    requires sep != [] && p != [] && k + |p| <= |a + sep + b| && (a + sep + b)[k..k + |p|] == p
    ensures (k + |p| <= |a| && a[k..k + |p|] == p)
         || (k >= |a| + |sep| && b[k - |a| - |sep|..k - |a| - |sep| + |p|] == p)
         || (exists j :: 0 <= j < |sep| && sep[j] in p)
  {
    var s := a + sep + b;
    if k + |p| <= |a| {
      assert a[k..k + |p|] == s[k..k + |p|];
    } else if k >= |a| + |sep| {
      var m := k - |a| - |sep|;
      assert b[m..m + |p|] == s[k..k + |p|];
    } else {
      var j := if k < |a| then |a| else k;
      assert s[j] == sep[j - |a|];
      assert s[j] == p[j - k];
    }
  }

  /** An occurrence of `p` in `a + sep + b` lies in `a` or in `b` when no
      character of `sep` occurs in `p`. */
  lemma {:induction false} NoRunAcross(a: string, sep: string, b: string, p: string)
    requires sep != [] && p != []
    requires forall j :: 0 <= j < |sep| ==> sep[j] !in p
    requires !Contains(a, p) && !Contains(b, p)
    ensures !Contains(a + sep + b, p)
  {
    var s := a + sep + b;
    if Contains(s, p) {
      var k := IndexOf(s, p);
      Locate(a, sep, b, p, k);
      if k + |p| <= |a| {
        ContainsAt(a, p, k);
      } else if k >= |a| + |sep| {
        ContainsAt(b, p, k - |a| - |sep|);
      }
    }
  }

  /** The empty string holds no non-empty pattern. */
  lemma EmptyHoldsNothing(p: string)
    requires p != []
    ensures !Contains("", p)
  {
  }

  /** Joining pieces with ` | ` creates no new occurrence of a pattern
      without spaces or bars. */
  lemma {:induction false} JoinNoRun(cells: seq<string>, p: string)
    requires p != [] && ' ' !in p && '|' !in p
    requires forall i :: 0 <= i < |cells| ==> !Contains(cells[i], p)
    ensures !Contains(Join(cells, " | "), p)
  {
    if cells == [] {
      EmptyHoldsNothing(p);
    } else if |cells| > 1 {
      JoinNoRun(cells[1..], p);
      NoRunAcross(cells[0], " | ", Join(cells[1..], " | "), p);
    }
  }

  /** A pipe row holds a pattern without spaces or bars only when a cell does. */
  lemma PipeRowNoRun(cells: seq<string>, p: string)
    requires p != [] && ' ' !in p && '|' !in p
    requires forall i :: 0 <= i < |cells| ==> !Contains(cells[i], p)
    ensures !Contains(PipeRow(cells), p)
  {
    var j := Join(cells, " | ");
    JoinNoRun(cells, p);
    EmptyHoldsNothing(p);
    NoRunAcross("", "| ", j, p);
    assert "" + "| " + j == "| " + j;
    NoRunAcross("| " + j, " |", "", p);
    assert "| " + j + " |" + "" == PipeRow(cells);
  }

  /** Padding a cell with a space on each side adds no occurrence of a word
      that neither starts nor ends with a space. */
  lemma {:induction false} PaddedContains(c: string, w: string)
    requires w != [] && w[0] != ' ' && w[|w| - 1] != ' '
    ensures Contains(" " + c + " ", w) ==> Contains(c, w)
  {
    var s := " " + c + " ";
    if Contains(s, w) {
      var k := IndexOf(s, w);
      assert s[k] == w[0];
      assert s[k + |w| - 1] == w[|w| - 1];
      assert c[k - 1..k - 1 + |w|] == s[k..k + |w|];
      ContainsAt(c, w, k - 1);
    }
  }

  lemma {:induction false} AnyContainsNone(xs: seq<string>, w: string)
    requires forall i :: 0 <= i < |xs| ==> !Contains(xs[i], w)
    ensures !AnyContains(xs, w)
  {
    if xs != [] {
      AnyContainsNone(xs[1..], w);
    }
  }

  // ---- one rendered row ----

  /** A cell that a rendered row can carry and still be read back as a data
      row of a table whose header holds `w`. */
  predicate RowCell(c: string, w: string) {
    CleanCell(c) && !Contains(c, "---") && !Contains(c, w)
  }

  /** A header word that neither starts nor ends with a space. */
  predicate Word(w: string) {
    w != [] && w[0] != ' ' && w[|w| - 1] != ' '
  }

  /** A rendered row is a stripped `|` line without `---` that is kept for
      any column count up to its own, and its cells read back unchanged. */
  lemma RowRead(cells: seq<string>, w: string, columns: nat)
    requires 1 <= columns <= |cells| && Word(w)
    requires forall i :: 0 <= i < |cells| ==> RowCell(cells[i], w)
    ensures var line := PipeRow(cells);
            Stripped(line) && StartsWith(line, "|") && !Contains(line, "---")
            && Kept(line, w, columns) && Cells(line) == cells
  {
    PipeRowEnds(cells);
    PipeRowNoRun(cells, "---");
    CellsOfPipeRow(cells);
    PiecesLackWord(cells, w);
  }

  /** A rendered row begins and ends with `|`. */
  lemma PipeRowEnds(cells: seq<string>)
    ensures var line := PipeRow(cells);
            Stripped(line) && StartsWith(line, "|")
  {
    var line := PipeRow(cells);
    assert line == "| " + Join(cells, " | ") + " |";
    assert line[0] == '|' && line[|line| - 1] == '|';
  }

  /** No `|`-separated piece of a rendered row holds a word its cells lack. */
  lemma PiecesLackWord(cells: seq<string>, w: string)
    requires 1 <= |cells| && Word(w)
    requires forall i :: 0 <= i < |cells| ==> RowCell(cells[i], w)
    ensures !AnyContains(Split(PipeRow(cells), '|'), w)
  {
    SplitPipeRow(cells);
    var pieces := Split(PipeRow(cells), '|');
    forall i | 0 <= i < |pieces| ensures !Contains(pieces[i], w) {
      if 0 < i < |pieces| - 1 {
        assert pieces[i] == " " + cells[i - 1] + " ";
        PaddedContains(cells[i - 1], w);
      } else {
        EmptyHoldsNothing(w);
      }
    }
    AnyContainsNone(pieces, w);
  }

  /** A `|` line outside the general section is handled by the table step
      alone. */
  lemma {:induction false} StepTableRow(s: Scan, lines: seq<string>, i: nat)
    requires i < |lines| && Stripped(lines[i]) && StartsWith(lines[i], "|") && s.region != General
    ensures Step(s, lines, i).tables == TablesStep(s.tables, s.region, s.sub, lines[i])
  {
    StripStripped(lines[i]);
    TableLineReaches(s, lines[i]);
    StepParts(s, lines, i);
  }

  /** A `|` line is no heading: it reaches the field updates in the current
      section. */
  lemma {:induction false} TableLineReaches(s: Scan, line: string)
    requires StartsWith(line, "|")
    ensures Reaches(s, line) && RegionSeen(s, line) == s.region
  {
    assert line[0] == '|';
    PlainLines(line);
  }

  /** A `|` line holding `---`, the separator row, changes no table. */
  lemma {:induction false} SeparatorRowSkipped(s: Scan, lines: seq<string>, i: nat)
    requires i < |lines| && Stripped(lines[i]) && StartsWith(lines[i], "|") && s.region != General
    requires Contains(lines[i], "---")
    ensures Step(s, lines, i).tables == s.tables
  {
    StepTableRow(s, lines, i);
  }

  /** In the error and test sections, a row with fewer than five cells or a
      piece holding the header word changes no table. */
  lemma {:induction false} NarrowRowIgnored(s: Scan, lines: seq<string>, i: nat)
    requires i < |lines| && Stripped(lines[i]) && StartsWith(lines[i], "|")
    requires (s.region == ErrorHandling && !Kept(lines[i], "Error Description", 5))
          || (s.region == Testing && !Kept(lines[i], "Test Condition", 5))
    ensures Step(s, lines, i).tables == s.tables
  {
    StepTableRow(s, lines, i);
  }

  /** A rendered row outside the general section goes to the table step
      as a kept row with its own cells. */
  lemma {:induction false} ReadRow(s: Scan, lines: seq<string>, i: nat, cells: seq<string>, w: string, columns: nat)
    requires i < |lines| && lines[i] == PipeRow(cells) && s.region != General
    requires 1 <= columns <= |cells| && Word(w)
    requires forall k :: 0 <= k < |cells| ==> RowCell(cells[k], w)
    ensures Step(s, lines, i).tables == TablesStep(s.tables, s.region, s.sub, lines[i])
    ensures StartsWith(lines[i], "|") && !Contains(lines[i], "---")
    ensures Kept(lines[i], w, columns) && Cells(lines[i]) == cells
  {
    RowRead(cells, w, columns);
    StepTableRow(s, lines, i);
  }

  // ---- the table step on a kept row ----

  /** The table step on a row: the design row, then the error row, then the
      test row, each only in its own section. */
  lemma {:induction false} TablesStepRow(t: Tables, region: Region, sub: Option<DesignTable>, line: string)
    requires StartsWith(line, "|") && !Contains(line, "---")
    ensures var t1 := if region == Design && sub.Some? then DesignRow(t, sub.value, line) else t;
            var t2 := if region == ErrorHandling && Kept(line, "Error Description", 5) then t1.(errors := t1.errors + [ErrorOf(Cells(line))]) else t1;
            TablesStep(t, region, sub, line)
            == if region == Testing && Kept(line, "Test Condition", 5) then t2.(tests := t2.tests + [TestOf(Cells(line))]) else t2
  {
  }

  lemma ErrorTableStep(t: Tables, sub: Option<DesignTable>, line: string)
    requires StartsWith(line, "|") && !Contains(line, "---") && Kept(line, "Error Description", 5)
    ensures TablesStep(t, ErrorHandling, sub, line) == t.(errors := t.errors + [ErrorOf(Cells(line))])
  {
    TablesStepRow(t, ErrorHandling, sub, line);
  }

  lemma TestTableStep(t: Tables, sub: Option<DesignTable>, line: string)
    requires StartsWith(line, "|") && !Contains(line, "---") && Kept(line, "Test Condition", 5)
    ensures TablesStep(t, Testing, sub, line) == t.(tests := t.tests + [TestOf(Cells(line))])
  {
    TablesStepRow(t, Testing, sub, line);
  }

  lemma SelectionTableStep(t: Tables, line: string)
    requires StartsWith(line, "|") && !Contains(line, "---") && Kept(line, "Parameter", 6)
    ensures TablesStep(t, Design, Some(SelectionScreen), line)
         == t.(selection := t.selection + [SelectionOf(Cells(line))])
  {
    TablesStepRow(t, Design, Some(SelectionScreen), line);
  }

  lemma DetailTableStep(t: Tables, line: string)
    requires StartsWith(line, "|") && !Contains(line, "---") && Kept(line, "Field Name", 5)
    ensures TablesStep(t, Design, Some(DetailProcessing), line)
         == t.(detail := t.detail + [DetailOf(Cells(line))])
  {
    TablesStepRow(t, Design, Some(DetailProcessing), line);
    assert DesignRow(t, DetailProcessing, line) == t.(detail := t.detail + [DetailOf(Cells(line))]);
  }

  /** The list of a data/condition table. */
  function ConditionList(t: Tables, sub: DesignTable): seq<ConditionItem> {
    match sub
    case ValidDatasets => t.validDatasets
    case CountryInfo => t.countryInfo
    case CurrencyT500c => t.currencyT500c
    case CurrencyT001 => t.currencyT001
    case _ => []
  }

  predicate ConditionTable(sub: DesignTable) {
    sub == ValidDatasets || sub == CountryInfo || sub == CurrencyT500c || sub == CurrencyT001
  }

  /** The tables but the four data/condition lists. */
  predicate OthersKept(t: Tables, u: Tables) {
    u.selection == t.selection && u.detail == t.detail && u.errors == t.errors && u.tests == t.tests
  }

  lemma ConditionTableStep(t: Tables, sub: DesignTable, line: string)
    requires StartsWith(line, "|") && !Contains(line, "---") && Kept(line, "Data", 2) && ConditionTable(sub)
    ensures var u := TablesStep(t, Design, Some(sub), line);
            ConditionList(u, sub) == ConditionList(t, sub) + [ConditionOf(Cells(line))]
            && (forall other :: other != sub ==> ConditionList(u, other) == ConditionList(t, other))
            && OthersKept(t, u)
  {
    TablesStepRow(t, Design, Some(sub), line);
    ConditionDesignRow(t, sub, line);
    AddConditionEffect(t, sub, ConditionOf(Cells(line)));
  }

  /** `t` with `c` appended to the list of data/condition table `sub`. */
  function AddCondition(t: Tables, sub: DesignTable, c: ConditionItem): Tables {
    match sub
    case ValidDatasets => t.(validDatasets := t.validDatasets + [c])
    case CountryInfo => t.(countryInfo := t.countryInfo + [c])
    case CurrencyT500c => t.(currencyT500c := t.currencyT500c + [c])
    case CurrencyT001 => t.(currencyT001 := t.currencyT001 + [c])
    case _ => t
  }

  lemma ConditionDesignRow(t: Tables, sub: DesignTable, line: string)
    requires Kept(line, "Data", 2) && ConditionTable(sub)
    ensures DesignRow(t, sub, line) == AddCondition(t, sub, ConditionOf(Cells(line)))
  {
    match sub
    case ValidDatasets =>
    case CountryInfo =>
    case CurrencyT500c =>
    case CurrencyT001 =>
  }

  lemma AddConditionEffect(t: Tables, sub: DesignTable, c: ConditionItem)
    requires ConditionTable(sub)
    ensures var u := AddCondition(t, sub, c);
            ConditionList(u, sub) == ConditionList(t, sub) + [c]
            && (forall other :: other != sub ==> ConditionList(u, other) == ConditionList(t, other))
            && OthersKept(t, u)
  {
  }

  // ---- the rendered rows of each table ----

  /** The row number the renderer writes is digits only. */
  lemma NumberCell(n: nat, w: string)
    requires w != [] && !IsDigit(w[0])
    ensures RowCell(NatToString(n), w)
  {
    var d := NatToString(n);
    assert d[0] != ' ' && d[|d| - 1] != ' ';
    NotContainsChar(d, "|");
    NotContainsChar(d, "---");
    NotContainsChar(d, w);
  }

  /** An error row `| n | description | resolution | code | severity |` in
      the error section appends exactly that scenario to the errors. */
  lemma {:induction false} ErrorRowRead(s: Scan, lines: seq<string>, i: nat, n: nat, e: Fsd.ErrorScenario)
    requires i < |lines| && lines[i] == Render.ErrorRow(n, e) && s.region == ErrorHandling
    requires var w := "Error Description";
             RowCell(e.errorDescription, w) && RowCell(e.resolution, w)
             && RowCell(e.errorCode, w) && RowCell(e.severity, w)
    ensures Step(s, lines, i).tables
         == s.tables.(errors := s.tables.errors
                                + [ErrorItem(NatToString(n), e.errorDescription, e.resolution, e.errorCode, e.severity)])
  {
    NumberCell(n, "Error Description");
    ReadRow(s, lines, i, Render.ErrorCells(n, e), "Error Description", 5);
    ErrorTableStep(s.tables, s.sub, lines[i]);
  }

  /** A test row `| n | condition | expected | data | priority |` in the
      testing section appends exactly that scenario to the tests. */
  lemma {:induction false} TestRowRead(s: Scan, lines: seq<string>, i: nat, n: nat, t: Fsd.TestScenario)
    requires i < |lines| && lines[i] == Render.TestRow(n, t) && s.region == Testing
    requires var w := "Test Condition";
             RowCell(t.condition, w) && RowCell(t.expectedResult, w)
             && RowCell(t.testData, w) && RowCell(t.priority, w)
    ensures Step(s, lines, i).tables
         == s.tables.(tests := s.tables.tests
                               + [TestItem(NatToString(n), t.condition, t.expectedResult, t.testData, t.priority)])
  {
    NumberCell(n, "Test Condition");
    ReadRow(s, lines, i, Render.TestCells(n, t), "Test Condition", 5);
    TestTableStep(s.tables, s.sub, lines[i]);
  }

  /** `Yes` and `No` are clean cells without the selection header word. */
  lemma YesNoCell(b: bool)
    ensures RowCell(Render.YesNo(b), "Parameter")
  {
    var c := Render.YesNo(b);
    NotContainsChar(c, "|");
    NotContainsChar(c, "---");
    NotContainsChar(c, "Parameter");
  }

  /** A selection row under the selection-screen subsection appends the
      parameter with its three flags as `Yes`/`No`, in the order mandatory,
      select-option, no-intervals. */
  lemma {:induction false} SelectionRowRead(s: Scan, lines: seq<string>, i: nat, p: Fsd.SelectionParameter)
    requires i < |lines| && lines[i] == Render.SelectionRow(p)
    requires s.region == Design && s.sub == Some(SelectionScreen)
    requires var w := "Parameter";
             RowCell(p.name, w) && RowCell(p.kind, w) && RowCell(p.description, w)
    ensures Step(s, lines, i).tables
         == s.tables.(selection := s.tables.selection
                                   + [SelectionItem(p.name, p.kind, p.description, Render.YesNo(p.isMandatory),
                                                    Render.YesNo(p.isSelectOption), Render.YesNo(p.hasNoIntervals))])
  {
    YesNoCell(p.isMandatory);
    YesNoCell(p.isSelectOption);
    YesNoCell(p.hasNoIntervals);
    ReadRow(s, lines, i, Render.SelectionCells(p), "Parameter", 6);
    SelectionTableStep(s.tables, lines[i]);
  }

  /** A word of capital letters is a clean cell without the detail header
      word, whose second letter is lower-case. */
  lemma CapitalsCell(c: string)
    requires c != [] && forall k :: 0 <= k < |c| ==> 'A' <= c[k] <= 'Z'
    ensures RowCell(c, "Field Name")
  {
    NotContainsChar(c, "|");
    NotContainsChar(c, "---");
    if Contains(c, "Field Name") {
      ContainsChar(c, "Field Name", 1);
    }
  }

  /** Every character of a pattern occurs in a text that contains it. */
  lemma ContainsChar(s: string, p: string, j: nat)
    requires Contains(s, p) && j < |p|
    ensures p[j] in s
  {
    var k := IndexOf(s, p);
    assert s[k + j] == p[j];
  }

  /** The processing type's value is a clean cell without the detail header
      word. */
  lemma {:induction false} ProcessingTypeCell(t: Fsd.ProcessingType)
    ensures RowCell(t.Value(), "Field Name")
  {
    match t
    case Direct => CapitalsCell("DIRECT");
    case Lookup => CapitalsCell("LOOKUP");
    case Calculation => CapitalsCell("CALCULATION");
    case Constant => CapitalsCell("CONSTANT");
    case Aggregation => CapitalsCell("AGGREGATION");
  }

  /** A detail row under the detail-processing subsection appends the field
      mapping, its processing type as the enum's value. */
  lemma {:induction false} DetailRowRead(s: Scan, lines: seq<string>, i: nat, f: Fsd.FieldMapping)
    requires i < |lines| && lines[i] == Render.DetailRow(f)
    requires s.region == Design && s.sub == Some(DetailProcessing)
    requires var w := "Field Name";
             RowCell(f.displayName, w) && RowCell(f.technicalField, w)
             && RowCell(f.sourceTable, w) && RowCell(f.processingLogic, w)
    ensures Step(s, lines, i).tables
         == s.tables.(detail := s.tables.detail
                                + [DetailItem(f.displayName, f.technicalField, f.sourceTable,
                                              f.processingLogic, f.processingType.Value())])
  {
    ProcessingTypeCell(f.processingType);
    ReadRow(s, lines, i, Render.DetailCells(f), "Field Name", 5);
    DetailTableStep(s.tables, lines[i]);
  }

  /** A data/condition row under one of the four `Form ...` or valid-datasets
      subsections appends the row to that table's list and to no other. */
  lemma {:induction false} ConditionRowRead(s: Scan, lines: seq<string>, i: nat, r: Fsd.DataConditionRow, sub: DesignTable)
    requires i < |lines| && lines[i] == Render.DataConditionLine(r)
    requires s.region == Design && s.sub == Some(sub) && ConditionTable(sub)
    requires RowCell(r.data, "Data") && RowCell(r.condition, "Data")
    ensures var t := Step(s, lines, i).tables;
            ConditionList(t, sub) == ConditionList(s.tables, sub) + [ConditionItem(r.data, r.condition)]
            && (forall other :: other != sub ==> ConditionList(t, other) == ConditionList(s.tables, other))
            && OthersKept(s.tables, t)
  {
    ReadRow(s, lines, i, Render.DataConditionCells(r), "Data", 2);
    ConditionTableStep(s.tables, sub, lines[i]);
  }
}
