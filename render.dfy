/** The Markdown rendering of an FSD document (`_generate_markdown`) and the
    fallback report description (`_compose_report_description`). The Excel
    lookups, the language-model rewording and the clock are parameters. */
module Render {
  import opened Wrappers
  import opened Text
  import opened Fsd
  import Seqs

  /** What the renderer consults outside the document: the Assign Nodin and
      the Requirement Description for a RICEFW id (each `None` when the
      spreadsheet has no row or cannot be read), `_improve_text`, and the
      formatted generation time. */
  datatype Env = Env(
    nodin: string -> Option<string>,
    requirement: string -> Option<string>,
    improve: string -> string,
    stamp: string)

  /** `if value:` on a lookup result. */
  predicate Found(v: Option<string>) {
    v.Some? && v.value != ""
  }

  const RicefwPrefix := "RICEFW ID:"

  /** The id of the first related document written `RICEFW ID: <id>`:
      `doc.split(":", 1)[1].strip()`. Later entries are never consulted. */
  function FirstRicefw(related: seq<string>): Option<string> {
    if related == [] then None
    else if StartsWith(related[0], RicefwPrefix) then Some(Strip(related[0][|RicefwPrefix|..]))
    else FirstRicefw(related[1..])
  }

  /** `FirstRicefw` finds nothing exactly when no entry starts with the
      prefix, and otherwise the stripped remainder of the first one that does. */
  lemma {:induction false} FirstRicefwSpec(related: seq<string>)
    ensures FirstRicefw(related).None? <==> forall i :: 0 <= i < |related| ==> !StartsWith(related[i], RicefwPrefix)
    ensures FirstRicefw(related).Some? ==>
              exists i :: 0 <= i < |related| && StartsWith(related[i], RicefwPrefix)
                          && FirstRicefw(related).value == Strip(related[i][|RicefwPrefix|..])
                          && forall j :: 0 <= j < i ==> !StartsWith(related[j], RicefwPrefix)
  {
    if related != [] && !StartsWith(related[0], RicefwPrefix) {
      var rest := related[1..];
      FirstRicefwSpec(rest);
      FirstRicefwSkipNone(related);
      if FirstRicefw(rest).Some? {
        var i :| 0 <= i < |rest| && StartsWith(rest[i], RicefwPrefix)
                 && FirstRicefw(rest).value == Strip(rest[i][|RicefwPrefix|..])
                 && forall j :: 0 <= j < i ==> !StartsWith(rest[j], RicefwPrefix);
        FirstRicefwSkipSome(related, i);
      }
    }
  }

  /** An entry without the prefix is skipped: the search finds nothing in
      the list exactly when it finds nothing in the rest. */
  lemma FirstRicefwSkipNone(related: seq<string>)
    requires related != [] && !StartsWith(related[0], RicefwPrefix)
    requires var rest := related[1..];
             FirstRicefw(rest).None? <==> forall i :: 0 <= i < |rest| ==> !StartsWith(rest[i], RicefwPrefix)
    ensures FirstRicefw(related).None? <==> forall i :: 0 <= i < |related| ==> !StartsWith(related[i], RicefwPrefix)
  {
    var rest := related[1..];
    assert FirstRicefw(related) == FirstRicefw(rest);
    assert forall i :: 1 <= i < |related| ==> rest[i - 1] == related[i];
  }

  /** An entry without the prefix is skipped: a first match in the rest is
      a first match in the list, one place further on. */
  lemma FirstRicefwSkipSome(related: seq<string>, i: nat)
    requires related != [] && !StartsWith(related[0], RicefwPrefix)
    requires var rest := related[1..];
             i < |rest| && StartsWith(rest[i], RicefwPrefix) && FirstRicefw(rest) == Some(Strip(rest[i][|RicefwPrefix|..]))
             && forall j :: 0 <= j < i ==> !StartsWith(rest[j], RicefwPrefix)
    ensures i + 1 < |related| && StartsWith(related[i + 1], RicefwPrefix)
            && FirstRicefw(related) == Some(Strip(related[i + 1][|RicefwPrefix|..]))
            && forall j :: 0 <= j < i + 1 ==> !StartsWith(related[j], RicefwPrefix)
  {
    var rest := related[1..];
    assert FirstRicefw(related) == FirstRicefw(rest);
    assert related[i + 1] == rest[i];
    forall j | 0 <= j < i + 1 ensures !StartsWith(related[j], RicefwPrefix) {
      if j > 0 { assert related[j] == rest[j - 1]; }
    }
  }

  /** Only the first RICEFW entry matters: whatever follows it, the id found is the same. */
  lemma {:induction false} FirstRicefwIgnoresRest(before: seq<string>, entry: string, after: seq<string>)
    requires forall i :: 0 <= i < |before| ==> !StartsWith(before[i], RicefwPrefix)
    requires StartsWith(entry, RicefwPrefix)
    ensures FirstRicefw(before + [entry] + after) == Some(Strip(entry[|RicefwPrefix|..]))
  {
    var all := before + [entry] + after;
    FirstRicefwSpec(all);
    assert all[|before|] == entry;
    assert forall i :: 0 <= i < |before| ==> all[i] == before[i];
  }

  /** The `**User Requirements**` value: the improved Requirement Description
      of the first RICEFW id when the spreadsheet has one, else the document's
      own user requirements. */
  function RequirementValue(doc: FsdDocument, env: Env): string {
    match FirstRicefw(doc.relatedDocuments)
    case Some(id) => if Found(env.requirement(id)) then env.improve(env.requirement(id).value) else doc.userRequirements
    case None => doc.userRequirements
  }

  /** The `**Program Name**` value: the Assign Nodin of the first RICEFW id
      when there is one, else `program_name`. */
  function ProgramNameValue(doc: FsdDocument, env: Env): string {
    match FirstRicefw(doc.relatedDocuments)
    case Some(id) => if Found(env.nodin(id)) then env.nodin(id).value else doc.programName
    case None => doc.programName
  }

  const DefaultDescription := "Report ini dirancang untuk memenuhi " + "kebutuhan bisnis yang telah ditentukan."

  /** The requirement text the fallback description starts from: the
      Requirement Description of the first RICEFW id when found (not
      improved here), else the user requirements. */
  function DescriptionBase(doc: FsdDocument, env: Env): string {
    var looked := match FirstRicefw(doc.relatedDocuments)
                  case Some(id) => if Found(env.requirement(id)) then env.requirement(id).value else ""
                  case None => "";
    if looked != "" then looked else doc.userRequirements
  }

  /** The sentences the fallback description is made of: the requirement text
      (from the spreadsheet, else the user requirements), then one sentence
      each counting the selection parameters and the field mappings. */
  function DescriptionParts(doc: FsdDocument, env: Env): seq<string> {
    var base := DescriptionBase(doc, env);
    (if base != "" then [base] else [])
    + (if doc.selectionParameters != [] then
         ["Report ini memiliki " + NatToString(|doc.selectionParameters|) + " parameter selection screen."]
       else [])
    + (if doc.fieldMappings != [] then
         ["Proses detail mencakup " + NatToString(|doc.fieldMappings|) + " field utama."]
       else [])
  }

  /** `_compose_report_description`: the design description when there is one,
      otherwise the improved join of the parts, or of the default sentence
      when there are none. */
  function ReportDescription(doc: FsdDocument, env: Env): string {
    if doc.desainReportDescription != "" then doc.desainReportDescription
    else
      var parts := DescriptionParts(doc, env);
      env.improve(Join(if parts == [] then [DefaultDescription] else parts, " "))
  }

  /** The description is the design text when there is one; otherwise the
      improved sentences, the requirement text first and the parameter and
      field counts after, or the improved default sentence when there is
      nothing to say. */
  lemma {:induction false} ReportDescriptionCases(doc: FsdDocument, env: Env)
    ensures doc.desainReportDescription != "" ==> ReportDescription(doc, env) == doc.desainReportDescription
    ensures doc.desainReportDescription == "" && DescriptionParts(doc, env) == [] ==>
              ReportDescription(doc, env) == env.improve(DefaultDescription)
    ensures doc.desainReportDescription == "" && DescriptionParts(doc, env) != [] ==>
              ReportDescription(doc, env) == env.improve(Join(DescriptionParts(doc, env), " "))
    ensures DescriptionParts(doc, env) == [] <==>
              DescriptionBase(doc, env) == "" && doc.selectionParameters == [] && doc.fieldMappings == []
    ensures doc.selectionParameters != [] ==>
              "Report ini memiliki " + NatToString(|doc.selectionParameters|) + " parameter selection screen."
                in DescriptionParts(doc, env)
  {
    JoinSingle(DefaultDescription, " ");
  }

  // ---- lines ----

  function YesNo(b: bool): string {
    if b then "Yes" else "No"
  }

  function RelatedLine(env: Env, d: string): string {
    if StartsWith(d, RicefwPrefix) && Found(env.nodin(Strip(d[|RicefwPrefix|..]))) then
      "  - RICEFW ID: " + env.nodin(Strip(d[|RicefwPrefix|..])).value
    else "  - " + d
  }

  function ReviewerLine(r: Reviewer): string {
    "  - " + r.role + ": " + r.name
  }

  function VersionLine(v: Version): string {
    "  - " + v.version + ": " + v.change + " by " + v.author + " on " + v.date
  }

  function AssumptionLine(a: string): string {
    "- " + a
  }

  /** The cells of a selection-screen row, booleans in the order mandatory,
      select-option, no-intervals. */
  function SelectionCells(p: SelectionParameter): seq<string> {
    [p.name, p.kind, p.description, YesNo(p.isMandatory), YesNo(p.isSelectOption), YesNo(p.hasNoIntervals)]
  }

  function DetailCells(f: FieldMapping): seq<string> {
    [f.displayName, f.technicalField, f.sourceTable, f.processingLogic, f.processingType.Value()]
  }

  function DataConditionCells(r: DataConditionRow): seq<string> {
    [r.data, r.condition]
  }

  /** An error row: its 1-based number, then the scenario's fields. */
  function ErrorCells(n: nat, e: ErrorScenario): seq<string> {
    [NatToString(n), e.errorDescription, e.resolution, e.errorCode, e.severity]
  }

  function TestCells(n: nat, t: TestScenario): seq<string> {
    [NatToString(n), t.condition, t.expectedResult, t.testData, t.priority]
  }

  function SelectionRow(p: SelectionParameter): string { PipeRow(SelectionCells(p)) }
  function DetailRow(f: FieldMapping): string { PipeRow(DetailCells(f)) }
  function DataConditionLine(r: DataConditionRow): string { PipeRow(DataConditionCells(r)) }

  function ErrorRow(n: nat, e: ErrorScenario): string { PipeRow(ErrorCells(n, e)) }
  function TestRow(n: nat, t: TestScenario): string { PipeRow(TestCells(n, t)) }

  /** A labelled bullet list, present only when it has items. */
  function ListBlock(caption: string, items: seq<string>): seq<string> {
    if items == [] then [] else [caption] + items + [""]
  }

  /** A titled pipe table, present only when it has rows; `closed` adds the
      blank line that follows every table but the last. */
  function TableBlock(heading: string, header: string, separator: string, rows: seq<string>, closed: bool): seq<string> {
    if rows == [] then []
    else [heading, "", header, separator] + rows + (if closed then [""] else [])
  }

  const SelectionHeading := "### 4.2 Selection Screen"
  const DetailHeading := "### 4.3 Detail Processing"
  const DatasetHeading := "### 4.4 Detail Process Only valid datasets"
  const CountryHeading := "### Form Get_Country_Info"
  const T500cHeading := "### Form Get_Currency_T500C"
  const T001Heading := "### Form Get_Currency_T001"
  const ErrorHeading := "## 5. PENANGANAN ERROR"
  const TestHeading := "## 6. PERSYARATAN PENGUJIAN"

  /** The dashed line under a table header: one run of dashes per column,
      as wide as the column's padded title. */
  function Separator(columns: seq<string>): string {
    "|" + Join(Seqs.Map((c: string) => seq(|c| + 2, _ => '-'), columns), "|") + "|"
  }

  const SelectionColumns := ["Parameter", "Type", "Description", "Mandatory", "Select-Option", "No Intervals"]
  const DetailColumns := ["Field Name", "Technical Field", "Source Table", "Processing Logic", "Processing Type"]
  const DataConditionColumns := ["Data", "Kondisi"]
  const ErrorColumns := ["No", "Error Description", "Resolution", "Error Code", "Severity"]
  const TestColumns := ["No", "Test Condition", "Expected Result", "Test Data", "Priority"]

  function TitleLines(doc: FsdDocument, env: Env): seq<string> {
    ["# Functional Specification Design (FSD)", "## " + doc.programName, "### " + doc.reportDescription,
     "", "**Generated on:** " + env.stamp, ""]
  }

  function InfoLines(doc: FsdDocument, env: Env): seq<string> {
    ["## 1. INFORMASI DOKUMEN", "",
     "- **Project**: " + doc.projectName,
     "- **Document Location**: " + doc.documentLocation, ""]
    + ListBlock("- **Related Documents**:", Seqs.Map(d => RelatedLine(env, d), doc.relatedDocuments))
    + ListBlock("- **Reviewers**:", Seqs.Map(ReviewerLine, doc.reviewers))
    + ListBlock("- **Version History**:", Seqs.Map(VersionLine, doc.versionHistory))
  }

  function GeneralLines(doc: FsdDocument, env: Env): seq<string> {
    ["## 2. PERSYARATAN UMUM", "", "**User Requirements**: " + RequirementValue(doc, env), "", "**Assumptions**:"]
    + Seqs.Map(AssumptionLine, doc.assumptions) + [""]
  }

  function ExistingLines(doc: FsdDocument, env: Env): seq<string> {
    ["## 3. EXISTING SAP OBJECTS", "",
     "- **Program Name**: " + ProgramNameValue(doc, env),
     "- **Transaction Code**: " + doc.transactionCode,
     "- **Menu Path**: " + doc.menuPath, ""]
  }

  function DescriptionLines(doc: FsdDocument, env: Env): seq<string> {
    ["## 4. DESAIN", "", "### 4.1 Description detail dari Report", "", ReportDescription(doc, env), ""]
  }

  /** Everything before the optional tables. */
  function FrontLines(doc: FsdDocument, env: Env): seq<string> {
    TitleLines(doc, env) + InfoLines(doc, env) + GeneralLines(doc, env) + ExistingLines(doc, env)
    + DescriptionLines(doc, env)
  }

  function SelectionTable(doc: FsdDocument): seq<string> {
    TableBlock(SelectionHeading, PipeRow(SelectionColumns), Separator(SelectionColumns),
               Seqs.Map(SelectionRow, doc.selectionParameters), true)
  }

  function DetailTable(doc: FsdDocument): seq<string> {
    TableBlock(DetailHeading, PipeRow(DetailColumns), Separator(DetailColumns),
               Seqs.Map(DetailRow, doc.fieldMappings), true)
  }

  /** `append_form` and the 4.4 table: a data/condition table under a heading. */
  function DataConditionTable(heading: string, rows: seq<DataConditionRow>): seq<string> {
    TableBlock(heading, PipeRow(DataConditionColumns), Separator(DataConditionColumns),
               Seqs.Map(DataConditionLine, rows), true)
  }

  function ErrorTable(doc: FsdDocument): seq<string> {
    TableBlock(ErrorHeading, PipeRow(ErrorColumns), Separator(ErrorColumns), Seqs.Enumerate(ErrorRow, doc.errorScenarios), true)
  }

  /** The test table closes the document: no blank line follows it. */
  function TestTable(doc: FsdDocument): seq<string> {
    TableBlock(TestHeading, PipeRow(TestColumns), Separator(TestColumns), Seqs.Enumerate(TestRow, doc.testScenarios), false)
  }

  /** The optional tables, in their fixed order. */
  function TableLines(doc: FsdDocument): seq<string> {
    SelectionTable(doc)
    + (DetailTable(doc)
    + (DataConditionTable(DatasetHeading, doc.validDatasetRules)
    + (DataConditionTable(CountryHeading, doc.countryInfo)
    + (DataConditionTable(T500cHeading, doc.currencyT500c)
    + (DataConditionTable(T001Heading, doc.currencyT001)
    + (ErrorTable(doc) + TestTable(doc)))))))
  }

  /** The lines `_generate_markdown` joins with newlines. */
  function MarkdownLines(doc: FsdDocument, env: Env): seq<string> {
    FrontLines(doc, env) + TableLines(doc)
  }

  // ---- what the rendering promises ----

  predicate IsHeading(line: string) {
    line != [] && line[0] == '#'
  }

  /** The headings of the optional sections. */
  const TableHeadings: seq<string> := [SelectionHeading, DetailHeading, DatasetHeading, CountryHeading,
                                       T500cHeading, T001Heading, ErrorHeading, TestHeading]

  /** The document's own text does not imitate an optional heading: the title
      lines and the 4.1 description are not one of them. */
  predicate NoHeadingClash(doc: FsdDocument, env: Env) {
    ("## " + doc.programName) !in TableHeadings
    && ("### " + doc.reportDescription) !in TableHeadings
    && ReportDescription(doc, env) !in TableHeadings
  }

  /** The heading lines of a text, in order: its outline. */
  function Headings(lines: seq<string>): seq<string> {
    if lines == [] then [] else HeadingOf(lines[0]) + Headings(lines[1..])
  }

  function HeadingOf(line: string): seq<string> {
    if IsHeading(line) then [line] else []
  }

  /** The outline holds exactly the heading lines. */
  lemma {:induction false} HeadingsMembers(lines: seq<string>, x: string)
    ensures x in Headings(lines) <==> x in lines && IsHeading(x)
  {
    if lines != [] {
      HeadingsMembers(lines[1..], x);
      assert lines == [lines[0]] + lines[1..];
    }
  }

  lemma {:induction false} HeadingsAppend(a: seq<string>, b: seq<string>)
    ensures Headings(a + b) == Headings(a) + Headings(b)
  {
    if a == [] {
      assert a + b == b;
    } else {
      assert (a + b)[0] == a[0];
      assert (a + b)[1..] == a[1..] + b;
      HeadingsAppend(a[1..], b);
    }
  }

  lemma HeadingsDrop(lines: seq<string>, k: nat)
    requires k < |lines|
    ensures Headings(lines[k..]) == HeadingOf(lines[k]) + Headings(lines[k + 1..])
  {
    assert lines[k..][0] == lines[k];
    assert lines[k..][1..] == lines[k + 1..];
  }

  lemma {:induction false} HeadingsNone(lines: seq<string>)
    requires forall i :: 0 <= i < |lines| ==> !IsHeading(lines[i])
    ensures Headings(lines) == []
  {
    if lines != [] {
      HeadingsNone(lines[1..]);
    }
  }

  lemma ListBlockOutline(caption: string, items: seq<string>)
    requires !IsHeading(caption)
    requires forall i :: 0 <= i < |items| ==> !IsHeading(items[i])
    ensures Headings(ListBlock(caption, items)) == []
  {
    HeadingsNone(ListBlock(caption, items));
  }

  lemma PipeRowNoHeading(cells: seq<string>)
    ensures !IsHeading(PipeRow(cells))
  {
    assert PipeRow(cells)[0] == '|';
  }

  lemma SeparatorNoHeading(columns: seq<string>)
    ensures !IsHeading(Separator(columns))
  {
    assert Separator(columns)[0] == '|';
  }

  /** A table block contributes its heading to the outline exactly when it has rows. */
  lemma TableBlockOutline(heading: string, columns: seq<string>, rows: seq<string>, closed: bool)
    requires forall i :: 0 <= i < |rows| ==> !IsHeading(rows[i])
    ensures Headings(TableBlock(heading, PipeRow(columns), Separator(columns), rows, closed))
            == if rows == [] then [] else HeadingOf(heading)
  {
    PipeRowNoHeading(columns);
    SeparatorNoHeading(columns);
    BlockOutline(heading, PipeRow(columns), Separator(columns), rows, closed);
  }

  lemma BlockOutline(heading: string, header: string, separator: string, rows: seq<string>, closed: bool)
    requires !IsHeading(header) && !IsHeading(separator)
    requires forall i :: 0 <= i < |rows| ==> !IsHeading(rows[i])
    ensures Headings(TableBlock(heading, header, separator, rows, closed)) == if rows == [] then [] else HeadingOf(heading)
  {
    if rows != [] {
      var rest := BlockRest(header, separator, rows, closed);
      assert TableBlock(heading, header, separator, rows, closed) == [heading] + rest;
      HeadingsAppend([heading], rest);
      HeadingsNone(rest);
    }
  }

  /** What follows a table's heading: none of it is a heading line. */
  lemma BlockRest(header: string, separator: string, rows: seq<string>, closed: bool) returns (rest: seq<string>)
    requires !IsHeading(header) && !IsHeading(separator)
    requires forall i :: 0 <= i < |rows| ==> !IsHeading(rows[i])
    ensures rest == [""] + [header, separator] + rows + (if closed then [""] else [])
    ensures forall i :: 0 <= i < |rest| ==> !IsHeading(rest[i])
  {
    rest := [""] + [header, separator] + rows + (if closed then [""] else []);
    forall i | 0 <= i < |rest|
      ensures !IsHeading(rest[i])
    {
      if 3 <= i < 3 + |rows| {
        assert rest[i] == rows[i - 3];
      }
    }
  }

  /** The optional headings present among the tables. */
  function PresentHeadings(doc: FsdDocument): seq<string> {
    Opt(doc.selectionParameters != [], SelectionHeading)
    + (Opt(doc.fieldMappings != [], DetailHeading)
    + (Opt(doc.validDatasetRules != [], DatasetHeading)
    + (Opt(doc.countryInfo != [], CountryHeading)
    + (Opt(doc.currencyT500c != [], T500cHeading)
    + (Opt(doc.currencyT001 != [], T001Heading)
    + (Opt(doc.errorScenarios != [], ErrorHeading)
    + Opt(doc.testScenarios != [], TestHeading)))))))
  }

  function Opt(present: bool, h: string): seq<string> {
    if present then [h] else []
  }

  /** Which optional sections have something to show, in heading order. */
  function Shown(doc: FsdDocument): seq<bool> {
    [doc.selectionParameters != [], doc.fieldMappings != [], doc.validDatasetRules != [], doc.countryInfo != [],
     doc.currencyT500c != [], doc.currencyT001 != [], doc.errorScenarios != [], doc.testScenarios != []]
  }

  /** The headings `hs` whose flag in `fs` is set, in order. */
  function Present(hs: seq<string>, fs: seq<bool>): seq<string>
    requires |hs| == |fs|
  {
    if hs == [] then [] else Opt(fs[0], hs[0]) + Present(hs[1..], fs[1..])
  }

  lemma PresentDrop(hs: seq<string>, fs: seq<bool>, k: nat)
    requires |hs| == |fs| && k < |hs|
    ensures Present(hs[k..], fs[k..]) == Opt(fs[k], hs[k]) + Present(hs[k + 1..], fs[k + 1..])
  {
    assert hs[k..][1..] == hs[k + 1..];
    assert fs[k..][1..] == fs[k + 1..];
  }

  /** Among distinct headings, one is present exactly when its flag is set. */
  lemma {:induction false} PresentMember(hs: seq<string>, fs: seq<bool>, k: nat)
    requires |hs| == |fs| && k < |hs|
    requires forall i, j :: 0 <= i < j < |hs| ==> hs[i] != hs[j]
    ensures hs[k] in Present(hs, fs) <==> fs[k]
  {
    if k == 0 {
      PresentAbsent(hs[1..], fs[1..], hs[0]);
    } else {
      PresentMember(hs[1..], fs[1..], k - 1);
    }
  }

  lemma {:induction false} PresentAbsent(hs: seq<string>, fs: seq<bool>, h: string)
    requires |hs| == |fs| && h !in hs
    ensures h !in Present(hs, fs)
  {
    if hs != [] {
      PresentAbsent(hs[1..], fs[1..], h);
    }
  }

  lemma {:induction false} PresentHeadingsShown(doc: FsdDocument)
    ensures PresentHeadings(doc) == Present(TableHeadings, Shown(doc))
  {
    PresentOfEight(TableHeadings, Shown(doc));
  }

  lemma PresentOfEight(hs: seq<string>, fs: seq<bool>)
    requires |hs| == |fs| == 8
    ensures Present(hs, fs)
            == Opt(fs[0], hs[0]) + (Opt(fs[1], hs[1]) + (Opt(fs[2], hs[2]) + (Opt(fs[3], hs[3])
               + (Opt(fs[4], hs[4]) + (Opt(fs[5], hs[5]) + (Opt(fs[6], hs[6]) + Opt(fs[7], hs[7])))))))
  {
    assert hs[8..] == [] && fs[8..] == [];
    PresentDrop(hs, fs, 7);
    var p7 := Opt(fs[7], hs[7]);
    assert Present(hs[7..], fs[7..]) == p7;
    PresentDrop(hs, fs, 6);
    var p6 := Opt(fs[6], hs[6]) + p7;
    PresentDrop(hs, fs, 5);
    var p5 := Opt(fs[5], hs[5]) + p6;
    assert Present(hs[5..], fs[5..]) == p5;
    PresentDrop(hs, fs, 4);
    var p4 := Opt(fs[4], hs[4]) + p5;
    PresentDrop(hs, fs, 3);
    var p3 := Opt(fs[3], hs[3]) + p4;
    assert Present(hs[3..], fs[3..]) == p3;
    PresentDrop(hs, fs, 2);
    var p2 := Opt(fs[2], hs[2]) + p3;
    PresentDrop(hs, fs, 1);
    var p1 := Opt(fs[1], hs[1]) + p2;
    assert Present(hs[1..], fs[1..]) == p1;
    PresentDrop(hs, fs, 0);
    assert hs[0..] == hs && fs[0..] == fs;
  }

  lemma RowsNoHeading(cells: seq<seq<string>>, rows: seq<string>)
    requires |rows| == |cells| && forall i :: 0 <= i < |rows| ==> rows[i] == PipeRow(cells[i])
    ensures forall i :: 0 <= i < |rows| ==> !IsHeading(rows[i])
  {
    forall i | 0 <= i < |rows| ensures !IsHeading(rows[i]) { PipeRowNoHeading(cells[i]); }
  }

  lemma {:induction false} SelectionTableOutline(doc: FsdDocument)
    ensures Headings(SelectionTable(doc)) == if doc.selectionParameters == [] then [] else [SelectionHeading]
  {
    var ps := doc.selectionParameters;
    RowsNoHeading(Seqs.Map(SelectionCells, ps), Seqs.Map(SelectionRow, ps));
    TableHeadingLines();
    TableBlockOutline(SelectionHeading, SelectionColumns, Seqs.Map(SelectionRow, ps), true);
  }

  lemma {:induction false} DetailTableOutline(doc: FsdDocument)
    ensures Headings(DetailTable(doc)) == if doc.fieldMappings == [] then [] else [DetailHeading]
  {
    var fs := doc.fieldMappings;
    RowsNoHeading(Seqs.Map(DetailCells, fs), Seqs.Map(DetailRow, fs));
    TableHeadingLines();
    TableBlockOutline(DetailHeading, DetailColumns, Seqs.Map(DetailRow, fs), true);
  }

  lemma DataConditionTableOutline(heading: string, rows: seq<DataConditionRow>)
    ensures Headings(DataConditionTable(heading, rows)) == if rows == [] then [] else HeadingOf(heading)
  {
    RowsNoHeading(Seqs.Map(DataConditionCells, rows), Seqs.Map(DataConditionLine, rows));
    TableBlockOutline(heading, DataConditionColumns, Seqs.Map(DataConditionLine, rows), true);
  }

  lemma {:induction false} ErrorTableOutline(doc: FsdDocument)
    ensures Headings(ErrorTable(doc)) == if doc.errorScenarios == [] then [] else [ErrorHeading]
  {
    var es := doc.errorScenarios;
    var cells := seq(|es|, i requires 0 <= i < |es| => ErrorCells(i + 1, es[i]));
    RowsNoHeading(cells, Seqs.Enumerate(ErrorRow, es));
    TableHeadingLines();
    TableBlockOutline(ErrorHeading, ErrorColumns, Seqs.Enumerate(ErrorRow, es), true);
  }

  lemma {:induction false} TestTableOutline(doc: FsdDocument)
    ensures Headings(TestTable(doc)) == if doc.testScenarios == [] then [] else [TestHeading]
  {
    var ts := doc.testScenarios;
    var cells := seq(|ts|, i requires 0 <= i < |ts| => TestCells(i + 1, ts[i]));
    RowsNoHeading(cells, Seqs.Enumerate(TestRow, ts));
    TableHeadingLines();
    TableBlockOutline(TestHeading, TestColumns, Seqs.Enumerate(TestRow, ts), false);
  }

  lemma {:induction false} TableOutline(doc: FsdDocument)
    ensures Headings(TableLines(doc)) == PresentHeadings(doc)
  {
    var b1 := SelectionTable(doc);
    var b2 := DetailTable(doc);
    var b3 := DataConditionTable(DatasetHeading, doc.validDatasetRules);
    var b4 := DataConditionTable(CountryHeading, doc.countryInfo);
    var b5 := DataConditionTable(T500cHeading, doc.currencyT500c);
    var b6 := DataConditionTable(T001Heading, doc.currencyT001);
    var b7 := ErrorTable(doc);
    var b8 := TestTable(doc);
    SelectionTableOutline(doc);
    DetailTableOutline(doc);
    DataConditionTableOutline(DatasetHeading, doc.validDatasetRules);
    DataConditionTableOutline(CountryHeading, doc.countryInfo);
    DataConditionTableOutline(T500cHeading, doc.currencyT500c);
    DataConditionTableOutline(T001Heading, doc.currencyT001);
    ErrorTableOutline(doc);
    TestTableOutline(doc);
    TableHeadingLines();
    HeadingsAppend(b7, b8);
    HeadingsAppend(b6, b7 + b8);
    HeadingsAppend(b5, b6 + (b7 + b8));
    HeadingsAppend(b4, b5 + (b6 + (b7 + b8)));
    HeadingsAppend(b3, b4 + (b5 + (b6 + (b7 + b8))));
    HeadingsAppend(b2, b3 + (b4 + (b5 + (b6 + (b7 + b8)))));
    HeadingsAppend(b1, b2 + (b3 + (b4 + (b5 + (b6 + (b7 + b8))))));
  }

  /** Each optional heading is a heading line: it is its own outline. */
  lemma TableHeadingLines()
    ensures HeadingOf(SelectionHeading) == [SelectionHeading] && HeadingOf(DetailHeading) == [DetailHeading]
    ensures HeadingOf(DatasetHeading) == [DatasetHeading] && HeadingOf(CountryHeading) == [CountryHeading]
    ensures HeadingOf(T500cHeading) == [T500cHeading] && HeadingOf(T001Heading) == [T001Heading]
    ensures HeadingOf(ErrorHeading) == [ErrorHeading] && HeadingOf(TestHeading) == [TestHeading]
  {
  }

  /** The outline of six lines, line by line. */
  lemma OutlineOfSix(lines: seq<string>)
    requires |lines| == 6
    ensures Headings(lines) == HeadingOf(lines[0]) + (HeadingOf(lines[1]) + (HeadingOf(lines[2])
                               + (HeadingOf(lines[3]) + (HeadingOf(lines[4]) + HeadingOf(lines[5])))))
  {
    assert lines[6..] == [];
    HeadingsDrop(lines, 5);
    assert Headings(lines[5..]) == HeadingOf(lines[5]);
    HeadingsDrop(lines, 4);
    HeadingsDrop(lines, 3);
    HeadingsDrop(lines, 2);
    HeadingsDrop(lines, 1);
    HeadingsDrop(lines, 0);
    assert lines[0..] == lines;
  }

  lemma {:induction false} InfoOutline(doc: FsdDocument, env: Env)
    ensures Headings(InfoLines(doc, env)) == ["## 1. INFORMASI DOKUMEN"]
  {
    var fixed := ["## 1. INFORMASI DOKUMEN", "", "- **Project**: " + doc.projectName,
                  "- **Document Location**: " + doc.documentLocation, ""];
    var l1 := ListBlock("- **Related Documents**:", Seqs.Map(d => RelatedLine(env, d), doc.relatedDocuments));
    var l2 := ListBlock("- **Reviewers**:", Seqs.Map(ReviewerLine, doc.reviewers));
    var l3 := ListBlock("- **Version History**:", Seqs.Map(VersionLine, doc.versionHistory));
    ListBlockOutline("- **Related Documents**:", Seqs.Map(d => RelatedLine(env, d), doc.relatedDocuments));
    ListBlockOutline("- **Reviewers**:", Seqs.Map(ReviewerLine, doc.reviewers));
    ListBlockOutline("- **Version History**:", Seqs.Map(VersionLine, doc.versionHistory));
    HeadingsAppend([fixed[0]], fixed[1..]);
    assert [fixed[0]] + fixed[1..] == fixed;
    HeadingsNone(fixed[1..]);
    HeadingsAppend(fixed, l1);
    HeadingsAppend(fixed + l1, l2);
    HeadingsAppend(fixed + l1 + l2, l3);
  }

  lemma {:induction false} GeneralOutline(doc: FsdDocument, env: Env)
    ensures Headings(GeneralLines(doc, env)) == ["## 2. PERSYARATAN UMUM"]
  {
    var fixed := ["## 2. PERSYARATAN UMUM", "", "**User Requirements**: " + RequirementValue(doc, env), "", "**Assumptions**:"];
    var rest := fixed[1..] + Seqs.Map(AssumptionLine, doc.assumptions) + [""];
    assert GeneralLines(doc, env) == [fixed[0]] + rest;
    assert forall i :: 0 <= i < |doc.assumptions| ==> AssumptionLine(doc.assumptions[i])[0] == '-';
    HeadingsAppend([fixed[0]], rest);
    HeadingsNone(rest);
  }

  lemma ExistingOutline(doc: FsdDocument, env: Env)
    ensures Headings(ExistingLines(doc, env)) == ["## 3. EXISTING SAP OBJECTS"]
  {
    var lines := ExistingLines(doc, env);
    OutlineOfSix(lines);
  }

  lemma {:induction false} DescriptionOutline(doc: FsdDocument, env: Env)
    ensures Headings(DescriptionLines(doc, env))
            == ["## 4. DESAIN", "### 4.1 Description detail dari Report"] + HeadingOf(ReportDescription(doc, env))
  {
    var lines := DescriptionLines(doc, env);
    OutlineOfSix(lines);
  }

  lemma {:induction false} TitleOutline(doc: FsdDocument, env: Env)
    ensures Headings(TitleLines(doc, env))
            == ["# Functional Specification Design (FSD)", "## " + doc.programName, "### " + doc.reportDescription]
  {
    var lines := TitleLines(doc, env);
    OutlineOfSix(lines);
  }

  /** The headings before the optional tables: the title lines, sections 1
      to 4 with 4.1, and the description itself should it read as one. */
  function FrontHeadings(doc: FsdDocument, env: Env): seq<string> {
    ["# Functional Specification Design (FSD)", "## " + doc.programName, "### " + doc.reportDescription]
    + ["## 1. INFORMASI DOKUMEN"] + ["## 2. PERSYARATAN UMUM"] + ["## 3. EXISTING SAP OBJECTS"]
    + (["## 4. DESAIN", "### 4.1 Description detail dari Report"] + HeadingOf(ReportDescription(doc, env)))
  }

  lemma {:induction false} FrontOutline(doc: FsdDocument, env: Env)
    ensures Headings(FrontLines(doc, env)) == FrontHeadings(doc, env)
  {
    TitleOutline(doc, env);
    InfoOutline(doc, env);
    GeneralOutline(doc, env);
    ExistingOutline(doc, env);
    DescriptionOutline(doc, env);
    var t := TitleLines(doc, env);
    var i := InfoLines(doc, env);
    var g := GeneralLines(doc, env);
    var e := ExistingLines(doc, env);
    var d := DescriptionLines(doc, env);
    HeadingsAppend(t, i);
    HeadingsAppend(t + i, g);
    HeadingsAppend(t + i + g, e);
    HeadingsAppend(t + i + g + e, d);
  }

  /** The heading outline of the rendered document: the fixed front
      headings, then exactly the optional sections whose lists are non-empty,
      in their fixed order. */
  lemma {:induction false} MarkdownOutline(doc: FsdDocument, env: Env)
    ensures Headings(MarkdownLines(doc, env)) == FrontHeadings(doc, env) + PresentHeadings(doc)
  {
    FrontOutline(doc, env);
    TableOutline(doc);
    HeadingsAppend(FrontLines(doc, env), TableLines(doc));
  }


  /** The optional headings differ from each other and from the fixed ones. */
  lemma {:induction false} HeadingsDistinct()
    ensures forall i :: 0 <= i < |TableHeadings| ==>
              TableHeadings[i] !in ["# Functional Specification Design (FSD)", "## 1. INFORMASI DOKUMEN", "## 2. PERSYARATAN UMUM",
                                    "## 3. EXISTING SAP OBJECTS", "## 4. DESAIN", "### 4.1 Description detail dari Report"]
    ensures forall i, j :: 0 <= i < j < |TableHeadings| ==> TableHeadings[i] != TableHeadings[j]
    ensures forall i :: 0 <= i < |TableHeadings| ==> IsHeading(TableHeadings[i])
  {
  }

  /** The optional headings are headings, distinct from each other, and
      none of them is among `front`. */
  predicate ClearOf(front: seq<string>, hs: seq<string>) {
    (forall i :: 0 <= i < |hs| ==> hs[i] !in front && IsHeading(hs[i]))
    && (forall i, j :: 0 <= i < j < |hs| ==> hs[i] != hs[j])
  }

  /** When the document's own text does not imitate an optional heading, the
      front headings hold none of them. */
  lemma {:induction false} FrontClear(doc: FsdDocument, env: Env)
    ensures NoHeadingClash(doc, env) ==> ClearOf(FrontHeadings(doc, env), TableHeadings)
  {
    if NoHeadingClash(doc, env) {
      HeadingsDistinct();
      forall i | 0 <= i < |TableHeadings|
        ensures TableHeadings[i] !in FrontHeadings(doc, env)
      {
        NotFront(doc, env, i);
      }
    }
  }

  lemma {:induction false} NotFront(doc: FsdDocument, env: Env, k: nat)
    requires NoHeadingClash(doc, env) && k < |TableHeadings|
    ensures TableHeadings[k] !in FrontHeadings(doc, env)
  {
    HeadingsDistinct();
  }

  /** A text whose outline is the headings `front` followed by those of the
      optional headings `hs` whose flag in `fs` is set holds an optional
      heading exactly when its flag is set. */
  lemma OutlinedShown(lines: seq<string>, front: seq<string>, hs: seq<string>, fs: seq<bool>)
    requires |hs| == |fs|
    ensures Headings(lines) == front + Present(hs, fs) && ClearOf(front, hs) ==>
              forall k :: 0 <= k < |hs| ==> (hs[k] in lines <==> fs[k])
  {
    if Headings(lines) == front + Present(hs, fs) && ClearOf(front, hs) {
      forall k | 0 <= k < |hs|
        ensures hs[k] in lines <==> fs[k]
      {
        HeadingsMembers(lines, hs[k]);
        PresentMember(hs, fs, k);
      }
    }
  }

  /** Each optional section's heading appears exactly when its list is
      non-empty (`Shown`). */
  lemma {:induction false} SectionPresence(doc: FsdDocument, env: Env)
    requires NoHeadingClash(doc, env)
    ensures forall k :: 0 <= k < |TableHeadings| ==> (TableHeadings[k] in MarkdownLines(doc, env) <==> Shown(doc)[k])
  {
    MarkdownOutline(doc, env);
    PresentHeadingsShown(doc);
    FrontClear(doc, env);
    OutlinedShown(MarkdownLines(doc, env), FrontHeadings(doc, env), TableHeadings, Shown(doc));
  }

  // ---- rows, numbering and lookups ----

  lemma NatCellClean(n: nat)
    ensures CleanCell(NatToString(n))
  {
    var r := NatToString(n);
    assert IsDigit(r[0]) && IsDigit(r[|r| - 1]);
  }

  lemma YesNoClean(b: bool)
    ensures CleanCell(YesNo(b))
  {
  }

  /** A selection-screen row reads back, cell by cell, as the parameter's
      name, type and description followed by Yes/No for mandatory,
      select-option and no-intervals, in that order. */
  lemma SelectionRowCells(p: SelectionParameter)
    requires CleanCell(p.name) && CleanCell(p.kind) && CleanCell(p.description)
    ensures Cells(SelectionRow(p))
            == [p.name, p.kind, p.description, YesNo(p.isMandatory), YesNo(p.isSelectOption), YesNo(p.hasNoIntervals)]
  {
    YesNoClean(p.isMandatory);
    YesNoClean(p.isSelectOption);
    YesNoClean(p.hasNoIntervals);
    CellsOfPipeRow(SelectionCells(p));
  }

  /** A detail row reads back as the mapping's fields and its processing
      type's value. */
  lemma {:induction false} DetailRowCells(f: FieldMapping)
    requires CleanCell(f.displayName) && CleanCell(f.technicalField) && CleanCell(f.sourceTable)
    requires CleanCell(f.processingLogic)
    ensures Cells(DetailRow(f)) == [f.displayName, f.technicalField, f.sourceTable, f.processingLogic, f.processingType.Value()]
  {
    CellsOfPipeRow(DetailCells(f));
  }

  lemma DataConditionLineCells(r: DataConditionRow)
    requires CleanCell(r.data) && CleanCell(r.condition)
    ensures Cells(DataConditionLine(r)) == [r.data, r.condition]
  {
    CellsOfPipeRow(DataConditionCells(r));
  }

  /** The i-th error row (from 0) reads back as the number i + 1 and the
      scenario's description, resolution, code and severity. */
  lemma ErrorRowNumbered(es: seq<ErrorScenario>, i: nat)
    requires i < |es|
    requires CleanCell(es[i].errorDescription) && CleanCell(es[i].resolution)
    requires CleanCell(es[i].errorCode) && CleanCell(es[i].severity)
    ensures var cells := Cells(Seqs.Enumerate(ErrorRow, es)[i]);
            |cells| == 5 && (forall k :: 0 <= k < |cells[0]| ==> IsDigit(cells[0][k]))
            && DigitsValue(cells[0]) == i + 1
            && cells[1..] == [es[i].errorDescription, es[i].resolution, es[i].errorCode, es[i].severity]
  {
    NatCellClean(i + 1);
    CellsOfPipeRow(ErrorCells(i + 1, es[i]));
    DigitsValueOfNat(i + 1);
  }

  /** The i-th test row (from 0) reads back as the number i + 1 and the
      scenario's condition, expected result, test data and priority. */
  lemma TestRowNumbered(ts: seq<TestScenario>, i: nat)
    requires i < |ts|
    requires CleanCell(ts[i].condition) && CleanCell(ts[i].expectedResult)
    requires CleanCell(ts[i].testData) && CleanCell(ts[i].priority)
    ensures var cells := Cells(Seqs.Enumerate(TestRow, ts)[i]);
            |cells| == 5 && (forall k :: 0 <= k < |cells[0]| ==> IsDigit(cells[0][k]))
            && DigitsValue(cells[0]) == i + 1
            && cells[1..] == [ts[i].condition, ts[i].expectedResult, ts[i].testData, ts[i].priority]
  {
    NatCellClean(i + 1);
    CellsOfPipeRow(TestCells(i + 1, ts[i]));
    DigitsValueOfNat(i + 1);
  }

  /** A non-empty table is its heading, a blank line, one header row, one
      separator row, then exactly one row per record in order. */
  lemma TableBlockLayout(heading: string, header: string, separator: string, rows: seq<string>, closed: bool)
    requires rows != []
    ensures var b := TableBlock(heading, header, separator, rows, closed);
            |b| == 4 + |rows| + (if closed then 1 else 0)
            && b[0] == heading && b[1] == "" && b[2] == header && b[3] == separator
            && b[4..4 + |rows|] == rows
            && (closed ==> b[|b| - 1] == "")
  {
  }

  /** The first RICEFW entry decides the Program Name line: its Assign Nodin
      when the lookup finds one, else `program_name`, whatever follows. */
  lemma ProgramNameFirstRicefw(doc: FsdDocument, env: Env, before: seq<string>, entry: string, after: seq<string>)
    requires doc.relatedDocuments == before + [entry] + after
    requires forall i :: 0 <= i < |before| ==> !StartsWith(before[i], RicefwPrefix)
    requires StartsWith(entry, RicefwPrefix)
    ensures var id := Strip(entry[|RicefwPrefix|..]);
            ProgramNameValue(doc, env) == if Found(env.nodin(id)) then env.nodin(id).value else doc.programName
  {
    FirstRicefwIgnoresRest(before, entry, after);
  }

  /** Without a RICEFW entry the Program Name and the User Requirements are the
      document's own. */
  lemma NoRicefwDefaults(doc: FsdDocument, env: Env)
    requires forall i :: 0 <= i < |doc.relatedDocuments| ==> !StartsWith(doc.relatedDocuments[i], RicefwPrefix)
    ensures ProgramNameValue(doc, env) == doc.programName
    ensures RequirementValue(doc, env) == doc.userRequirements
  {
    FirstRicefwSpec(doc.relatedDocuments);
  }

  /** `(a + b + c)[|a| + i] == b[i]`. */
  lemma InMiddle(a: seq<string>, b: seq<string>, c: seq<string>, i: nat)
    requires i < |b|
    ensures |a| + i < |a + b + c| && (a + b + c)[|a| + i] == b[i]
  {
  }

  lemma Regroup<T>(a: seq<T>, b: seq<T>, c: seq<T>, d: seq<T>, e: seq<T>, f: seq<T>)
    ensures a + b + c + d + e + f == (a + b) + c + (d + e + f)
  {
  }

  /** The assumptions label is always there, even with no assumptions. */
  lemma {:induction false} AssumptionsAlwaysPresent(doc: FsdDocument, env: Env)
    ensures "**Assumptions**:" in MarkdownLines(doc, env)
  {
    var t, i, g, e, d := TitleLines(doc, env), InfoLines(doc, env), GeneralLines(doc, env), ExistingLines(doc, env),
                         DescriptionLines(doc, env);
    Regroup(t, i, g, e, d, TableLines(doc));
    InMiddle(t + i, g, e + d + TableLines(doc), 4);
  }
}
