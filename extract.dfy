/** `MarkdownTitleExtractor.extract_title_info`: one pass over the stripped
    lines of a generated FSD Markdown text that collects what the Word
    template needs (title page, document information, requirements, SAP
    objects, the design, error and test tables), then fills the fallbacks and
    attaches the table of contents. The clock is a parameter. */
module TitleExtract {
  import opened Wrappers
  import opened Text
  import opened Seqs
  import TableOfContents

  // ---- what the pass collects ----

  /** Which of the `in_*` flags is set: at most one is, and a `## ` line that
      names no known section clears them all (`Outside`). */
  datatype Region = Outside | General | Existing | Design | ErrorHandling | Testing | DesignChanges

  /** `current_section`: which labelled list the following lines belong to. */
  datatype Tag = NoTag | Assumptions | RelatedDocuments | Reviewers | VersionHistory

  /** `current_design_subsection`. */
  datatype DesignTable = SelectionScreen | DetailProcessing | ValidDatasets | CountryInfo | CurrencyT500c | CurrencyT001

  datatype SelectionItem = SelectionItem(parameter: string, kind: string, description: string,
                                         mandatory: string, selectOption: string, noIntervals: string)
  datatype DetailItem = DetailItem(fieldName: string, technicalField: string, sourceTable: string,
                                   processingLogic: string, processingType: string)
  datatype ConditionItem = ConditionItem(data: string, condition: string)
  datatype ErrorItem = ErrorItem(no: string, errorDescription: string, resolution: string,
                                 errorCode: string, severity: string)
  datatype TestItem = TestItem(no: string, testCondition: string, expectedResult: string,
                               testData: string, priority: string)

  datatype Tables = Tables(
    selection: seq<SelectionItem>,
    detail: seq<DetailItem>,
    validDatasets: seq<ConditionItem>,
    countryInfo: seq<ConditionItem>,
    currencyT500c: seq<ConditionItem>,
    currencyT001: seq<ConditionItem>,
    errors: seq<ErrorItem>,
    tests: seq<TestItem>)

  /** `program_name`, `description` and `ricefw_id` as the pass finds them. */
  datatype Header = Header(programName: string, description: string, ricefwId: string)

  /** `generated_date`, `generated_time` and `generated_datetime`, the last
      present only once a date and a time were read together. */
  datatype Stamp = Stamp(date: string, time: string, datetime: Option<string>)

  datatype Info = Info(projectName: string, documentLocation: string, generated: Stamp)

  datatype Requirements = Requirements(userRequirements: string, assumptions: seq<string>)

  datatype SapObjects = SapObjects(programName: string, transactionCode: string, menuPath: string)

  /** `related_documents`, `reviewers` and `version_history`. */
  datatype Lists = Lists(relatedDocuments: seq<string>, reviewers: seq<string>, versionHistory: seq<string>)

  /** The loop's variables: the flags, `current_section`,
      `current_design_subsection` and the dictionary filled so far. */
  datatype Scan = Scan(
    region: Region,
    tag: Tag,
    sub: Option<DesignTable>,
    header: Header,
    info: Info,
    requirements: Requirements,
    sap: SapObjects,
    tables: Tables,
    lists: Lists)

  /** `datetime.now()` formatted as `%Y`, `%Y-%m-%d` and `%H:%M:%S`. */
  datatype Clock = Clock(year: string, date: string, time: string)

  datatype TitlePage = TitlePage(programName: string, description: string, ricefwId: string,
                                 moduleName: string, documentType: string, currentDate: string,
                                 fileName: string)
  datatype DocumentInfo = DocumentInfo(projectName: string, documentLocation: string, generated: Stamp, lists: Lists)
  datatype DesignInfo = DesignInfo(tables: Tables, reportDescription: string, authorizationInfo: string,
                                   designConstraints: string, designChanges: string)
  datatype TestInfo = TestInfo(testDataLocation: string, testTransaction: string, testMenuPath: string)

  /** The dictionary `extract_title_info` returns, grouped by page. */
  datatype TitleInfo = TitleInfo(
    title: TitlePage,
    document: DocumentInfo,
    requirements: Requirements,
    sap: SapObjects,
    design: DesignInfo,
    testing: TestInfo,
    tableOfContents: seq<TableOfContents.TocItem>)

  const ModuleName := "Human Resource"
  const DocumentType := "Functional Specification Design (FSD)"
  const DefaultProject := "System Integrator for Management Information System Towards Single Source of Truth Implementation Program"
  const TestDataLocation := "Data uji tersedia di environment development SAP"

  const GeneratedLabel := "**Generated on:**"
  const ProjectLabel := "**Project**:"
  const LocationLabel := "**Document Location**:"
  const RequirementsLabel := "**User Requirements**:"
  const AssumptionsLabel := "**Assumptions**:"
  const ProgramLabel := "**Program Name**:"
  const TransactionLabel := "**Transaction Code**:"
  const MenuLabel := "**Menu Path**:"
  const RelatedLabel := "**Related Documents**:"
  const ReviewersLabel := "**Reviewers**:"
  const VersionsLabel := "**Version History**:"

  // ---- the regular expressions, as searches ----

  /** `RHR\d` starts at `i`. */
  predicate RhrAt(s: string, i: nat) {
    i + 4 <= |s| && s[i] == 'R' && s[i + 1] == 'H' && s[i + 2] == 'R' && IsDigit(s[i + 3])
  }

  /** `re.search(r'RHR\d+', s).group()`: the leftmost `RHR` followed by
      digits, with every digit that follows. */
  function RhrMatch(s: string): (r: Option<string>)
    ensures r.None? <==> forall i :: 0 <= i < |s| ==> !RhrAt(s, i)
    ensures r.Some? ==> 4 <= |r.value| && r.value[0] == 'R' && r.value[1] == 'H' && r.value[2] == 'R'
                        && (forall k :: 3 <= k < |r.value| ==> IsDigit(r.value[k])) && Contains(s, r.value)
  {
    var ok := (j: nat) => RhrAt(s, j);
    match Leftmost(ok, 0, |s|)
    case None =>
      assert forall i :: 0 <= i < |s| ==> !RhrAt(s, i) by {
        forall i | 0 <= i < |s| ensures !RhrAt(s, i) {
          assert !ok(i);
        }
      }
      None
    case Some(i) =>
      assert ok(i);
      var m := s[i..i + 3 + DigitPrefix(s[i + 3..])];
      assert forall k :: 3 <= k < |m| ==> m[k] == s[i + 3..][k - 3];
      ContainsAt(s, m, i);
      Some(m)
  }

  predicate DigitsAt(s: string, i: nat, n: nat) {
    i + n <= |s| && forall k :: i <= k < i + n ==> IsDigit(s[k])
  }

  /** `\d{4}-\d{2}-\d{2}` matches at `i`. */
  predicate DateAt(s: string, i: nat) {
    i + 10 <= |s| && DigitsAt(s, i, 4) && s[i + 4] == '-' && DigitsAt(s, i + 5, 2)
    && s[i + 7] == '-' && DigitsAt(s, i + 8, 2)
  }

  /** `\d{2}:\d{2}:\d{2}` matches at `i`. */
  predicate TimeAt(s: string, i: nat) {
    i + 8 <= |s| && DigitsAt(s, i, 2) && s[i + 2] == ':' && DigitsAt(s, i + 3, 2)
    && s[i + 5] == ':' && DigitsAt(s, i + 6, 2)
  }

  /** How much whitespace `\s+` takes at `i`: all of it, since the digit
      that must follow is not whitespace. */
  function Gap(s: string, i: nat): nat
    requires i <= |s|
  {
    SpacePrefix(s[i..])
  }

  /** `(\d{4}-\d{2}-\d{2})\s+(\d{2}:\d{2}:\d{2})` matches at `i`. */
  predicate DateTimeAt(s: string, i: nat) {
    DateAt(s, i) && Gap(s, i + 10) >= 1 && TimeAt(s, i + 10 + Gap(s, i + 10))
  }

  /** `re.search(r'\*\*Label\*\*:\s*(.+)', line).group(1).strip()`: the
      search succeeds at the first occurrence of the label when anything
      follows it, and the captured text strips to the stripped rest. */
  function LabelValue(line: string, marker: string): (r: Option<string>)
    ensures r.Some? ==> Contains(line, marker)
  {
    if !Contains(line, marker) then None
    else
      var rest := line[IndexOf(line, marker) + |marker|..];
      if rest == [] then None else Some(Strip(rest))
  }

  /** `re.sub(r'\*\*Label\*\*:\s*', '', s)`: every occurrence of the label,
      with the whitespace after it, removed. */
  function RemoveLabel(s: string, marker: string): (r: string)
    requires marker != []
    ensures |r| <= |s|
    decreases |s|
  {
    if !Contains(s, marker) then s
    else
      var k := IndexOf(s, marker);
      s[..k] + RemoveLabel(LStrip(s[k + |marker|..]), marker)
  }

  // ---- one line ----

  /** What a line does to the section flags. */
  datatype Heading = Enter(region: Region) | Leave | Plain

  /** The chain of `## ` tests on `line.upper()`, in the source's order; a
      `## ` line that names none of them leaves every section. */
  function HeadingKind(line: string): Heading {
    if !StartsWith(line, "## ") then Plain
    else
      var u := Upper(line);
      if Contains(u, "GENERAL REQUIREMENTS") || Contains(u, "PERSYARATAN UMUM") || Contains(u, "INFORMASI DOKUMEN") then Enter(General)
      else if Contains(u, "EXISTING SAP OBJECTS") || Contains(u, "OBJEK SAP EXISTING") then Enter(Existing)
      else if Contains(u, "DESIGN") || Contains(u, "DESAIN") then Enter(Design)
      else if Contains(u, "ERROR HANDLING") || Contains(u, "PENANGANAN ERROR") then Enter(ErrorHandling)
      else if Contains(u, "TESTING REQUIREMENTS") || Contains(u, "PERSYARATAN PENGUJIAN") then Enter(Testing)
      else if Contains(u, "DESIGN CHANGE") || Contains(u, "PERUBAHAN DESAIN") then Enter(DesignChanges)
      else Leave
  }

  /** The table a `### ` line of the design section opens: the first two
      tests read the lower-cased title, the others the line itself. */
  function DesignSubsection(line: string): Option<DesignTable> {
    var header := Lower(Strip(ReplaceAll(line, "###", "")));
    if Contains(header, "selection screen") then Some(SelectionScreen)
    else if Contains(header, "detail processing") then Some(DetailProcessing)
    else if Contains(line, "Detail Process Only valid datasets") then Some(ValidDatasets)
    else if Contains(line, "Form Get_Country_Info") then Some(CountryInfo)
    else if Contains(line, "Form Get_Currency_T500C") then Some(CurrencyT500c)
    else if Contains(line, "Form Get_Currency_T001") then Some(CurrencyT001)
    else None
  }

  /** `line.replace(marker, '').strip()`. */
  function HeadingText(line: string, marker: string): string {
    Strip(ReplaceAll(line, marker, ""))
  }

  /** The program name comes from the first `## ` line that reaches this
      point, the description from the first `### ` line, the RICEFW id from
      the last line holding `RHR` and digits. */
  function HeaderStep(h: Header, line: string): Header {
    var name := if StartsWith(line, "## ") && h.programName == [] then HeadingText(line, "## ") else h.programName;
    var description := if StartsWith(line, "### ") && h.description == [] then HeadingText(line, "### ") else h.description;
    var id := match RhrMatch(line) case Some(m) => m case None => h.ricefwId;
    Header(name, description, id)
  }

  /** The `**Generated on:**` line: a date and a time read together, else a
      date alone. */
  function StampStep(g: Stamp, line: string): Stamp {
    if !Contains(line, GeneratedLabel) then g
    else match Leftmost((j: nat) => DateTimeAt(line, j), 0, |line|)
      case Some(k) =>
        var date := line[k..k + 10];
        var t := k + 10 + Gap(line, k + 10);
        var time := line[t..t + 8];
        Stamp(date, time, Some(date + " " + time))
      case None =>
        match Leftmost((j: nat) => DateAt(line, j), 0, |line|)
        case Some(k) => g.(date := line[k..k + 10])
        case None => g
  }

  /** The project replaces the default only with a different, non-empty
      name; the document location is taken as found, even empty. */
  function InfoStep(info: Info, line: string): Info {
    var project := match LabelValue(line, ProjectLabel)
      case Some(p) => if p != [] && p != DefaultProject then p else info.projectName
      case None => info.projectName;
    var location := LabelValue(line, LocationLabel).GetOr(info.documentLocation);
    Info(project, location, StampStep(info.generated, line))
  }

  /** The raw lines after a `**User Requirements**:` line that continue it:
      up to a blank line, an `**Assumptions**` line or a `## ` heading, each
      added after a space. */
  function Continuation(lines: seq<string>, j: nat): string
    decreases |lines| - j
  {
    if j >= |lines| then []
    else
      var next := RStrip(lines[j]);
      if EndsRequirement(next) then [] else " " + Strip(next) + Continuation(lines, j + 1)
  }

  /** `text` is what the lines from `j` up to `k` contribute. */
  predicate ContinuationSoFar(lines: seq<string>, j: nat, k: nat, text: string) {
    text + Continuation(lines, k) == Continuation(lines, j)
  }

  lemma ContinuationStep(lines: seq<string>, j: nat, k: nat, text: string, piece: string)
    requires k < |lines| && !EndsRequirement(RStrip(lines[k])) && piece == " " + Strip(RStrip(lines[k]))
    requires ContinuationSoFar(lines, j, k, text)
    ensures ContinuationSoFar(lines, j, k + 1, text + piece)
  {
    ContinuationAt(lines, k);
  }

  lemma ContinuationAt(lines: seq<string>, k: nat)
    requires k < |lines| && !EndsRequirement(RStrip(lines[k]))
    ensures Continuation(lines, k) == " " + Strip(RStrip(lines[k])) + Continuation(lines, k + 1)
  {
  }

  lemma ContinuationEnds(lines: seq<string>, j: nat, k: nat, text: string)
    requires k >= |lines| || EndsRequirement(RStrip(lines[k]))
    requires ContinuationSoFar(lines, j, k, text)
    ensures text == Continuation(lines, j)
  {
    assert Continuation(lines, k) == [];
  }

  /** A blank line, an `**Assumptions**` line or a `## ` heading. */
  predicate EndsRequirement(next: string) {
    next == [] || StartsWith(next, "**Assumptions**") || StartsWith(next, "## ")
  }

  /** In the general section, a `**User Requirements**:` line replaces the
      requirement with its own text and the lines that continue it. */
  function RequirementsStep(r: Requirements, region: Region, lines: seq<string>, i: nat, line: string): Requirements {
    if region == General && Contains(line, RequirementsLabel) then
      r.(userRequirements := Strip(RemoveLabel(line, RequirementsLabel)) + Continuation(lines, i + 1))
    else r
  }

  /** Under `**Assumptions**:` in the general section, a `- ` line is an
      assumption; `replace('- ', '')` removes every `- ` in it. */
  function AssumptionStep(r: Requirements, region: Region, tag: Tag, line: string): Requirements {
    if region == General && tag == Assumptions && StartsWith(line, "- ") then
      r.(assumptions := r.assumptions + [Strip(ReplaceAll(line, "- ", ""))])
    else r
  }

  function SapStep(sap: SapObjects, region: Region, line: string): SapObjects {
    if region != Existing then sap
    else SapObjects(LabelValue(line, ProgramLabel).GetOr(sap.programName),
                    LabelValue(line, TransactionLabel).GetOr(sap.transactionCode),
                    LabelValue(line, MenuLabel).GetOr(sap.menuPath))
  }

  /** `any(word in cell for cell in cells)`. */
  predicate AnyContains(cells: seq<string>, word: string) {
    cells != [] && (Contains(cells[0], word) || AnyContains(cells[1..], word))
  }

  /** A row of a table is kept unless one of its `|`-separated pieces holds
      the header word, and only with enough cells. */
  predicate Kept(line: string, headerWord: string, columns: nat) {
    !AnyContains(Split(line, '|'), headerWord) && |Cells(line)| >= columns
  }

  function SelectionOf(c: seq<string>): SelectionItem
    requires |c| >= 6
  {
    SelectionItem(c[0], c[1], c[2], c[3], c[4], c[5])
  }

  function DetailOf(c: seq<string>): DetailItem
    requires |c| >= 5
  {
    DetailItem(c[0], c[1], c[2], c[3], c[4])
  }

  function ConditionOf(c: seq<string>): ConditionItem
    requires |c| >= 2
  {
    ConditionItem(c[0], c[1])
  }

  function ErrorOf(c: seq<string>): ErrorItem
    requires |c| >= 5
  {
    ErrorItem(c[0], c[1], c[2], c[3], c[4])
  }

  function TestOf(c: seq<string>): TestItem
    requires |c| >= 5
  {
    TestItem(c[0], c[1], c[2], c[3], c[4])
  }

  /** A row of the design table the current subsection names. */
  function DesignRow(t: Tables, sub: DesignTable, line: string): Tables {
    match sub
    case SelectionScreen =>
      if Kept(line, "Parameter", 6) then t.(selection := t.selection + [SelectionOf(Cells(line))]) else t
    case DetailProcessing =>
      if Kept(line, "Field Name", 5) then t.(detail := t.detail + [DetailOf(Cells(line))]) else t
    case ValidDatasets =>
      if Kept(line, "Data", 2) then t.(validDatasets := t.validDatasets + [ConditionOf(Cells(line))]) else t
    case CountryInfo =>
      if Kept(line, "Data", 2) then t.(countryInfo := t.countryInfo + [ConditionOf(Cells(line))]) else t
    case CurrencyT500c =>
      if Kept(line, "Data", 2) then t.(currencyT500c := t.currencyT500c + [ConditionOf(Cells(line))]) else t
    case CurrencyT001 =>
      if Kept(line, "Data", 2) then t.(currencyT001 := t.currencyT001 + [ConditionOf(Cells(line))]) else t
  }

  /** A `|` line without `---` is a row of the table of the current section. */
  function TablesStep(t: Tables, region: Region, sub: Option<DesignTable>, line: string): Tables {
    if !StartsWith(line, "|") || Contains(line, "---") then t
    else
      var t1 := if region == Design && sub.Some? then DesignRow(t, sub.value, line) else t;
      var t2 := if region == ErrorHandling && Kept(line, "Error Description", 5) then t1.(errors := t1.errors + [ErrorOf(Cells(line))]) else t1;
      if region == Testing && Kept(line, "Test Condition", 5) then t2.(tests := t2.tests + [TestOf(Cells(line))]) else t2
  }

  /** The list labels switch `current_section`; any other `##` line that is
      not a `### ` line ends the list, unless it is the assumptions. */
  function TagStep(tag: Tag, line: string): Tag {
    if StartsWith(line, "##") && !StartsWith(line, "### ") && tag != Assumptions then NoTag else tag
  }

  /** The list items are read from lines starting with `  - `. */
  function ListStep(l: Lists, tag: Tag, line: string): Lists {
    if !StartsWith(line, "  - ") then l
    else
      var item := Strip(ReplaceAll(line, "  - ", ""));
      match tag
      case RelatedDocuments => l.(relatedDocuments := l.relatedDocuments + [item])
      case Reviewers => l.(reviewers := l.reviewers + [item])
      case VersionHistory => l.(versionHistory := l.versionHistory + [item])
      case _ => l
  }

  /** The end of a line's processing: the list labels, then the list items. */
  function Track(s: Scan, line: string): Scan {
    if Contains(line, RelatedLabel) then s.(tag := RelatedDocuments)
    else if Contains(line, ReviewersLabel) then s.(tag := Reviewers)
    else if Contains(line, VersionsLabel) then s.(tag := VersionHistory)
    else
      var tag := TagStep(s.tag, line);
      s.(tag := tag, lists := ListStep(s.lists, tag, line))
  }

  /** Everything after the section and subsection tests. */
  function Fields(s: Scan, lines: seq<string>, i: nat, line: string): Scan {
    var s1 := s.(header := HeaderStep(s.header, line), info := InfoStep(s.info, line),
                 requirements := RequirementsStep(s.requirements, s.region, lines, i, line));
    if s.region == General && Contains(line, AssumptionsLabel) then s1.(tag := Assumptions)
    else
      Track(s1.(requirements := AssumptionStep(s1.requirements, s.region, s.tag, line),
                sap := SapStep(s.sap, s.region, line),
                tables := TablesStep(s.tables, s.region, s.sub, line)), line)
  }

  /** One iteration of the loop, on line `i`. */
  function Step(s: Scan, lines: seq<string>, i: nat): Scan
    requires i < |lines|
  {
    var line := Strip(lines[i]);
    match HeadingKind(line)
    case Enter(r) => s.(region := r, tag := NoTag)
    case Leave => Body(s.(region := Outside, tag := NoTag), lines, i, line)
    case Plain => Body(s, lines, i, line)
  }

  function Body(s: Scan, lines: seq<string>, i: nat, line: string): Scan {
    if s.region == Design && StartsWith(line, "### ") then s.(sub := DesignSubsection(line))
    else Fields(s, lines, i, line)
  }

  const NoTables := Tables([], [], [], [], [], [], [], [])

  function Start(clock: Clock): Scan {
    Scan(Outside, NoTag, None, Header("", "", ""),
         Info(DefaultProject, "", Stamp(clock.date, clock.time, None)),
         Requirements("", []), SapObjects("", "", ""), NoTables, Lists([], [], []))
  }

  /** `n` iterations of a loop whose body is `step`, the index counting up. */
  function Iterate<S>(step: (S, nat) -> S, s: S, n: nat): S {
    if n == 0 then s else step(Iterate(step, s, n - 1), n - 1)
  }

  /** What holds before the loop and is kept by every iteration holds after it. */
  lemma {:induction false} IterateKeeps<S>(step: (S, nat) -> S, inv: (S, nat) -> bool, s: S, n: nat)
    requires inv(s, 0)
    requires forall t, i: nat :: i < n && inv(t, i) ==> inv(step(t, i), i + 1)
    ensures inv(Iterate(step, s, n), n)
  {
    if n > 0 {
      IterateKeeps(step, inv, s, n - 1);
    }
  }

  /** The loop body over `lines`. */
  function StepOf(lines: seq<string>): (Scan, nat) -> Scan {
    (s: Scan, i: nat) => if i < |lines| then Step(s, lines, i) else s
  }

  /** The loop's state after its first `n` iterations. */
  function Run(lines: seq<string>, clock: Clock, n: nat): Scan {
    Iterate(StepOf(lines), Start(clock), n)
  }

  /** One more iteration of the loop is one more `Step`. */
  lemma {:induction false} RunNext(lines: seq<string>, clock: Clock, i: nat)
    requires i < |lines|
    ensures Run(lines, clock, i + 1) == Step(Run(lines, clock, i), lines, i)
  {
  }

  /** The RICEFW id inferred from the program name. */
  function RicefwFallback(programName: string): string {
    if Contains(programName, "IT0015") then "RHR006"
    else if Contains(programName, "IT0267") then "RHR018"
    else "RHR041"
  }

  /** What follows the loop: the fallbacks for the id, the file name and the
      document location, the test defaults and the table of contents. */
  function Finish(s: Scan, clock: Clock, toc: seq<TableOfContents.TocItem>): TitleInfo {
    var h := s.header;
    var id := if h.ricefwId == [] && h.programName != [] then RicefwFallback(h.programName) else h.ricefwId;
    var fileName := if h.description != [] then h.description else "Document";
    var location := if s.info.documentLocation == [] && h.programName != [] then Lower(h.programName) + ".html"
                    else s.info.documentLocation;
    TitleInfo(
      TitlePage(h.programName, h.description, id, ModuleName, DocumentType, clock.year, fileName),
      DocumentInfo(s.info.projectName, location, s.info.generated, s.lists),
      s.requirements, s.sap,
      DesignInfo(s.tables, "", "", "", ""),
      TestInfo(TestDataLocation, s.sap.transactionCode, s.sap.menuPath),
      toc)
  }

  /** The dictionary `extract_title_info` returns for a Markdown text. */
  function TitleInfoOf(content: string, clock: Clock): TitleInfo {
    var lines := Split(content, '\n');
    Finish(Run(lines, clock, |lines|), clock, TableOfContents.Toc(lines))
  }

  class MarkdownTitleExtractor {
    const content: string

    constructor (markdownContent: string)
      ensures content == markdownContent
    {
      content := markdownContent;
    }

    /** The requirement's continuation lines, read ahead from line `j`. */
    static method ContinuationLines(lines: seq<string>, j: nat) returns (text: string)
      ensures text == Continuation(lines, j)
    {
      text := "";
      var k := j;
      while k < |lines| && !EndsRequirement(RStrip(lines[k]))
        invariant j <= k
        invariant ContinuationSoFar(lines, j, k, text)
        decreases |lines| - k
      {
        var piece := " " + Strip(RStrip(lines[k]));
        ContinuationStep(lines, j, k, text, piece);
        text, k := text + piece, k + 1;
      }
      ContinuationEnds(lines, j, k, text);
    }

    method ExtractTitleInfo(clock: Clock) returns (info: TitleInfo)
      ensures info == TitleInfoOf(content, clock)
    {
      var lines := Split(content, '\n');
      var scan := Start(clock);
      for i := 0 to |lines|
        invariant scan == Run(lines, clock, i)
      {
        RunNext(lines, clock, i);
        var line := Strip(lines[i]);
        var kind := HeadingKind(line);
        if kind.Enter? {
          scan := scan.(region := kind.region, tag := NoTag);
          continue;
        } else if kind.Leave? {
          scan := scan.(region := Outside, tag := NoTag);
        }
        if scan.region == Design && StartsWith(line, "### ") {
          scan := scan.(sub := DesignSubsection(line));
          continue;
        }
        var requirements := scan.requirements;
        if scan.region == General && Contains(line, RequirementsLabel) {
          var more := ContinuationLines(lines, i + 1);
          requirements := requirements.(userRequirements := Strip(RemoveLabel(line, RequirementsLabel)) + more);
        }
        var next := scan.(header := HeaderStep(scan.header, line), info := InfoStep(scan.info, line),
                          requirements := requirements);
        if scan.region == General && Contains(line, AssumptionsLabel) {
          scan := next.(tag := Assumptions);
          continue;
        }
        next := next.(requirements := AssumptionStep(requirements, scan.region, scan.tag, line),
                      sap := SapStep(scan.sap, scan.region, line),
                      tables := TablesStep(scan.tables, scan.region, scan.sub, line));
        scan := Track(next, line);
      }
      var toc := TableOfContents.ExtractTableOfContents(lines);
      info := Finish(scan, clock, toc);
    }
  }
}
