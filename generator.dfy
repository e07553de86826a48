/** `EnhancedOutputGenerator._generate_markdown` and
    `_compose_report_description` as the source runs them: line lists grown
    by loops. Each method is proved to build exactly the lines that `Render`
    specifies, so the outline and table properties proved there hold of the
    line list these methods join, not of the joined text as such: a field
    value holding a newline splits into more lines when the text is read
    back (`Text.SplitJoin` gives the list back only when no line holds a
    newline). */
module Generator {
  import opened Wrappers
  import opened Text
  import opened Fsd
  import opened Render
  import Seqs

  /** `for doc in related_documents: if doc.startswith("RICEFW ID:"): ...; break`:
      the id of the first RICEFW entry, if any. */
  method FindRicefw(related: seq<string>) returns (id: Option<string>)
    ensures id == FirstRicefw(related)
  {
    id := None;
    var i := 0;
    assert related[0..] == related;
    while i < |related|
      invariant 0 <= i <= |related|
      invariant FirstRicefw(related[i..]) == FirstRicefw(related)
    {
      assert related[i..][0] == related[i];
      if StartsWith(related[i], RicefwPrefix) {
        id := Some(Strip(related[i][|RicefwPrefix|..]));
        return;
      }
      assert related[i..][1..] == related[i + 1..];
      i := i + 1;
    }
    assert related[i..] == [];
  }

  /** The first half of `_compose_report_description`: the text the
      description starts from. */
  method ComposeBase(doc: FsdDocument, env: Env) returns (baseDesc: string)
    ensures baseDesc == DescriptionBase(doc, env)
  {
    baseDesc := "";
    var id := FindRicefw(doc.relatedDocuments);
    if id.Some? {
      var lookup := env.requirement(id.value);
      if Found(lookup) {
        baseDesc := lookup.value;
      }
    }
    if baseDesc == "" {
      baseDesc := doc.userRequirements;
    }
  }

  /** `_compose_report_description`. */
  method ComposeReportDescription(doc: FsdDocument, env: Env) returns (desc: string)
    ensures desc == ReportDescription(doc, env)
  {
    if doc.desainReportDescription != "" {
      return doc.desainReportDescription;
    }
    var baseDesc := ComposeBase(doc, env);
    var parts := if baseDesc != "" then [baseDesc] else [];
    if doc.selectionParameters != [] {
      parts := parts + ["Report ini memiliki " + NatToString(|doc.selectionParameters|) + " parameter selection screen."];
    }
    if doc.fieldMappings != [] {
      parts := parts + ["Proses detail mencakup " + NatToString(|doc.fieldMappings|) + " field utama."];
    }
    assert parts == DescriptionParts(doc, env);
    if parts == [] {
      parts := parts + [DefaultDescription];
    }
    desc := env.improve(Join(parts, " "));
  }

  /** Appends a labelled list, one line per item, when there are items. */
  method AppendList<T>(lines: seq<string>, caption: string, xs: seq<T>, line: T -> string) returns (out: seq<string>)
    ensures out == lines + ListBlock(caption, Seqs.Map(line, xs))
  {
    out := lines;
    if xs != [] {
      out := out + [caption];
      var i := 0;
      while i < |xs|
        invariant 0 <= i <= |xs|
        invariant out == lines + [caption] + Seqs.Map(line, xs[..i])
      {
        Seqs.MapSnoc(line, xs[..i], xs[i]);
        assert xs[..i + 1] == xs[..i] + [xs[i]];
        out := out + [line(xs[i])];
        i := i + 1;
      }
      assert xs[..i] == xs;
      out := out + [""];
    }
  }

  /** Section 1: the project facts, then the related documents (RICEFW ids
      shown by their Assign Nodin when one is found), reviewers and versions. */
  method AppendInfo(lines: seq<string>, doc: FsdDocument, env: Env) returns (out: seq<string>)
    ensures out == lines + InfoLines(doc, env)
  {
    out := lines + ["## 1. INFORMASI DOKUMEN", "", "- **Project**: " + doc.projectName,
                    "- **Document Location**: " + doc.documentLocation, ""];
    out := AppendList(out, "- **Related Documents**:", doc.relatedDocuments, d => RelatedLine(env, d));
    out := AppendList(out, "- **Reviewers**:", doc.reviewers, ReviewerLine);
    out := AppendList(out, "- **Version History**:", doc.versionHistory, VersionLine);
  }

  /** Section 2: the requirement (from the first RICEFW id's Requirement
      Description when found, improved) and the assumptions. */
  method AppendGeneral(lines: seq<string>, doc: FsdDocument, env: Env) returns (out: seq<string>)
    ensures out == lines + GeneralLines(doc, env)
  {
    var requirementValue := doc.userRequirements;
    var id := FindRicefw(doc.relatedDocuments);
    if id.Some? {
      var desc := env.requirement(id.value);
      if Found(desc) {
        requirementValue := env.improve(desc.value);
      }
    }
    out := lines + ["## 2. PERSYARATAN UMUM", "", "**User Requirements**: " + requirementValue, "", "**Assumptions**:"];
    var i := 0;
    ghost var front := out;
    while i < |doc.assumptions|
      invariant 0 <= i <= |doc.assumptions|
      invariant out == front + Seqs.Map(AssumptionLine, doc.assumptions[..i])
    {
      Seqs.MapSnoc(AssumptionLine, doc.assumptions[..i], doc.assumptions[i]);
      assert doc.assumptions[..i + 1] == doc.assumptions[..i] + [doc.assumptions[i]];
      out := out + [AssumptionLine(doc.assumptions[i])];
      i := i + 1;
    }
    assert doc.assumptions[..i] == doc.assumptions;
    out := out + [""];
  }

  /** Section 3: the program name (the first RICEFW id's Assign Nodin when
      found), transaction code and menu path. */
  method AppendExisting(lines: seq<string>, doc: FsdDocument, env: Env) returns (out: seq<string>)
    ensures out == lines + ExistingLines(doc, env)
  {
    var programNameValue := doc.programName;
    var id := FindRicefw(doc.relatedDocuments);
    if id.Some? {
      var nodin := env.nodin(id.value);
      if Found(nodin) {
        programNameValue := nodin.value;
      }
    }
    out := lines + ["## 3. EXISTING SAP OBJECTS", "", "- **Program Name**: " + programNameValue,
                    "- **Transaction Code**: " + doc.transactionCode, "- **Menu Path**: " + doc.menuPath, ""];
  }

  /** Appends a titled table, one row per record, when there are records. */
  method AppendTable<T>(lines: seq<string>, heading: string, columns: seq<string>, xs: seq<T>,
                        row: T -> string, closed: bool) returns (out: seq<string>)
    ensures out == lines + TableBlock(heading, PipeRow(columns), Separator(columns), Seqs.Map(row, xs), closed)
  {
    out := lines;
    if xs != [] {
      var front := out + [heading, "", PipeRow(columns), Separator(columns)];
      out := front;
      var i := 0;
      while i < |xs|
        invariant 0 <= i <= |xs|
        invariant out == front + Seqs.Map(row, xs[..i])
      {
        Seqs.MapSnoc(row, xs[..i], xs[i]);
        assert xs[..i + 1] == xs[..i] + [xs[i]];
        out := out + [row(xs[i])];
        i := i + 1;
      }
      assert xs[..i] == xs;
      TableBlockAfter(lines, heading, PipeRow(columns), Separator(columns), Seqs.Map(row, xs), closed);
      if closed {
        out := out + [""];
      }
    }
  }

  /** A table block appended to `lines`, piece by piece. */
  lemma TableBlockAfter(lines: seq<string>, heading: string, header: string, separator: string,
                        rows: seq<string>, closed: bool)
    requires rows != []
    ensures lines + TableBlock(heading, header, separator, rows, closed)
      == lines + [heading, "", header, separator] + rows + (if closed then [""] else [])
  {
  }

  /** `for i, x in enumerate(xs, 1)`: a titled table whose rows are
      numbered from 1. */
  method AppendNumberedTable<T>(lines: seq<string>, heading: string, columns: seq<string>, xs: seq<T>,
                                row: (nat, T) -> string, closed: bool) returns (out: seq<string>)
    ensures out == lines + TableBlock(heading, PipeRow(columns), Separator(columns), Seqs.Enumerate(row, xs), closed)
  {
    out := lines;
    if xs != [] {
      var front := out + [heading, "", PipeRow(columns), Separator(columns)];
      out := front;
      var i := 0;
      while i < |xs|
        invariant 0 <= i <= |xs|
        invariant out == front + Seqs.Enumerate(row, xs)[..i]
      {
        assert Seqs.Enumerate(row, xs)[..i + 1] == Seqs.Enumerate(row, xs)[..i] + [row(i + 1, xs[i])];
        out := out + [row(i + 1, xs[i])];
        i := i + 1;
      }
      assert Seqs.Enumerate(row, xs)[..i] == Seqs.Enumerate(row, xs);
      TableBlockAfter(lines, heading, PipeRow(columns), Separator(columns), Seqs.Enumerate(row, xs), closed);
      if closed {
        out := out + [""];
      }
    }
  }

  lemma AppendNine<T>(a: seq<T>, b1: seq<T>, b2: seq<T>, b3: seq<T>, b4: seq<T>, b5: seq<T>, b6: seq<T>,
                      b7: seq<T>, b8: seq<T>)
    ensures a + b1 + b2 + b3 + b4 + b5 + b6 + b7 + b8 == a + (b1 + (b2 + (b3 + (b4 + (b5 + (b6 + (b7 + b8)))))))
  {
  }

  /** The title block and sections 1 to 4.1. */
  method FrontMatter(doc: FsdDocument, env: Env) returns (lines: seq<string>)
    ensures lines == FrontLines(doc, env)
  {
    lines := ["# Functional Specification Design (FSD)", "## " + doc.programName, "### " + doc.reportDescription,
              "", "**Generated on:** " + env.stamp, ""];
    lines := AppendInfo(lines, doc, env);
    lines := AppendGeneral(lines, doc, env);
    lines := AppendExisting(lines, doc, env);
    var description := ComposeReportDescription(doc, env);
    lines := lines + ["## 4. DESAIN", "", "### 4.1 Description detail dari Report", "", description, ""];
  }

  /** Sections 4.2 to 6, each only when it has rows. */
  method AppendTables(lines: seq<string>, doc: FsdDocument) returns (out: seq<string>)
    ensures out == lines + TableLines(doc)
  {
    out := AppendTable(lines, SelectionHeading, SelectionColumns, doc.selectionParameters, SelectionRow, true);
    out := AppendTable(out, DetailHeading, DetailColumns, doc.fieldMappings, DetailRow, true);
    out := AppendTable(out, DatasetHeading, DataConditionColumns, doc.validDatasetRules, DataConditionLine, true);
    // append_form, once per lookup form
    out := AppendTable(out, CountryHeading, DataConditionColumns, doc.countryInfo, DataConditionLine, true);
    out := AppendTable(out, T500cHeading, DataConditionColumns, doc.currencyT500c, DataConditionLine, true);
    out := AppendTable(out, T001Heading, DataConditionColumns, doc.currencyT001, DataConditionLine, true);
    out := AppendNumberedTable(out, ErrorHeading, ErrorColumns, doc.errorScenarios, ErrorRow, true);
    out := AppendNumberedTable(out, TestHeading, TestColumns, doc.testScenarios, TestRow, false);
    AppendNine(lines, SelectionTable(doc), DetailTable(doc), DataConditionTable(DatasetHeading, doc.validDatasetRules),
               DataConditionTable(CountryHeading, doc.countryInfo), DataConditionTable(T500cHeading, doc.currencyT500c),
               DataConditionTable(T001Heading, doc.currencyT001), ErrorTable(doc), TestTable(doc));
  }

  /** `_generate_markdown`: the document's lines joined by newlines. */
  method GenerateMarkdown(doc: FsdDocument, env: Env) returns (md: string)
    ensures md == Join(MarkdownLines(doc, env), "\n")
  {
    var lines := FrontMatter(doc, env);
    lines := AppendTables(lines, doc);
    md := Join(lines, "\n");
  }
}
