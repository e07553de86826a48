/** `MarkdownParser`: the line-driven scanner that turns the generated
    Markdown back into a section -> subsection tree. The result is a Python
    dictionary keyed by section name, by "title", or by `None` (a `###`
    heading met before any `##`); the title value is a string and every other
    value a dictionary, so saving a section into the title's key raises, which
    the model makes a failed parse. */
module MarkdownParse {
  import opened Wrappers
  import opened Text
  import Seqs

  /** A key of the parse result; `None` is Python's `None`. */
  type Key = Option<string>

  const TitleKey: Key := Some("title")

  /** A value of the parse result: the title string, or a section dictionary
      with its optional `content` and `subsections` entries. */
  datatype Entry =
    | TitleText(text: string)
    | SectionEntry(content: Option<seq<string>>, subsections: Option<map<string, seq<string>>>)

  type Parsed = map<Key, Entry>

  /** `if value:` on an optional string. */
  predicate Truthy(v: Option<string>) {
    v.Some? && v.value != ""
  }

  /** `parsed_data[key]`, created as `{}` when missing. */
  function EntryOf(data: Parsed, key: Key): Entry {
    if key in data then data[key] else SectionEntry(None, None)
  }

  /** `_save_subsection`: the data with `content` stored under the section's
      subsection; `None` when the section's value is the title string. */
  function WithSubsection(data: Parsed, section: Key, subsection: string, content: seq<string>): Option<Parsed> {
    var e := EntryOf(data, section);
    if e.TitleText? then None
    else Some(data[section := e.(subsections := Some(e.subsections.GetOr(map[])[subsection := content]))])
  }

  /** `_save_section`: into the open subsection when there is one, else as the
      section's own content. */
  function WithSection(data: Parsed, section: string, subsection: Option<string>, content: seq<string>): Option<Parsed> {
    if Truthy(subsection) then WithSubsection(data, Some(section), subsection.value, content)
    else
      var e := EntryOf(data, Some(section));
      if e.TitleText? then None else Some(data[Some(section) := e.(content := Some(content))])
  }

  /** `line.startswith('# ')`, `'## '` and `'### '`, character by character. */
  predicate TitleLine(line: string) {
    |line| >= 2 && line[0] == '#' && line[1] == ' '
  }

  predicate SectionLine(line: string) {
    |line| >= 3 && line[0] == '#' && line[1] == '#' && line[2] == ' '
  }

  predicate SubsectionLine(line: string) {
    |line| >= 4 && line[0] == '#' && line[1] == '#' && line[2] == '#' && line[3] == ' '
  }

  /** The three heading tests are the `startswith` tests of the source. */
  lemma HeadingLines(line: string)
    ensures TitleLine(line) <==> StartsWith(line, "# ")
    ensures SectionLine(line) <==> StartsWith(line, "## ")
    ensures SubsectionLine(line) <==> StartsWith(line, "### ")
  {
    if |line| >= 2 { assert TitleLine(line) <==> line[..2] == "# "; }
    if |line| >= 3 { assert SectionLine(line) <==> line[..3] == "## "; }
    if |line| >= 4 { assert SubsectionLine(line) <==> line[..4] == "### "; }
  }

  /** The name a heading gives: `line[n:].strip()`. */
  function HeadingText(line: string, n: nat): string
    requires n <= |line|
  {
    Strip(line[n..])
  }

  /** The scanner's state: the data so far, the open section and subsection,
      and the lines gathered since the last heading. */
  datatype Scan = Scan(data: Parsed, section: Option<string>, subsection: Option<string>, content: seq<string>)

  /** One iteration of the loop in `parse`, on the line once stripped. */
  function Step(s: Scan, line: string): Option<Scan> {
    if TitleLine(line) then
      Some(s.(data := s.data[TitleKey := TitleText(HeadingText(line, 2))]))
    else if SectionLine(line) then
      var data :- if Truthy(s.section) then WithSection(s.data, s.section.value, s.subsection, s.content)
                  else Some(s.data);
      Some(Scan(data, Some(HeadingText(line, 3)), None, []))
    else if SubsectionLine(line) then
      var data :- if Truthy(s.subsection) then WithSubsection(s.data, s.section, s.subsection.value, s.content)
                  else Some(s.data);
      Some(s.(data := data, subsection := Some(HeadingText(line, 4)), content := []))
    else if line != "" && line[0] == '|' then
      // a table row (`'|' in line` always holds here), kept as it is
      Some(s.(content := s.content + [line]))
    else if line != "" then
      Some(s.(content := s.content + [line]))
    else
      Some(s)
  }

  /** A loop over `lines` that stops at the first failure. */
  function Fold<S>(step: (S, string) -> Option<S>, s: S, lines: seq<string>): Option<S>
    decreases |lines|
  {
    if lines == [] then Some(s)
    else
      var t :- Fold(step, s, lines[..|lines| - 1]);
      step(t, lines[|lines| - 1])
  }

  /** The loop of `parse`, over the stripped lines. */
  function Run(s: Scan, lines: seq<string>): Option<Scan> {
    Fold(Step, s, lines)
  }

  /** After the loop: save the section still open. */
  function Finish(s: Scan): Option<Parsed> {
    if Truthy(s.section) then WithSection(s.data, s.section.value, s.subsection, s.content) else Some(s.data)
  }

  function Start(data: Parsed): Scan {
    Scan(data, None, None, [])
  }

  /** `parse` on stripped lines, starting from the parser's current data. */
  function ParseStripped(data: Parsed, lines: seq<string>): Option<Parsed> {
    var s :- Run(Start(data), lines);
    Finish(s)
  }

  /** `parse` on a text: its lines, each stripped as it is read. */
  function ParseText(data: Parsed, text: string): Option<Parsed> {
    ParseStripped(data, Seqs.Map(Strip, Split(text, '\n')))
  }

  class MarkdownParser {
    var markdownContent: string
    var parsedData: Parsed

    constructor(markdownContent: string)
      ensures this.markdownContent == markdownContent && parsedData == map[]
    {
      this.markdownContent := markdownContent;
      parsedData := map[];
    }

    method SaveSubsection(section: Key, subsection: string, content: seq<string>) returns (ok: bool)
      modifies this
      ensures markdownContent == old(markdownContent)
      ensures ok == WithSubsection(old(parsedData), section, subsection, content).Some?
      ensures ok ==> parsedData == WithSubsection(old(parsedData), section, subsection, content).value
    {
      var e := if section in parsedData then parsedData[section] else SectionEntry(None, None);
      if e.TitleText? {
        return false;
      }
      var subsections := if e.subsections.Some? then e.subsections.value else map[];
      parsedData := parsedData[section := e.(subsections := Some(subsections[subsection := content]))];
      ok := true;
    }

    method SaveSection(section: string, subsection: Option<string>, content: seq<string>) returns (ok: bool)
      modifies this
      ensures markdownContent == old(markdownContent)
      ensures ok == WithSection(old(parsedData), section, subsection, content).Some?
      ensures ok ==> parsedData == WithSection(old(parsedData), section, subsection, content).value
    {
      if subsection.Some? && subsection.value != "" {
        ok := SaveSubsection(Some(section), subsection.value, content);
        return;
      }
      var e := if Some(section) in parsedData then parsedData[Some(section)] else SectionEntry(None, None);
      if e.TitleText? {
        return false;
      }
      parsedData := parsedData[Some(section) := e.(content := Some(content))];
      ok := true;
    }

    /** The body of the loop in `parse`, for one stripped line; `ok` is false
        when saving raised. */
    method Advance(line: string, section: Option<string>, subsection: Option<string>, content: seq<string>)
      returns (ok: bool, section': Option<string>, subsection': Option<string>, content': seq<string>)
      modifies this
      ensures markdownContent == old(markdownContent)
      ensures var r := Step(Scan(old(parsedData), section, subsection, content), line);
        ok == r.Some? && (ok ==> r.value == Scan(parsedData, section', subsection', content'))
    {
      section', subsection', content' := section, subsection, content;
      ok := true;
      if TitleLine(line) {
        parsedData := parsedData[TitleKey := TitleText(Strip(line[2..]))];
      } else if SectionLine(line) {
        if section.Some? && section.value != "" {
          ok := SaveSection(section.value, subsection, content);
          if !ok {
            return;
          }
        }
        section' := Some(Strip(line[3..]));
        subsection' := None;
        content' := [];
      } else if SubsectionLine(line) {
        if subsection.Some? && subsection.value != "" {
          ok := SaveSubsection(section, subsection.value, content);
          if !ok {
            return;
          }
        }
        subsection' := Some(Strip(line[4..]));
        content' := [];
      } else if line != "" && line[0] == '|' {
        content' := content + [line];
      } else if line != "" {
        content' := content + [line];
      }
    }

    /** `parse`: on success the parser's data is the result; a failure is the
        TypeError Python raises. */
    method Parse() returns (result: Option<Parsed>)
      modifies this
      ensures markdownContent == old(markdownContent)
      ensures result == ParseText(old(parsedData), markdownContent)
      ensures result.Some? ==> parsedData == result.value
    {
      var lines := Split(markdownContent, '\n');
      ghost var stripped := Seqs.Map(Strip, lines);
      var section: Option<string> := None;
      var subsection: Option<string> := None;
      var content: seq<string> := [];
      ghost var start := Start(parsedData);
      var i := 0;
      while i < |lines|
        invariant 0 <= i <= |lines|
        invariant markdownContent == old(markdownContent) && start == Start(old(parsedData))
        invariant Run(start, stripped[..i]) == Some(Scan(parsedData, section, subsection, content))
      {
        RunSnoc(start, stripped, i);
        var ok;
        ok, section, subsection, content := Advance(Strip(lines[i]), section, subsection, content);
        if !ok {
          RunFails(start, stripped, i + 1);
          return None;
        }
        i := i + 1;
      }
      assert stripped[..i] == stripped;
      if section.Some? && section.value != "" {
        var ok := SaveSection(section.value, subsection, content);
        if !ok {
          return None;
        }
      }
      result := Some(parsedData);
    }
  }

  // ---- the loop, in pieces ----

  /** Folding over `a + b` is folding over `a`, then over `b`. */
  lemma {:induction false} FoldAppend<S>(step: (S, string) -> Option<S>, s: S, a: seq<string>, b: seq<string>)
    ensures Fold(step, s, a + b) == match Fold(step, s, a) case None => None case Some(t) => Fold(step, t, b)
    decreases |b|
  {
    if b == [] {
      assert a + b == a;
    } else {
      var ab := a + b;
      assert ab[..|ab| - 1] == a + b[..|b| - 1];
      assert ab[|ab| - 1] == b[|b| - 1];
      FoldAppend(step, s, a, b[..|b| - 1]);
    }
  }

  /** Running over `a + b` is running over `a`, then over `b`. */
  lemma RunAppend(s: Scan, a: seq<string>, b: seq<string>)
    ensures Run(s, a + b) == match Run(s, a) case None => None case Some(t) => Run(t, b)
  {
    FoldAppend(Step, s, a, b);
  }

  /** A failure on a prefix is a failure of the whole loop. */
  lemma FoldFails<S>(step: (S, string) -> Option<S>, s: S, lines: seq<string>, k: nat)
    requires k <= |lines| && Fold(step, s, lines[..k]).None?
    ensures Fold(step, s, lines).None?
  {
    FoldAppend(step, s, lines[..k], lines[k..]);
    assert lines[..k] + lines[k..] == lines;
  }

  lemma RunFails(s: Scan, lines: seq<string>, k: nat)
    requires k <= |lines| && Run(s, lines[..k]).None?
    ensures Run(s, lines).None?
  {
    FoldFails(Step, s, lines, k);
  }

  /** One more line: the loop so far, then one step. */
  lemma RunSnoc(s: Scan, lines: seq<string>, i: nat)
    requires i < |lines|
    ensures Run(s, lines[..i + 1]) == match Run(s, lines[..i]) case None => None case Some(t) => Step(t, lines[i])
  {
    assert lines[..i + 1][..i] == lines[..i];
  }
}
