/** What `MarkdownParser.parse` keeps of the lines it reads: `##` headings
    become keys, `###` headings become subsection keys, the last `#` line is
    the title, body lines are stored as read (stripped) and never blank, and a
    section's lines before its first `###` heading are dropped. The lemmas are
    about the stripped lines; `ParseText` feeds the parser exactly those. */
module MarkdownParseFacts {
  import opened Wrappers
  import opened Text
  import opened MarkdownParse
  import Seqs

  /** A line that is not a `#`, `##` or `###` heading. */
  predicate Plain(line: string) {
    !TitleLine(line) && !SectionLine(line) && !SubsectionLine(line)
  }

  /** Every line plain. */
  predicate AllPlain(lines: seq<string>)
    decreases |lines|
  {
    lines == [] || (AllPlain(lines[..|lines| - 1]) && Plain(lines[|lines| - 1]))
  }

  /** The body lines the scanner stores: the blank ones skipped. */
  function Kept(lines: seq<string>): seq<string>
    decreases |lines|
  {
    if lines == [] then []
    else
      var last := lines[|lines| - 1];
      Kept(lines[..|lines| - 1]) + (if last != "" then [last] else [])
  }

  predicate NonBlank(xs: seq<string>) {
    forall i :: 0 <= i < |xs| ==> xs[i] != ""
  }

  predicate AllStripped(xs: seq<string>) {
    forall i :: 0 <= i < |xs| ==> Stripped(xs[i])
  }

  /** The lines the parser reads are stripped. */
  lemma TextLinesStripped(text: string)
    ensures AllStripped(Seqs.Map(Strip, Split(text, '\n')))
  {
  }

  /** Stored lines are never blank, and stripped when the input was. */
  lemma {:induction false} KeptClean(lines: seq<string>)
    ensures NonBlank(Kept(lines))
    ensures AllStripped(lines) ==> AllStripped(Kept(lines))
    decreases |lines|
  {
    if lines != [] {
      KeptClean(lines[..|lines| - 1]);
    }
  }

  /** Lines none of which is blank, pipe rows among them, are stored verbatim
      and in order. */
  lemma {:induction false} KeptVerbatim(lines: seq<string>)
    requires NonBlank(lines)
    ensures Kept(lines) == lines
    decreases |lines|
  {
    if lines != [] {
      var n := |lines| - 1;
      KeptVerbatim(lines[..n]);
      assert lines[..n] + [lines[n]] == lines;
    }
  }

  /** A heading's name is never empty: the stripped line ends in a non-space
      character after the prefix's closing space. */
  lemma HeadingNonEmpty(line: string, n: nat)
    requires Stripped(line) && 1 <= n <= |line| && line[n - 1] == ' '
    ensures HeadingText(line, n) != ""
  {
    var rest := line[n..];
    assert rest[|rest| - 1] == line[|line| - 1];
    StripNonEmpty(rest, |rest| - 1);
  }

  lemma Assoc<T>(x: seq<T>, y: seq<T>, z: seq<T>)
    ensures x + (y + z) == x + y + z
  {
  }

  // ---- single steps ----

  /** A plain line only extends the open content, when it is not blank. */
  lemma StepPlain(t: Scan, line: string)
    requires Plain(line)
    ensures Step(t, line) == Some(t.(content := t.content + (if line != "" then [line] else [])))
  {
    if line == "" {
      assert t.content + [] == t.content;
    }
  }

  /** A `# T` line sets the title. */
  lemma StepTitle(t: Scan, h: string)
    requires TitleLine(h)
    ensures Step(t, h) == Some(t.(data := t.data[TitleKey := TitleText(HeadingText(h, 2))]))
  {
  }

  /** A `## X` line saves the open section, then opens `X`. */
  lemma StepSection(t: Scan, h: string)
    requires SectionLine(h)
    ensures var saved := if Truthy(t.section) then WithSection(t.data, t.section.value, t.subsection, t.content)
                         else Some(t.data);
      Step(t, h) == if saved.None? then None else Some(Scan(saved.value, Some(HeadingText(h, 3)), None, []))
  {
  }

  /** A `### Y` line saves the open subsection, then opens `Y`. */
  lemma StepSubsection(t: Scan, h: string)
    requires SubsectionLine(h)
    ensures var saved := if Truthy(t.subsection) then WithSubsection(t.data, t.section, t.subsection.value, t.content)
                         else Some(t.data);
      Step(t, h) == if saved.None? then None
                    else Some(t.(data := saved.value, subsection := Some(HeadingText(h, 4)), content := []))
  {
  }

  // ---- runs of lines ----

  lemma RunLast(t: Scan, lines: seq<string>)
    requires lines != []
    ensures Run(t, lines) == match Run(t, lines[..|lines| - 1]) case None => None
                             case Some(u) => Step(u, lines[|lines| - 1])
  {
    assert Run(t, lines) == Fold(Step, t, lines);
  }

  lemma RunOne(t: Scan, h: string)
    ensures Run(t, [h]) == Step(t, h)
  {
    RunLast(t, [h]);
    assert [h][..0] == [];
    assert Run(t, []) == Some(t);
  }

  /** A run of plain lines only extends the open content. */
  lemma {:induction false} BodyRun(t: Scan, body: seq<string>)
    requires AllPlain(body)
    ensures Run(t, body) == Some(t.(content := t.content + Kept(body)))
    decreases |body|
  {
    if body == [] {
      assert t.content + Kept(body) == t.content;
    } else {
      var n := |body| - 1;
      BodyRun(t, body[..n]);
      RunLast(t, body);
      var u := t.(content := t.content + Kept(body[..n]));
      StepPlain(u, body[n]);
      assert u.content + (if body[n] != "" then [body[n]] else []) == t.content + Kept(body);
    }
  }

  lemma RunFreshSection(t: Scan, h: string)
    requires SectionLine(h) && !Truthy(t.section)
    ensures Run(t, [h]) == Some(Scan(t.data, Some(HeadingText(h, 3)), None, []))
  {
    RunOne(t, h);
    StepSection(t, h);
  }

  lemma RunFreshSubsection(t: Scan, h: string)
    requires SubsectionLine(h) && !Truthy(t.subsection)
    ensures Run(t, [h]) == Some(t.(subsection := Some(HeadingText(h, 4)), content := []))
  {
    RunOne(t, h);
    StepSubsection(t, h);
  }

  lemma ParseStrippedRun(data: Parsed, lines: seq<string>, t: Scan)
    requires Run(Start(data), lines) == Some(t)
    ensures ParseStripped(data, lines) == Finish(t)
  {
  }

  /** Closing a scan with section `x` open and no subsection stores the
      gathered lines as `x`'s content. */
  lemma FinishSection(data: Parsed, x: string, c: seq<string>)
    requires x != "" && EntryOf(data, Some(x)).SectionEntry?
    ensures Finish(Scan(data, Some(x), None, c)) == Some(data[Some(x) := EntryOf(data, Some(x)).(content := Some(c))])
  {
  }

  /** Closing a scan with section `x` and subsection `y` open stores the
      gathered lines under `y`. */
  lemma FinishSubsection(data: Parsed, x: string, y: string, c: seq<string>)
    requires x != "" && y != "" && EntryOf(data, Some(x)).SectionEntry?
    ensures var e := EntryOf(data, Some(x));
      Finish(Scan(data, Some(x), Some(y), c))
        == Some(data[Some(x) := e.(subsections := Some(e.subsections.GetOr(map[])[y := c]))])
  {
  }

  /** The scan after `## X` and plain lines: `X` open, the lines gathered. */
  lemma SectionBodyRun(t: Scan, h: string, body: seq<string>)
    requires SectionLine(h) && !Truthy(t.section)
    requires AllPlain(body)
    ensures Run(t, [h] + body) == Some(Scan(t.data, Some(HeadingText(h, 3)), None, Kept(body)))
  {
    var s1 := Scan(t.data, Some(HeadingText(h, 3)), None, []);
    var s2 := Scan(t.data, Some(HeadingText(h, 3)), None, Kept(body));
    RunFreshSection(t, h);
    BodyRun(s1, body);
    assert [] + Kept(body) == Kept(body);
    assert Run(s1, body) == Some(s2);
    RunAppend(t, [h], body);
  }

  /** The scan after `### Y` and plain lines, when no subsection was open:
      `Y` open, only the new lines gathered. */
  lemma SubsectionBodyRun(t: Scan, h: string, body: seq<string>)
    requires SubsectionLine(h) && !Truthy(t.subsection)
    requires AllPlain(body)
    ensures Run(t, [h] + body) == Some(t.(subsection := Some(HeadingText(h, 4)), content := Kept(body)))
  {
    var s1 := t.(subsection := Some(HeadingText(h, 4)), content := []);
    var s2 := t.(subsection := Some(HeadingText(h, 4)), content := Kept(body));
    RunFreshSubsection(t, h);
    BodyRun(s1, body);
    assert [] + Kept(body) == Kept(body);
    assert Run(s1, body) == Some(s2);
    RunAppend(t, [h], body);
  }

  /** `## X` followed by plain lines stores them, without the blank ones, as
      the section's content. */
  lemma {:induction false} SectionContent(data: Parsed, h: string, body: seq<string>)
    requires Stripped(h) && SectionLine(h)
    requires AllPlain(body)
    requires EntryOf(data, Some(HeadingText(h, 3))).SectionEntry?
    ensures var x := Some(HeadingText(h, 3));
      ParseStripped(data, [h] + body) == Some(data[x := EntryOf(data, x).(content := Some(Kept(body)))])
  {
    var x := HeadingText(h, 3);
    HeadingNonEmpty(h, 3);
    SectionBodyRun(Start(data), h, body);
    ParseStrippedRun(data, [h] + body, Scan(data, Some(x), None, Kept(body)));
    FinishSection(data, x, Kept(body));
  }

  lemma SectionThenSubsectionRun(data: Parsed, hx: string, a: seq<string>, hy: string, b: seq<string>)
    requires SectionLine(hx) && SubsectionLine(hy)
    requires AllPlain(a) && AllPlain(b)
    ensures Run(Start(data), [hx] + a + [hy] + b)
         == Some(Scan(data, Some(HeadingText(hx, 3)), Some(HeadingText(hy, 4)), Kept(b)))
  {
    var s0 := Start(data);
    var s2 := Scan(data, Some(HeadingText(hx, 3)), None, Kept(a));
    var s3 := Scan(data, Some(HeadingText(hx, 3)), Some(HeadingText(hy, 4)), Kept(b));
    SectionBodyRun(s0, hx, a);
    assert Run(s0, [hx] + a) == Some(s2);
    SubsectionBodyRun(s2, hy, b);
    assert Run(s2, [hy] + b) == Some(s3);
    var front, back := [hx] + a, [hy] + b;
    RunAppend(s0, front, back);
    Assoc(front, [hy], b);
  }

  /** The quirk of `parse`: the lines between `## X` and its first `### Y`
      are dropped, since opening a subsection discards the gathered content
      while no subsection is open; the section keeps the content it had. */
  lemma {:induction false} ContentBeforeSubsectionDropped(data: Parsed, hx: string, a: seq<string>, hy: string, b: seq<string>)
    requires Stripped(hx) && SectionLine(hx) && Stripped(hy) && SubsectionLine(hy)
    requires AllPlain(a) && AllPlain(b)
    requires EntryOf(data, Some(HeadingText(hx, 3))).SectionEntry?
    ensures var x := Some(HeadingText(hx, 3));
      var e := EntryOf(data, x);
      ParseStripped(data, [hx] + a + [hy] + b)
        == Some(data[x := e.(subsections := Some(e.subsections.GetOr(map[])[HeadingText(hy, 4) := Kept(b)]))])
  {
    var x, y := HeadingText(hx, 3), HeadingText(hy, 4);
    HeadingNonEmpty(hx, 3);
    HeadingNonEmpty(hy, 4);
    SectionThenSubsectionRun(data, hx, a, hy, b);
    ParseStrippedRun(data, [hx] + a + [hy] + b, Scan(data, Some(x), Some(y), Kept(b)));
    FinishSubsection(data, x, y, Kept(b));
  }

  // ---- what every step keeps ----

  /** A property kept by every step on the lines it is asked of holds after
      the whole loop. */
  lemma {:induction false} FoldKeeps<S>(step: (S, string) -> Option<S>, inv: S -> bool, ok: string -> bool,
                                        s: S, lines: seq<string>)
    requires inv(s)
    requires forall i :: 0 <= i < |lines| ==> ok(lines[i])
    requires forall t, l :: inv(t) && ok(l) && step(t, l).Some? ==> inv(step(t, l).value)
    ensures Fold(step, s, lines).Some? ==> inv(Fold(step, s, lines).value)
    decreases |lines|
  {
    if lines != [] {
      FoldKeeps(step, inv, ok, s, lines[..|lines| - 1]);
    }
  }

  /** The subsection names stored for an entry. */
  function SubKeys(e: Entry): set<string> {
    if e.SectionEntry? && e.subsections.Some? then e.subsections.value.Keys else {}
  }

  /** `e2` still holds what `e` held: the same title, or a section with at
      least the same subsections. */
  predicate Keeps(e: Entry, e2: Entry) {
    (e.TitleText? ==> e2 == e) && (e.SectionEntry? ==> e2.SectionEntry? && SubKeys(e) <= SubKeys(e2))
  }

  /** `d2` keeps every key of `d`, and what it held. */
  predicate Grows(d: Parsed, d2: Parsed) {
    d.Keys <= d2.Keys && forall k :: k in d ==> Keeps(d[k], d2[k])
  }

  lemma GrowsTrans(d1: Parsed, d2: Parsed, d3: Parsed)
    requires Grows(d1, d2) && Grows(d2, d3)
    ensures Grows(d1, d3)
  {
  }

  lemma WithSubsectionGrows(data: Parsed, section: Key, sub: string, content: seq<string>)
    requires WithSubsection(data, section, sub, content).Some?
    ensures var r := WithSubsection(data, section, sub, content).value;
      Grows(data, r) && section in r && r[section].SectionEntry? && sub in SubKeys(r[section])
  {
  }

  lemma WithSectionGrows(data: Parsed, section: string, sub: Option<string>, content: seq<string>)
    requires WithSection(data, section, sub, content).Some?
    ensures var r := WithSection(data, section, sub, content).value;
      Grows(data, r) && Some(section) in r && r[Some(section)].SectionEntry?
      && (Truthy(sub) ==> sub.value in SubKeys(r[Some(section)]))
  {
    if Truthy(sub) {
      WithSubsectionGrows(data, Some(section), sub.value, content);
    }
  }

  /** A step other than a `#` line keeps every key and what it held; only
      a `##` line changes the open section. */
  lemma StepGrows(t: Scan, line: string)
    requires !TitleLine(line) && Step(t, line).Some?
    ensures Grows(t.data, Step(t, line).value.data)
    ensures !SectionLine(line) ==> Step(t, line).value.section == t.section
  {
    if SectionLine(line) {
      StepSection(t, line);
      if Truthy(t.section) {
        WithSectionGrows(t.data, t.section.value, t.subsection, t.content);
      }
    } else if SubsectionLine(line) {
      StepSubsection(t, line);
      if Truthy(t.subsection) {
        WithSubsectionGrows(t.data, t.section, t.subsection.value, t.content);
      }
    } else {
      StepPlain(t, line);
    }
  }

  /** A `#` line keeps every key, and what every other key held. */
  lemma {:induction false} StepTitleGrows(t: Scan, line: string)
    requires TitleLine(line)
    ensures Step(t, line).Some?
    ensures var d := Step(t, line).value.data;
      t.data.Keys <= d.Keys && (forall k :: k in t.data && k != TitleKey ==> d[k] == t.data[k])
    ensures Step(t, line).value.section == t.section && Step(t, line).value.subsection == t.subsection
  {
    StepTitle(t, line);
    UpdateKeeps(t.data, TitleKey, TitleText(HeadingText(line, 2)));
  }

  /** Setting one key keeps every other key and its value. */
  lemma UpdateKeeps<K, V>(m: map<K, V>, key: K, v: V)
    ensures m.Keys <= m[key := v].Keys && forall k :: k in m && k != key ==> m[key := v][k] == m[k]
  {
  }

  lemma FinishGrows(t: Scan)
    requires Finish(t).Some?
    ensures Grows(t.data, Finish(t).value)
    ensures Truthy(t.section) ==> t.section in Finish(t).value && Finish(t).value[t.section].SectionEntry?
    ensures Truthy(t.section) && Truthy(t.subsection) ==> t.subsection.value in SubKeys(Finish(t).value[t.section])
  {
    if Truthy(t.section) {
      WithSectionGrows(t.data, t.section.value, t.subsection, t.content);
    }
  }

  /** After a stretch with no `#` line the data holds all it held before. */
  lemma RunGrows(t: Scan, lines: seq<string>)
    requires forall i :: 0 <= i < |lines| ==> !TitleLine(lines[i])
    ensures Run(t, lines).Some? ==> Grows(t.data, Run(t, lines).value.data)
  {
    var d := t.data;
    forall u: Scan, l: string | Grows(d, u.data) && !TitleLine(l) && Step(u, l).Some?
      ensures Grows(d, Step(u, l).value.data)
    {
      StepGrows(u, l);
      GrowsTrans(d, u.data, Step(u, l).value.data);
    }
    FoldKeeps(Step, (u: Scan) => Grows(d, u.data), (l: string) => !TitleLine(l), t, lines);
  }

  /** `parsed_data['title']` is the text of the last `#` line. */
  lemma TitleFromLastHashLine(data: Parsed, pre: seq<string>, h: string, post: seq<string>)
    requires TitleLine(h)
    requires forall i :: 0 <= i < |post| ==> !TitleLine(post[i])
    ensures var r := ParseStripped(data, pre + [h] + post);
      r.Some? ==> TitleKey in r.value && r.value[TitleKey] == TitleText(HeadingText(h, 2))
  {
    var s0 := Start(data);
    RunAppend(s0, pre + [h], post);
    RunAppend(s0, pre, [h]);
    match Run(s0, pre) {
      case None =>
      case Some(t) =>
        RunOne(t, h);
        StepTitle(t, h);
        var t1 := t.(data := t.data[TitleKey := TitleText(HeadingText(h, 2))]);
        RunGrows(t1, post);
        match Run(t1, post) {
          case None =>
          case Some(t2) =>
            ParseStrippedRun(data, pre + [h] + post, t2);
            if Finish(t2).Some? {
              FinishGrows(t2);
              GrowsTrans(t1.data, t2.data, Finish(t2).value);
            }
        }
    }
  }

  /** Every `##` heading read becomes a key of the result. */
  lemma {:induction false} SectionHeadingIsKey(data: Parsed, pre: seq<string>, h: string, post: seq<string>)
    requires Stripped(h) && SectionLine(h)
    ensures var r := ParseStripped(data, pre + [h] + post);
      r.Some? ==> Some(HeadingText(h, 3)) in r.value
  {
    var x := HeadingText(h, 3);
    HeadingNonEmpty(h, 3);
    var s0 := Start(data);
    RunAppend(s0, pre + [h], post);
    RunAppend(s0, pre, [h]);
    match Run(s0, pre) {
      case None =>
      case Some(t) =>
        RunOne(t, h);
        StepSection(t, h);
        match Step(t, h) {
          case None =>
          case Some(t1) =>
            forall u: Scan, l: string | (Some(x) in u.data || u.section == Some(x)) && Step(u, l).Some?
              ensures Some(x) in Step(u, l).value.data || Step(u, l).value.section == Some(x)
            {
              StepKeepsSectionKey(u, l, x);
            }
            FoldKeeps(Step, (u: Scan) => Some(x) in u.data || u.section == Some(x), (l: string) => true, t1, post);
            match Run(t1, post) {
              case None =>
              case Some(t2) =>
                ParseStrippedRun(data, pre + [h] + post, t2);
                if Finish(t2).Some? {
                  FinishGrows(t2);
                }
            }
        }
    }
  }

  /** The open section, once named, is a key by the time it is closed. */
  lemma StepKeepsSectionKey(u: Scan, l: string, x: string)
    requires x != "" && (Some(x) in u.data || u.section == Some(x)) && Step(u, l).Some?
    ensures Some(x) in Step(u, l).value.data || Step(u, l).value.section == Some(x)
  {
    if TitleLine(l) {
      StepTitleGrows(u, l);
    } else {
      StepGrows(u, l);
      if SectionLine(l) && u.section == Some(x) {
        StepSection(u, l);
        WithSectionGrows(u.data, x, u.subsection, u.content);
      }
    }
  }

  /** `d` holds subsection `y` under section `x`. */
  predicate HasSubsection(d: Parsed, x: string, y: string) {
    Some(x) in d && d[Some(x)].SectionEntry? && y in SubKeys(d[Some(x)])
  }

  /** The open subsection, once named, is stored under its section by the
      time it is closed. */
  lemma StepKeepsSubsection(u: Scan, l: string, x: string, y: string)
    requires x != "" && y != "" && Some(x) != TitleKey
    requires HasSubsection(u.data, x, y) || (u.section == Some(x) && u.subsection == Some(y))
    requires Step(u, l).Some?
    ensures var v := Step(u, l).value;
      HasSubsection(v.data, x, y) || (v.section == Some(x) && v.subsection == Some(y))
  {
    if TitleLine(l) {
      StepTitleGrows(u, l);
    } else {
      StepGrows(u, l);
      if !HasSubsection(u.data, x, y) {
        if SectionLine(l) {
          StepSection(u, l);
          WithSectionGrows(u.data, x, u.subsection, u.content);
        } else if SubsectionLine(l) {
          StepSubsection(u, l);
          WithSubsectionGrows(u.data, u.section, y, u.content);
        } else {
          StepPlain(u, l);
        }
      }
    }
  }

  /** After `## X` and lines with no `##` heading, `X` is still open. */
  lemma SectionStaysOpen(t: Scan, h: string, b: seq<string>)
    requires SectionLine(h)
    requires forall i :: 0 <= i < |b| ==> !SectionLine(b[i])
    ensures Run(t, [h] + b).Some? ==> Run(t, [h] + b).value.section == Some(HeadingText(h, 3))
  {
    var x := HeadingText(h, 3);
    RunAppend(t, [h], b);
    RunOne(t, h);
    StepSection(t, h);
    match Step(t, h) {
      case None =>
      case Some(t1) =>
        forall u: Scan, l: string | u.section == Some(x) && !SectionLine(l) && Step(u, l).Some?
          ensures Step(u, l).value.section == Some(x)
        {
          if TitleLine(l) {
            StepTitleGrows(u, l);
          } else {
            StepGrows(u, l);
          }
        }
        FoldKeeps(Step, (u: Scan) => u.section == Some(x), (l: string) => !SectionLine(l), t1, b);
    }
  }

  /** A `### Y` heading read while section `X` is open is a subsection key
      under `X` in the result (unless `X` is "title", whose key the title
      line may take over). */
  lemma {:induction false} SubsectionHeadingIsKey(data: Parsed, a: seq<string>, hx: string, b: seq<string>, hy: string, post: seq<string>)
    requires Stripped(hx) && SectionLine(hx) && Stripped(hy) && SubsectionLine(hy)
    requires forall i :: 0 <= i < |b| ==> !SectionLine(b[i])
    requires HeadingText(hx, 3) != "title"
    ensures var r := ParseStripped(data, a + ([hx] + b) + [hy] + post);
      r.Some? ==> HasSubsection(r.value, HeadingText(hx, 3), HeadingText(hy, 4))
  {
    var x, y := HeadingText(hx, 3), HeadingText(hy, 4);
    HeadingNonEmpty(hx, 3);
    HeadingNonEmpty(hy, 4);
    var s0 := Start(data);
    var front := a + ([hx] + b) + [hy];
    RunAppend(s0, front, post);
    SubsectionOpen(s0, a, hx, b, hy);
    match Run(s0, front) {
      case None =>
      case Some(t1) =>
        SubsectionKeptToEnd(data, front, post, t1, x, y);
    }
  }

  /** Right after `## X`, lines without `##` and `### Y`, subsection `Y` of
      `X` is open. */
  lemma SubsectionOpen(s0: Scan, a: seq<string>, hx: string, b: seq<string>, hy: string)
    requires SectionLine(hx) && Stripped(hy) && SubsectionLine(hy)
    requires forall i :: 0 <= i < |b| ==> !SectionLine(b[i])
    ensures var r := Run(s0, a + ([hx] + b) + [hy]);
      r.Some? ==> r.value.section == Some(HeadingText(hx, 3)) && r.value.subsection == Some(HeadingText(hy, 4))
  {
    var front := a + ([hx] + b);
    RunAppend(s0, front, [hy]);
    RunAppend(s0, a, [hx] + b);
    match Run(s0, a) {
      case None =>
      case Some(ta) =>
        SectionStaysOpen(ta, hx, b);
        match Run(ta, [hx] + b) {
          case None =>
          case Some(tb) =>
            RunOne(tb, hy);
            StepSubsection(tb, hy);
        }
    }
  }

  lemma {:induction false} SubsectionKeptToEnd(data: Parsed, front: seq<string>, post: seq<string>, t1: Scan, x: string, y: string)
    requires x != "" && y != "" && Some(x) != TitleKey
    requires Run(Start(data), front) == Some(t1) && t1.section == Some(x) && t1.subsection == Some(y)
    ensures var r := ParseStripped(data, front + post);
      r.Some? ==> HasSubsection(r.value, x, y)
  {
    RunAppend(Start(data), front, post);
    forall u: Scan, l: string | (HasSubsection(u.data, x, y) || (u.section == Some(x) && u.subsection == Some(y)))
                                && Step(u, l).Some?
      ensures var v := Step(u, l).value; HasSubsection(v.data, x, y) || (v.section == Some(x) && v.subsection == Some(y))
    {
      StepKeepsSubsection(u, l, x, y);
    }
    FoldKeeps(Step, (u: Scan) => HasSubsection(u.data, x, y) || (u.section == Some(x) && u.subsection == Some(y)),
              (l: string) => true, t1, post);
    match Run(t1, post) {
      case None =>
      case Some(t2) =>
        ParseStrippedRun(data, front + post, t2);
        if Finish(t2).Some? {
          FinishGrows(t2);
        }
    }
  }

  // ---- stored lines ----

  predicate Good(xs: seq<string>) {
    NonBlank(xs) && AllStripped(xs)
  }

  /** Every stored list of lines is free of blank and unstripped lines. */
  predicate CleanEntry(e: Entry) {
    e.SectionEntry? ==>
      (e.content.Some? ==> Good(e.content.value))
      && (e.subsections.Some? ==> forall y :: y in e.subsections.value ==> Good(e.subsections.value[y]))
  }

  predicate CleanData(d: Parsed) {
    forall k :: k in d ==> CleanEntry(d[k])
  }

  lemma StepClean(u: Scan, l: string)
    requires CleanData(u.data) && Good(u.content) && Stripped(l) && Step(u, l).Some?
    ensures CleanData(Step(u, l).value.data) && Good(Step(u, l).value.content)
  {
    if TitleLine(l) {
      StepTitle(u, l);
    } else if SectionLine(l) {
      StepSection(u, l);
      if Truthy(u.section) {
        WithSectionClean(u.data, u.section.value, u.subsection, u.content);
      }
    } else if SubsectionLine(l) {
      StepSubsection(u, l);
      if Truthy(u.subsection) {
        WithSubsectionClean(u.data, u.section, u.subsection.value, u.content);
      }
    } else {
      StepPlain(u, l);
    }
  }

  lemma WithSubsectionClean(data: Parsed, section: Key, sub: string, content: seq<string>)
    requires CleanData(data) && Good(content) && WithSubsection(data, section, sub, content).Some?
    ensures CleanData(WithSubsection(data, section, sub, content).value)
  {
    var e := EntryOf(data, section);
    assert CleanEntry(e);
    var e2 := e.(subsections := Some(e.subsections.GetOr(map[])[sub := content]));
    assert CleanEntry(e2);
  }

  lemma WithSectionClean(data: Parsed, section: string, sub: Option<string>, content: seq<string>)
    requires CleanData(data) && Good(content) && WithSection(data, section, sub, content).Some?
    ensures CleanData(WithSection(data, section, sub, content).value)
  {
    if Truthy(sub) {
      WithSubsectionClean(data, Some(section), sub.value, content);
    } else {
      assert CleanEntry(EntryOf(data, Some(section)));
    }
  }

  /** Given stripped lines, `parse` stores no blank line and no line with
      surrounding whitespace. */
  lemma StoredLinesClean(data: Parsed, lines: seq<string>)
    requires CleanData(data) && AllStripped(lines)
    ensures var r := ParseStripped(data, lines); r.Some? ==> CleanData(r.value)
  {
    forall u: Scan, l: string | CleanData(u.data) && Good(u.content) && Stripped(l) && Step(u, l).Some?
      ensures CleanData(Step(u, l).value.data) && Good(Step(u, l).value.content)
    {
      StepClean(u, l);
    }
    FoldKeeps(Step, (u: Scan) => CleanData(u.data) && Good(u.content), (l: string) => Stripped(l), Start(data), lines);
    var r := Run(Start(data), lines);
    if r.Some? {
      FinishClean(r.value);
    }
  }

  /** Saving the open section keeps the data clean. */
  lemma FinishClean(s: Scan)
    requires CleanData(s.data) && Good(s.content)
    ensures Finish(s).Some? ==> CleanData(Finish(s).value)
  {
    if Truthy(s.section) && Finish(s).Some? {
      WithSectionClean(s.data, s.section.value, s.subsection, s.content);
    }
  }

  /** The same for the text the parser is given. */
  lemma ParsedTextClean(text: string)
    ensures var r := ParseText(map[], text); r.Some? ==> CleanData(r.value)
  {
    TextLinesStripped(text);
    StoredLinesClean(map[], Seqs.Map(Strip, Split(text, '\n')));
  }
}
