/** What `extract_title_info` promises about the dictionary it returns, and
    what it reads back from the Markdown the generator writes. */
module TitleExtractFacts {
  import opened Wrappers
  import opened Text
  import opened Seqs
  import opened TitleExtract
  import Fsd
  import Render
  import TableOfContents

  // ---- the section chain ----

  /** A text containing `w` contains every piece of `w`. */
  lemma {:induction false} ContainsWithin(s: string, w: string, p: string, a: nat)
    requires Contains(s, w) && a + |p| <= |w| && w[a..a + |p|] == p
    ensures Contains(s, p)
  {
    var k := IndexOf(s, w);
    forall j | 0 <= j < |p| ensures s[k + a + j] == p[j] {
      assert s[k + a + j] == s[k..k + |w|][a + j];
      assert p[j] == w[a..a + |p|][j];
    }
    assert s[k + a..k + a + |p|] == p;
    ContainsAt(s, p, k + a);
  }

  /** The `DESIGN CHANGE` / `PERUBAHAN DESAIN` branch is dead: a heading that
      names a design change also names the design, which is tested first. */
  lemma DesignChangeUnreachable(line: string)
    ensures HeadingKind(line) != Enter(DesignChanges)
  {
    var u := Upper(line);
    if Contains(u, "DESIGN CHANGE") {
      ContainsWithin(u, "DESIGN CHANGE", "DESIGN", 0);
    }
    if Contains(u, "PERUBAHAN DESAIN") {
      ContainsWithin(u, "PERUBAHAN DESAIN", "DESAIN", 10);
    }
  }

  // ---- one line, part by part ----

  /** Only a `## ` line can change the section. */
  lemma PlainLines(line: string)
    ensures HeadingKind(line) == Plain <==> !StartsWith(line, "## ")
  {
  }

  /** The end of a line's processing changes only the list tag and lists,
      and the lists not at all on a stripped line. */
  lemma TrackParts(s: Scan, line: string)
    ensures var t := Track(s, line);
            t.region == s.region && t.sub == s.sub && t.header == s.header && t.info == s.info
            && t.requirements == s.requirements && t.sap == s.sap && t.tables == s.tables
    ensures Stripped(line) ==> Track(s, line).lists == s.lists
  {
    if Stripped(line) {
      ListStepStripped(s.lists, TagStep(s.tag, line), line);
    }
  }

  /** A stripped line never starts with the two spaces of `  - `. */
  lemma ListStepStripped(l: Lists, tag: Tag, line: string)
    requires Stripped(line)
    ensures ListStep(l, tag, line) == l
  {
    if |line| >= 4 {
      assert line[0] != ' ';
      assert line[..4] != "  - ";
    }
  }

  /** The fields a line updates once it is neither a section heading nor a
      design subsection heading. */
  lemma {:induction false} FieldsParts(s: Scan, lines: seq<string>, i: nat, line: string)
    ensures var f := Fields(s, lines, i, line);
            f.region == s.region && f.sub == s.sub && f.header == HeaderStep(s.header, line)
            && f.info == InfoStep(s.info, line)
    ensures Fields(s, lines, i, line).tables
         == if s.region == General && Contains(line, AssumptionsLabel) then s.tables
            else TablesStep(s.tables, s.region, s.sub, line)
    ensures Stripped(line) ==> Fields(s, lines, i, line).lists == s.lists
  {
    var s1 := s.(header := HeaderStep(s.header, line), info := InfoStep(s.info, line),
                 requirements := RequirementsStep(s.requirements, s.region, lines, i, line));
    TrackParts(s1.(requirements := AssumptionStep(s1.requirements, s.region, s.tag, line),
                   sap := SapStep(s.sap, s.region, line),
                   tables := TablesStep(s.tables, s.region, s.sub, line)), line);
  }

  /** Whether a line reaches the field updates: it is not a section heading,
      nor a `### ` line inside the design section. */
  predicate Reaches(s: Scan, line: string) {
    match HeadingKind(line)
    case Enter(_) => false
    case Leave => true
    case Plain => !(s.region == Design && StartsWith(line, "### "))
  }

  /** The region a line's field updates see. */
  function RegionSeen(s: Scan, line: string): Region {
    if HeadingKind(line) == Leave then Outside else s.region
  }

  lemma {:induction false} StepParts(s: Scan, lines: seq<string>, i: nat)
    requires i < |lines|
    ensures var line := Strip(lines[i]);
            var t := Step(s, lines, i);
            t.header == (if Reaches(s, line) then HeaderStep(s.header, line) else s.header)
            && t.lists == s.lists
    ensures var line := Strip(lines[i]);
            (Step(s, lines, i).tables
             == if !Reaches(s, line) || (RegionSeen(s, line) == General && Contains(line, AssumptionsLabel)) then s.tables
                else TablesStep(s.tables, RegionSeen(s, line), s.sub, line))
  {
    StepHeader(s, lines, i);
    StepTables(s, lines, i);
  }

  lemma {:induction false} StepHeader(s: Scan, lines: seq<string>, i: nat)
    requires i < |lines|
    ensures var line := Strip(lines[i]);
            var t := Step(s, lines, i);
            t.header == (if Reaches(s, line) then HeaderStep(s.header, line) else s.header)
            && t.lists == s.lists
  {
    var line := Strip(lines[i]);
    match HeadingKind(line)
    case Enter(r) =>
    case Leave =>
      StepLeave(s, lines, i);
      BodyParts(s.(region := Outside, tag := NoTag), lines, i, line);
    case Plain =>
      StepPlain(s, lines, i);
      BodyParts(s, lines, i, line);
  }

  lemma {:induction false} StepTables(s: Scan, lines: seq<string>, i: nat)
    requires i < |lines|
    ensures var line := Strip(lines[i]);
            (Step(s, lines, i).tables
             == if !Reaches(s, line) || (RegionSeen(s, line) == General && Contains(line, AssumptionsLabel)) then s.tables
                else TablesStep(s.tables, RegionSeen(s, line), s.sub, line))
  {
    var line := Strip(lines[i]);
    match HeadingKind(line)
    case Enter(r) =>
    case Leave =>
      StepLeave(s, lines, i);
      BodyParts(s.(region := Outside, tag := NoTag), lines, i, line);
    case Plain =>
      StepPlain(s, lines, i);
      BodyParts(s, lines, i, line);
  }

  lemma {:induction false} StepLeave(s: Scan, lines: seq<string>, i: nat)
    requires i < |lines| && HeadingKind(Strip(lines[i])) == Leave
    ensures Step(s, lines, i) == Body(s.(region := Outside, tag := NoTag), lines, i, Strip(lines[i]))
    ensures Reaches(s, Strip(lines[i])) && RegionSeen(s, Strip(lines[i])) == Outside
  {
  }

  lemma {:induction false} StepPlain(s: Scan, lines: seq<string>, i: nat)
    requires i < |lines| && HeadingKind(Strip(lines[i])) == Plain
    ensures Step(s, lines, i) == Body(s, lines, i, Strip(lines[i]))
    ensures RegionSeen(s, Strip(lines[i])) == s.region
    ensures Reaches(s, Strip(lines[i])) <==> !(s.region == Design && StartsWith(Strip(lines[i]), "### "))
  {
  }

  /** A line that is no section heading: a design subsection heading changes
      only the subsection, any other line goes to the field updates. */
  lemma {:induction false} BodyParts(s: Scan, lines: seq<string>, i: nat, line: string)
    requires Stripped(line)
    ensures var b := Body(s, lines, i, line);
            var reach := !(s.region == Design && StartsWith(line, "### "));
            b.header == (if reach then HeaderStep(s.header, line) else s.header)
            && b.lists == s.lists
            && b.tables == (if !reach || (s.region == General && Contains(line, AssumptionsLabel)) then s.tables
                            else TablesStep(s.tables, s.region, s.sub, line))
  {
    FieldsParts(s, lines, i, line);
  }

  lemma {:induction false} RunKeepsLists(lines: seq<string>, clock: Clock, n: nat)
    ensures Run(lines, clock, n).lists == Lists([], [], [])
  {
    var inv := (t: Scan, k: nat) => t.lists == Lists([], [], []);
    forall t, i: nat | i < n && inv(t, i) ensures inv(StepOf(lines)(t, i), i + 1) {
      if i < |lines| {
        StepParts(t, lines, i);
      }
    }
    IterateKeeps(StepOf(lines), inv, Start(clock), n);
  }

  /** The related documents, reviewers and version history are never filled:
      their items are looked for on lines starting with `  - `, after the
      line has been stripped. */
  lemma {:induction false} ListsNeverFilled(content: string, clock: Clock)
    ensures TitleInfoOf(content, clock).document.lists == Lists([], [], [])
  {
    var lines := Split(content, '\n');
    RunKeepsLists(lines, clock, |lines|);
  }

  // ---- the program name ----

  /** Removing `pat` keeps a last character that cannot end an occurrence. */
  lemma {:induction false} ReplaceKeepsLast(s: string, pat: string)
    requires pat != [] && s != [] && s[|s| - 1] != pat[|pat| - 1]
    ensures ReplaceAll(s, pat, "") != []
    ensures ReplaceAll(s, pat, "")[|ReplaceAll(s, pat, "")| - 1] == s[|s| - 1]
    decreases |s|
  {
    var r := ReplaceAll(s, pat, "");
    if StartsWith(s, pat) {
      assert |s| > |pat|;
      var rest := s[|pat|..];
      assert rest[|rest| - 1] == s[|s| - 1];
      ReplaceKeepsLast(rest, pat);
      assert r == "" + ReplaceAll(rest, pat, "");
    } else if |s| > 1 {
      var rest := s[1..];
      assert rest[|rest| - 1] == s[|s| - 1];
      ReplaceKeepsLast(rest, pat);
      assert r == [s[0]] + ReplaceAll(rest, pat, "");
    } else {
      assert r == [s[0]] + ReplaceAll(s[1..], pat, "");
      assert ReplaceAll(s[1..], pat, "") == [];
    }
  }

  /** A `## ` heading always yields a non-empty program name: its last
      character is not a space, so no occurrence of `## ` removes it. */
  lemma HeadingTextNonEmpty(line: string)
    requires StartsWith(line, "## ") && Stripped(line)
    ensures HeadingText(line, "## ") != []
  {
    ReplaceKeepsLast(line, "## ");
    var r := ReplaceAll(line, "## ", "");
    StripNonEmpty(r, |r| - 1);
  }

  /** Line `i` is a `## ` heading that names no known section. */
  predicate LeaveAt(lines: seq<string>, i: nat) {
    i < |lines| && HeadingKind(Strip(lines[i])) == Leave
  }

  /** The first such heading among the first `n` lines. */
  function FirstLeave(lines: seq<string>, n: nat): Option<nat> {
    Leftmost((j: nat) => LeaveAt(lines, j), 0, n)
  }

  /** The title of the first such heading, or nothing. */
  function FirstLeaveTitle(lines: seq<string>, n: nat): string {
    match FirstLeave(lines, n)
    case None => ""
    case Some(i) =>
      assert LeaveAt(lines, i);
      HeadingText(Strip(lines[i]), "## ")
  }

  /** The leftmost match among `n + 1` positions extends the one among `n`. */
  lemma LeftmostExtend(ok: nat -> bool, n: nat)
    ensures Leftmost(ok, 0, n + 1) == (if Leftmost(ok, 0, n).Some? then Leftmost(ok, 0, n)
                                       else if ok(n) then Some(n) else None)
  {
    var a := Leftmost(ok, 0, n);
    var b := Leftmost(ok, 0, n + 1);
    if a.Some? {
      assert ok(a.value);
    }
  }

  lemma {:induction false} StepProgramName(s: Scan, lines: seq<string>, i: nat)
    requires i < |lines|
    ensures Step(s, lines, i).header.programName
         == if LeaveAt(lines, i) && s.header.programName == [] then HeadingText(Strip(lines[i]), "## ")
            else s.header.programName
  {
    StepParts(s, lines, i);
    PlainLines(Strip(lines[i]));
  }

  /** The title of the first unknown heading among `n + 1` lines, from the
      one among `n`; it is empty exactly when there is none. */
  lemma FirstLeaveTitleNext(lines: seq<string>, n: nat)
    ensures FirstLeaveTitle(lines, n) == [] <==> FirstLeave(lines, n).None?
    ensures FirstLeaveTitle(lines, n + 1)
         == if FirstLeave(lines, n).Some? then FirstLeaveTitle(lines, n)
            else if LeaveAt(lines, n) then HeadingText(Strip(lines[n]), "## ")
            else ""
  {
    LeftmostExtend((j: nat) => LeaveAt(lines, j), n);
    match FirstLeave(lines, n)
    case Some(k) =>
      assert LeaveAt(lines, k);
      HeadingTextNonEmpty(Strip(lines[k]));
    case None =>
  }

  lemma {:induction false} ProgramNameStep(t: Scan, lines: seq<string>, i: nat)
    requires t.header.programName == FirstLeaveTitle(lines, i)
    ensures StepOf(lines)(t, i).header.programName == FirstLeaveTitle(lines, i + 1)
  {
    FirstLeaveTitleNext(lines, i);
    if i < |lines| {
      StepProgramName(t, lines, i);
    }
  }

  /** The program name is the text of the first `## ` heading that names no
      known section; with none, it stays empty. */
  lemma {:induction false} ProgramNameIsFirstLeave(lines: seq<string>, clock: Clock, n: nat)
    ensures Run(lines, clock, n).header.programName == FirstLeaveTitle(lines, n)
  {
    var inv := (t: Scan, k: nat) => t.header.programName == FirstLeaveTitle(lines, k);
    forall t, i: nat | i < n && inv(t, i) ensures inv(StepOf(lines)(t, i), i + 1) {
      ProgramNameStep(t, lines, i);
    }
    IterateKeeps(StepOf(lines), inv, Start(clock), n);
  }

  // ---- the RICEFW id ----

  /** `RHR` and at least one digit. */
  predicate RicefwShaped(id: string) {
    4 <= |id| && id[0] == 'R' && id[1] == 'H' && id[2] == 'R' && forall k :: 3 <= k < |id| ==> IsDigit(id[k])
  }

  lemma {:induction false} RunRicefw(lines: seq<string>, clock: Clock, n: nat)
    ensures Run(lines, clock, n).header.ricefwId == [] || RicefwShaped(Run(lines, clock, n).header.ricefwId)
  {
    var inv := (t: Scan, k: nat) => t.header.ricefwId == [] || RicefwShaped(t.header.ricefwId);
    forall t, i: nat | i < n && inv(t, i) ensures inv(StepOf(lines)(t, i), i + 1) {
      RicefwStep(t, lines, i);
    }
    IterateKeeps(StepOf(lines), inv, Start(clock), n);
  }

  /** A line keeps the id, or replaces it by an `RHR` match. */
  lemma {:induction false} RicefwStep(t: Scan, lines: seq<string>, i: nat)
    requires t.header.ricefwId == [] || RicefwShaped(t.header.ricefwId)
    ensures var u := StepOf(lines)(t, i);
            u.header.ricefwId == [] || RicefwShaped(u.header.ricefwId)
  {
    if i < |lines| {
      StepHeader(t, lines, i);
    }
  }

  lemma RicefwFallbackShaped(programName: string)
    ensures RicefwShaped(RicefwFallback(programName))
  {
  }

  lemma FinishFallbacks(s: Scan, clock: Clock, toc: seq<TableOfContents.TocItem>)
    requires s.header.ricefwId == [] || RicefwShaped(s.header.ricefwId)
    ensures var t := Finish(s, clock, toc).title;
            t.fileName != []
            && (t.ricefwId == [] || RicefwShaped(t.ricefwId))
            && (t.programName != [] ==> RicefwShaped(t.ricefwId))
    ensures var info := Finish(s, clock, toc);
            info.title.programName != [] ==> info.document.documentLocation != []
  {
    RicefwFallbackShaped(s.header.programName);
  }

  /** No `RHR` followed by a digit anywhere in `s`. */
  predicate NoRhr(s: string) {
    forall i :: 0 <= i < |s| ==> !RhrAt(s, i)
  }

  /** A piece of a text without `RHR<digit>` has none either. */
  lemma NoRhrPiece(s: string, p: string)
    requires NoRhr(s) && Contains(s, p)
    ensures NoRhr(p)
  {
    var k := IndexOf(s, p);
    forall i | 0 <= i < |p| ensures !RhrAt(p, i) {
      if RhrAt(p, i) {
        var w := s[k..k + |p|];
        assert w == p;
        assert s[k + i] == w[i] && s[k + i + 1] == w[i + 1] && s[k + i + 2] == w[i + 2] && s[k + i + 3] == w[i + 3];
        assert RhrAt(s, k + i);
      }
    }
  }

  /** Every stripped line of a text without `RHR<digit>` has none. */
  lemma NoRhrLine(content: string, i: nat)
    requires NoRhr(content) && i < |Split(content, '\n')|
    ensures NoRhr(Strip(Split(content, '\n')[i]))
  {
    var lines := Split(content, '\n');
    JoinSplit(content, '\n');
    JoinHolds(lines, "\n", i);
    NoRhrPiece(content, lines[i]);
    StripInside(lines[i]);
    NoRhrPiece(lines[i], Strip(lines[i]));
  }

  /** With no `RHR<digit>` in the text, the loop finds no id. */
  lemma {:induction false} RunNoRicefw(content: string, clock: Clock, n: nat)
    requires NoRhr(content)
    ensures Run(Split(content, '\n'), clock, n).header.ricefwId == []
  {
    var lines := Split(content, '\n');
    var inv := (t: Scan, k: nat) => t.header.ricefwId == [];
    forall t, i: nat | i < n && inv(t, i) ensures inv(StepOf(lines)(t, i), i + 1) {
      if i < |lines| {
        StepHeader(t, lines, i);
        NoRhrLine(content, i);
        assert RhrMatch(Strip(lines[i])).None?;
      }
    }
    IterateKeeps(StepOf(lines), inv, Start(clock), n);
  }

  /** A text with no `RHR<digit>` anywhere gets its RICEFW id from the
      program name, the title of the first `## ` heading naming no known
      section: RHR006 when it mentions IT0015, else RHR018 when it mentions
      IT0267, else RHR041; with no such heading the id stays empty. */
  lemma {:induction false} TextRicefwFallback(content: string, clock: Clock)
    requires NoRhr(content)
    ensures var lines := Split(content, '\n');
            var name := FirstLeaveTitle(lines, |lines|);
            var t := TitleInfoOf(content, clock).title;
            && t.programName == name
            && (name == [] ==> t.ricefwId == [])
            && (Contains(name, "IT0015") ==> t.ricefwId == "RHR006")
            && (!Contains(name, "IT0015") && Contains(name, "IT0267") ==> t.ricefwId == "RHR018")
            && (name != [] && !Contains(name, "IT0015") && !Contains(name, "IT0267") ==> t.ricefwId == "RHR041")
  {
    var lines := Split(content, '\n');
    RunNoRicefw(content, clock, |lines|);
    ProgramNameIsFirstLeave(lines, clock, |lines|);
    var name := FirstLeaveTitle(lines, |lines|);
    if Contains(name, "IT0015") || Contains(name, "IT0267") {
      assert name != [] by {
        if name == [] {
          NotContainsChar(name, "IT0015");
          NotContainsChar(name, "IT0267");
        }
      }
    }
  }

  /** The title page always has a file name; its RICEFW id is empty or `RHR`
      and digits, and never empty once a program name was found, nor is the
      document location. */
  lemma {:induction false} TitlePageFallbacks(content: string, clock: Clock)
    ensures var t := TitleInfoOf(content, clock).title;
            t.fileName != []
            && (t.ricefwId == [] || RicefwShaped(t.ricefwId))
            && (t.programName != [] ==> RicefwShaped(t.ricefwId))
    ensures var info := TitleInfoOf(content, clock);
            info.title.programName != [] ==> info.document.documentLocation != []
  {
    var lines := Split(content, '\n');
    RunRicefw(lines, clock, |lines|);
    FinishFallbacks(Run(lines, clock, |lines|), clock, TableOfContents.Toc(lines));
  }
}
