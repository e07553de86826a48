/** `TitlePageWordGenerator.find_and_replace_testing_section` and
    `_cleanup_testing_paragraphs_aggressive`: the testing requirements table
    goes after the first paragraph holding one of the testing placeholders,
    tried in a fixed order, and the summary prose around it is cleared. */
module TestingSection {
  import opened Wrappers
  import opened Text
  import opened Seqs
  import opened DocModel
  import opened TableInsert
  import TableBuilders

  /** The places the testing table may go, most specific first. */
  const TestingPatterns: seq<string> := [
    "{{persyaratan_pengujian}}",
    "Persyaratan pengujian yang harus dipenuhi:",
    "Prioritas Tinggi:",
    "[*Masukkan kondisi fungsional yang diperlukan untuk pengujian.*]",
    "**KONDISI PENGUJIAN**",
    "KONDISI PENGUJIAN",
    "Persyaratan pengujian mencakup skenario"]

  /** Phrases that mark a paragraph near the table as leftover test prose. */
  const CleanupPatterns: seq<string> := [
    "Prioritas Tinggi:", "Prioritas Menengah:", "Prioritas Rendah:",
    "User has authorization", "User does not have authorization",
    "Process RHR006_01", "Selection option s_lgart", "Infotype 0015",
    "Large dataset", "Employee has IT0015 record",
    "[*Masukkan kondisi fungsional", "**KONDISI PENGUJIAN**", "**HASIL YANG DIHARAPKAN**",
    "Persyaratan pengujian mencakup skenario", "skenario prioritas tinggi",
    "skenario prioritas menengah", "skenario prioritas rendah",
    "Detail kondisi pengujian tercantum", "authorization, security",
    "functional testing", "performance, edge cases"]

  /** Words that mark a long paragraph as a priority breakdown. */
  const CleanupWords: seq<string> := ["prioritas", "skenario", "authorization", "functional"]

  // ---- the cleanup ----

  /** `range(max(0, start - 5), min(start + 30, len(doc.paragraphs)))`. */
  predicate InWindow(k: nat, start: nat) {
    start <= k + 5 && k < start + 30
  }

  /** A paragraph the cleanup clears: its stripped text holds a cleanup
      phrase, or is over 50 characters long and holds a cleanup word in
      lower case. */
  predicate Marked(text: string) {
    var t := Strip(text);
    HasAny(t, CleanupPatterns) || (|t| > 50 && HasAny(Lower(t), CleanupWords))
  }

  function CleanupRule(start: nat): (nat, Paragraph) -> Paragraph {
    (k: nat, p: Paragraph) => if InWindow(k, start) && Marked(ParagraphText(p)) then Cleared else p
  }

  /** Clears every marked paragraph from five before paragraph `start` of
      `doc.paragraphs` to 29 after it. Marking only reads each paragraph's own
      text, so marking all and then clearing all is one pass. */
  method CleanupTestingParagraphs(doc: Document, start: nat)
    modifies doc
    ensures doc.blocks == MapParagraphs(old(doc.blocks), CleanupRule(start))
  {
    var b := doc.blocks;
    var g := CleanupRule(start);
    var k := 0;
    for j := 0 to |b|
      invariant doc.blocks == MapParagraphs(b[..j], g) + b[j..]
      invariant k == ParagraphIndex(b, j)
    {
      MapParagraphsStep(b, g, j);
      ParagraphIndexNext(b, j);
      if b[j].Para? {
        if InWindow(k, start) && Marked(ParagraphText(b[j].paragraph)) {
          doc.SetParagraph(j, Cleared);
        } else {
          assert doc.blocks[j := b[j]] == doc.blocks;
        }
        k := k + 1;
      } else {
        assert doc.blocks[j := b[j]] == doc.blocks;
      }
    }
    assert b[..|b|] == b;
  }

  /** In `doc.paragraphs` the cleanup clears exactly the marked paragraphs of
      the window and leaves the rest; tables stay where they are. */
  lemma CleanupEffect(b: seq<Block>, start: nat)
    ensures var ps := BodyParagraphs(b);
            var qs := BodyParagraphs(MapParagraphs(b, CleanupRule(start)));
            && |qs| == |ps|
            && forall k :: 0 <= k < |ps| ==>
                 qs[k] == if InWindow(k, start) && Marked(ParagraphText(ps[k])) then Cleared else ps[k]
    ensures forall j :: 0 <= j < |b| && b[j].Tbl? ==> MapParagraphs(b, CleanupRule(start))[j] == b[j]
  {
    BodyParagraphsMap(b, CleanupRule(start));
    forall j | 0 <= j < |b| && b[j].Tbl? ensures MapParagraphs(b, CleanupRule(start))[j] == b[j] {
      MapParagraphsAt(b, CleanupRule(start), j);
    }
  }

  // ---- the search over the patterns ----

  function PatternFound(b: seq<Block>, patterns: seq<string>): nat -> bool {
    (i: nat) => i < |patterns| && FirstHit(b, patterns[i]).Some?
  }

  /** The first of `patterns` some body paragraph mentions. */
  function FirstPattern(b: seq<Block>, patterns: seq<string>): Option<nat> {
    Leftmost(PatternFound(b, patterns), 0, |patterns|)
  }

  /** What the loop leaves when no table can be built: for each pattern in
      turn, every body paragraph mentioning it cleared. */
  function ClearAll(b: seq<Block>, patterns: seq<string>): seq<Block> {
    if patterns == [] then b
    else Retitled(ClearAll(b, patterns[..|patterns| - 1]), patterns[|patterns| - 1], "")
  }

  /** Finds the first testing pattern some body paragraph mentions, clears
      that paragraph, puts the testing table after it and cleans up around
      it; reports whether the table went in. Without a table (no rows or no
      headers) every paragraph that mentions a pattern is cleared, pattern by
      pattern, and nothing is inserted. */
  /** Whether the testing table goes in, and the body afterwards. */
  function AfterTesting(b: seq<Block>, data: seq<seq<string>>, headers: seq<string>): (bool, seq<Block>) {
    var table := TableBuilders.CreateBorderedTable(data, headers);
    var found := FirstPattern(b, TestingPatterns);
    if table.None? then (false, ClearAll(b, TestingPatterns))
    else if found.None? then (false, b)
    else
      var j := FirstHit(b, TestingPatterns[found.value]).value;
      (true, MapParagraphs(b[..j] + [Para(Cleared), Tbl(table.value)] + b[j + 1..], CleanupRule(ParagraphIndex(b, j))))
  }

  method FindAndReplaceTestingSection(doc: Document, data: seq<seq<string>>, headers: seq<string>)
    returns (inserted: bool)
    modifies doc
    ensures (inserted, doc.blocks) == AfterTesting(old(doc.blocks), data, headers)
  {
    var table := TableBuilders.CreateBorderedTable(data, headers);
    if table.None? {
      ClearTestingMentions(doc);
      inserted := false;
    } else {
      inserted := PlaceTestingTable(doc, table.value, TestingPatterns);
    }
  }

  /** The search when no table can be built: each hit is cleared and the
      search goes on. */
  method ClearTestingMentions(doc: Document)
    modifies doc
    ensures doc.blocks == ClearAll(old(doc.blocks), TestingPatterns)
  {
    ghost var b := doc.blocks;
    for i := 0 to |TestingPatterns|
      invariant doc.blocks == ClearAll(b, TestingPatterns[..i])
    {
      assert TestingPatterns[..i + 1][..i] == TestingPatterns[..i];
      var _ := AnchorTable(doc, TestingPatterns[i], None, "");
    }
    assert TestingPatterns[..|TestingPatterns|] == TestingPatterns;
  }

  /** The search with table `t`: the first of `patterns` that some body
      paragraph mentions decides where `t` goes. */
  method PlaceTestingTable(doc: Document, t: Table, patterns: seq<string>) returns (inserted: bool)
    modifies doc
    ensures var b := old(doc.blocks);
            var found := FirstPattern(b, patterns);
            if found.None? then
              !inserted && doc.blocks == b
            else
              var j := FirstHit(b, patterns[found.value]).value;
              inserted
              && doc.blocks == MapParagraphs(b[..j] + [Para(Cleared), Tbl(t)] + b[j + 1..],
                                             CleanupRule(ParagraphIndex(b, j)))
  {
    var b := doc.blocks;
    for i := 0 to |patterns|
      invariant doc.blocks == b
      invariant forall q :: 0 <= q < i ==> !PatternFound(b, patterns)(q)
    {
      var anchored := TryPattern(doc, t, patterns, i);
      if anchored {
        return true;
      }
    }
    PatternNone(b, patterns);
    return false;
  }

  /** One round of the search: pattern `i`, none before it having been
      found, either places the table or leaves the document as it was. */
  method TryPattern(doc: Document, t: Table, patterns: seq<string>, i: nat) returns (anchored: bool)
    requires i < |patterns|
    requires forall q :: 0 <= q < i ==> !PatternFound(doc.blocks, patterns)(q)
    modifies doc
    ensures anchored == PatternFound(old(doc.blocks), patterns)(i)
    ensures !anchored ==> doc.blocks == old(doc.blocks)
    ensures anchored ==>
              var b := old(doc.blocks);
              var j := FirstHit(b, patterns[i]).value;
              && FirstPattern(b, patterns) == Some(i)
              && doc.blocks == MapParagraphs(b[..j] + [Para(Cleared), Tbl(t)] + b[j + 1..],
                                             CleanupRule(ParagraphIndex(b, j)))
  {
    var b := doc.blocks;
    var pattern := patterns[i];
    anchored := AnchorTable(doc, pattern, Some(t), "");
    if anchored {
      var j := FirstHit(b, pattern).value;
      PatternFoundFirst(b, patterns, i);
      CleanupTestingParagraphs(doc, ParagraphIndex(b, j));
    } else {
      NoneNoHit(b, pattern);
      NoHitKeeps(b, pattern, "");
    }
  }

  lemma NoneNoHit(b: seq<Block>, search: string)
    requires FirstHit(b, search).None?
    ensures forall j :: 0 <= j < |b| ==> !Hit(b[j], search)
  {
    forall j | 0 <= j < |b| ensures !Hit(b[j], search) {
      assert !HitAt(b, search)(j);
    }
  }

  lemma PatternFoundFirst(b: seq<Block>, patterns: seq<string>, i: nat)
    requires i < |patterns| && PatternFound(b, patterns)(i)
    requires forall q :: 0 <= q < i ==> !PatternFound(b, patterns)(q)
    ensures FirstPattern(b, patterns) == Some(i) && Anchor("") == Cleared
  {
    var r := FirstPattern(b, patterns);
    assert r.Some? && r.value <= i;
  }

  lemma PatternNone(b: seq<Block>, patterns: seq<string>)
    requires forall q :: 0 <= q < |patterns| ==> !PatternFound(b, patterns)(q)
    ensures FirstPattern(b, patterns).None?
  {
  }

  // ---- what the section promises ----

  /** The table stands right after the cleared paragraph, which the cleanup
      leaves cleared. */
  lemma TablePlaced(b: seq<Block>, j: nat, t: Table, start: nat)
    requires j < |b|
    ensures var r := MapParagraphs(b[..j] + [Para(Cleared), Tbl(t)] + b[j + 1..], CleanupRule(start));
            r[j] == Para(Cleared) && r[j + 1] == Tbl(t)
  {
    var c := b[..j] + [Para(Cleared), Tbl(t)] + b[j + 1..];
    var g := CleanupRule(start);
    MapParagraphsAt(c, g, j);
    MapParagraphsAt(c, g, j + 1);
  }

  /** Paragraph `p` mentions one of `patterns`. */
  predicate MentionsAny(p: Paragraph, patterns: seq<string>) {
    exists i :: 0 <= i < |patterns| && Mentions(p, patterns[i])
  }

  function ClearRule(patterns: seq<string>): (nat, Paragraph) -> Paragraph {
    (k: nat, p: Paragraph) => if MentionsAny(p, patterns) then Cleared else p
  }

  /** Clearing pattern by pattern clears exactly the paragraphs that mention
      any of the patterns: a cleared paragraph mentions none. */
  lemma {:induction false} ClearAllMentions(b: seq<Block>, patterns: seq<string>)
    requires forall i :: 0 <= i < |patterns| ==> patterns[i] != []
    ensures ClearAll(b, patterns) == MapParagraphs(b, ClearRule(patterns))
    decreases |patterns|
  {
    if patterns == [] {
      MapParagraphsKeeps(b, ClearRule(patterns));
    } else {
      var init := patterns[..|patterns| - 1];
      var last := patterns[|patterns| - 1];
      ClearAllMentions(b, init);
      MapParagraphsThen(b, ClearRule(init), Retitle(last, ""));
      forall k: nat, p: Paragraph
        ensures Then(ClearRule(init), Retitle(last, ""))(k, p) == ClearRule(patterns)(k, p)
      {
        assert ParagraphText(Cleared) == "";
        assert !Mentions(Cleared, last);
        if MentionsAny(p, init) {
          var i :| 0 <= i < |init| && Mentions(p, init[i]);
          assert patterns[i] == init[i];
        } else if Mentions(p, last) {
          assert patterns[|patterns| - 1] == last;
        } else {
          forall i | 0 <= i < |patterns| ensures !Mentions(p, patterns[i]) {
            if i < |init| { assert patterns[i] == init[i]; }
          }
        }
      }
      MapParagraphsExt(b, Then(ClearRule(init), Retitle(last, "")), ClearRule(patterns));
    }
  }

  /** Without a table, every body paragraph that mentions a testing pattern
      ends up cleared and every other stays. */
  lemma NoTableClearsMentions(b: seq<Block>)
    ensures ClearAll(b, TestingPatterns) == MapParagraphs(b, ClearRule(TestingPatterns))
  {
    ClearAllMentions(b, TestingPatterns);
  }
}
