/** The last pass of `TitlePageWordGenerator.generate_with_proper_tables`:
    placeholders still left in a body paragraph are removed, or the whole
    paragraph is cleared when it holds little else, and short paragraphs that
    only summarise the test scenarios are cleared. Tables are not visited. */
module FinalCleanup {
  import opened Text
  import opened DocModel

  /** The placeholders the pass removes, in the order it tries them. */
  const Placeholders: seq<string> := [
    "{{detail_processing}}",
    "{{kondisi_pengujian_tabel}}",
    "{{potensi_error}}",
    "Prioritas Tinggi: - User has authorization",
    "Prioritas Menengah: - Process RHR006",
    "Prioritas Rendah: - Employee has IT0015",
    "**KONDISI PENGUJIAN**",
    "**HASIL YANG DIHARAPKAN**",
    "Persyaratan pengujian mencakup skenario berikut:",
    "Detail kondisi pengujian tercantum dalam tabel di bawah ini.",
    "skenario prioritas tinggi (authorization, security)",
    "skenario prioritas menengah (functional testing)",
    "skenario prioritas rendah (performance, edge cases)",
    "[*Masukkan kondisi fungsional yang diperlukan untuk pengujian.*]"]

  const PriorityPhrases: seq<string> := ["prioritas tinggi", "prioritas menengah", "prioritas rendah", "skenario"]

  const AreaWords: seq<string> := ["authorization", "functional", "performance"]

  /** How much longer than a placeholder a paragraph may be and still count
      as nothing but that placeholder. */
  const Slack := 50

  /** A scenario summary: non-blank, under 200 characters once stripped, and
      in lower case naming a priority or a scenario and a test area. */
  predicate Redundant(t: string) {
    Strip(t) != [] && |Strip(t)| < 200 && HasAny(Lower(t), PriorityPhrases) && HasAny(Lower(t), AreaWords)
  }

  /** The placeholder loop from placeholder `i` on: the paragraph as the loop
      leaves it, and whether it decided to clear it. The text is read afresh
      for each placeholder, after the removals before it. */
  function Scrub(p: Paragraph, phs: seq<string>, i: nat): (Paragraph, bool)
    requires i <= |phs|
    decreases |phs| - i
  {
    if i == |phs| then (p, false)
    else
      var t := ParagraphText(p);
      var ph := phs[i];
      if !Contains(t, ph) then Scrub(p, phs, i + 1)
      else if |Strip(t)| <= |ph| + Slack then (p, true)
      else Scrub(WithText(Strip(ReplaceAll(t, ph, ""))), phs, i + 1)
  }

  /** A body paragraph after the pass. */
  function Finished(p: Paragraph): Paragraph {
    var (q, clear) := Scrub(p, Placeholders, 0);
    if clear || Redundant(ParagraphText(q)) then Cleared else q
  }

  function FinishRule(): (nat, Paragraph) -> Paragraph {
    (k: nat, p: Paragraph) => Finished(p)
  }

  /** One body paragraph through the pass. */
  method FinishParagraph(p: Paragraph) returns (q: Paragraph)
    ensures q == Finished(p)
  {
    q := p;
    var clear := false;
    var i := 0;
    while i < |Placeholders|
      invariant i <= |Placeholders|
      invariant Scrub(p, Placeholders, 0) == Scrub(q, Placeholders, i)
      decreases |Placeholders| - i
    {
      var t := ParagraphText(q);
      var ph := Placeholders[i];
      if Contains(t, ph) {
        if |Strip(t)| <= |ph| + Slack {
          clear := true;
          break;
        }
        q := WithText(Strip(ReplaceAll(t, ph, "")));
      }
      i := i + 1;
    }
    if !clear && Strip(ParagraphText(q)) != [] {
      var lower := Lower(ParagraphText(q));
      if |Strip(ParagraphText(q))| < 200 && HasAny(lower, PriorityPhrases) && HasAny(lower, AreaWords) {
        clear := true;
      }
    }
    if clear {
      q := Cleared;
    }
  }

  /** The pass over `doc.paragraphs`. */
  method FinishDocument(doc: Document)
    modifies doc
    ensures doc.blocks == MapParagraphs(old(doc.blocks), FinishRule())
  {
    var b := doc.blocks;
    var g := FinishRule();
    for j := 0 to |b|
      invariant doc.blocks == MapParagraphs(b[..j], g) + b[j..]
    {
      MapParagraphsStep(b, g, j);
      if b[j].Para? {
        var q := FinishParagraph(b[j].paragraph);
        doc.SetParagraph(j, q);
      } else {
        assert doc.blocks[j := b[j]] == doc.blocks;
      }
    }
    assert b[..|b|] == b;
  }

  // ---- what the pass promises ----

  /** Placeholders `i` to `j` that the text does not hold are skipped. */
  lemma {:induction false} ScrubSkips(p: Paragraph, phs: seq<string>, i: nat, j: nat)
    requires i <= j <= |phs|
    requires forall q :: i <= q < j ==> !Contains(ParagraphText(p), phs[q])
    ensures Scrub(p, phs, i) == Scrub(p, phs, j)
    decreases j - i
  {
    if i < j {
      ScrubSkips(p, phs, i + 1, j);
    }
  }

  /** A paragraph whose first placeholder leaves at most 50 other characters
      once stripped is cleared. */
  lemma {:induction false} ShortPlaceholderCleared(p: Paragraph, i: nat)
    requires i < |Placeholders| && Contains(ParagraphText(p), Placeholders[i])
    requires forall q :: 0 <= q < i ==> !Contains(ParagraphText(p), Placeholders[q])
    requires |Strip(ParagraphText(p))| <= |Placeholders[i]| + Slack
    ensures Finished(p) == Cleared
  {
    ScrubSkips(p, Placeholders, 0, i);
  }

  /** A longer paragraph keeps its text with the placeholder removed and the
      ends stripped, as long as what is left holds no later placeholder and
      is no scenario summary. */
  lemma {:induction false} LongPlaceholderRemoved(p: Paragraph, i: nat)
    requires i < |Placeholders| && Contains(ParagraphText(p), Placeholders[i])
    requires forall q :: 0 <= q < i ==> !Contains(ParagraphText(p), Placeholders[q])
    requires |Strip(ParagraphText(p))| > |Placeholders[i]| + Slack
    requires var s := Strip(ReplaceAll(ParagraphText(p), Placeholders[i], ""));
             && (forall q :: i < q < |Placeholders| ==> !Contains(s, Placeholders[q]))
             && !Redundant(s)
    ensures var s := Strip(ReplaceAll(ParagraphText(p), Placeholders[i], ""));
            Finished(p) == WithText(s) && ParagraphText(Finished(p)) == s
  {
    var s := Strip(ReplaceAll(ParagraphText(p), Placeholders[i], ""));
    ScrubSkips(p, Placeholders, 0, i);
    WithTextText(s);
    ScrubSkips(WithText(s), Placeholders, i + 1, |Placeholders|);
  }

  /** Without placeholders, a scenario summary is cleared and any other
      paragraph is left as it is. */
  lemma {:induction false} NoPlaceholder(p: Paragraph)
    requires forall q :: 0 <= q < |Placeholders| ==> !Contains(ParagraphText(p), Placeholders[q])
    ensures Finished(p) == if Redundant(ParagraphText(p)) then Cleared else p
  {
    ScrubSkips(p, Placeholders, 0, |Placeholders|);
  }

  /** The loop only shortens: what it leaves is the paragraph itself or
      reads shorter. */
  lemma {:induction false} ScrubShortens(p: Paragraph, phs: seq<string>, i: nat)
    requires i <= |phs|
    requires forall q :: 0 <= q < |phs| ==> phs[q] != []
    ensures Scrub(p, phs, i).0 == p || |ParagraphText(Scrub(p, phs, i).0)| < |ParagraphText(p)|
    decreases |phs| - i
  {
    if i < |phs| {
      var t := ParagraphText(p);
      var ph := phs[i];
      if !Contains(t, ph) {
        ScrubShortens(p, phs, i + 1);
      } else if |Strip(t)| > |ph| + Slack {
        var s := Strip(ReplaceAll(t, ph, ""));
        ReplaceByEmptyShrinks(t, ph);
        WithTextText(s);
        ScrubShortens(WithText(s), phs, i + 1);
      }
    }
  }

  /** The pass never lengthens a paragraph: it is left alone, cleared, or
      reads strictly shorter. */
  lemma {:induction false} FinishedShortens(p: Paragraph)
    ensures var r := Finished(p);
            r == p || r == Cleared || |ParagraphText(r)| < |ParagraphText(p)|
  {
    ScrubShortens(p, Placeholders, 0);
  }

  /** In `doc.paragraphs` each paragraph is finished in place; every table
      keeps its place and its content. */
  lemma {:induction false} FinishEffect(b: seq<Block>)
    ensures var ps := BodyParagraphs(b);
            var qs := BodyParagraphs(MapParagraphs(b, FinishRule()));
            |qs| == |ps| && forall k :: 0 <= k < |ps| ==> qs[k] == Finished(ps[k])
    ensures forall j :: 0 <= j < |b| && b[j].Tbl? ==> MapParagraphs(b, FinishRule())[j] == b[j]
  {
    BodyParagraphsMap(b, FinishRule());
    forall j | 0 <= j < |b| && b[j].Tbl? ensures MapParagraphs(b, FinishRule())[j] == b[j] {
      MapParagraphsAt(b, FinishRule(), j);
    }
  }
}
