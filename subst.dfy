/** The replacements `generate_with_proper_tables` applies to every
    paragraph it visits: each (placeholder, value) pair in the order of the
    `replacements` dictionary, on the paragraph as the earlier pairs left it,
    through `replace_text_preserve_formatting` whenever the placeholder
    occurs. */
module Substitution {
  import opened Text
  import opened DocModel
  import opened ParagraphEdit

  /** A placeholder and the value that replaces it. */
  datatype Pair = Pair(target: string, value: string)

  /** `if old in paragraph.text: replace_text_preserve_formatting(...)`. */
  function Edit(p: Paragraph, target: string, value: string): Paragraph {
    if Contains(ParagraphText(p), target) then Replaced(p, target, value) else p
  }

  /** The paragraph after the pairs, in order. */
  function Substituted(p: Paragraph, pairs: seq<Pair>): Paragraph {
    if pairs == [] then p
    else
      var last := pairs[|pairs| - 1];
      Edit(Substituted(p, pairs[..|pairs| - 1]), last.target, last.value)
  }

  /** Successive `str.replace` calls, one per pair. */
  function ReplacedInOrder(t: string, pairs: seq<Pair>): string {
    if pairs == [] then t
    else
      var last := pairs[|pairs| - 1];
      ReplaceAll(ReplacedInOrder(t, pairs[..|pairs| - 1]), last.target, last.value)
  }

  function SubstituteRule(pairs: seq<Pair>): (nat, Paragraph) -> Paragraph {
    (k: nat, p: Paragraph) => Substituted(p, pairs)
  }

  /** All pairs on one paragraph. */
  method SubstituteParagraph(p: Paragraph, pairs: seq<Pair>) returns (q: Paragraph)
    ensures q == Substituted(p, pairs)
  {
    q := p;
    for i := 0 to |pairs|
      invariant q == Substituted(p, pairs[..i])
    {
      assert pairs[..i + 1][..i] == pairs[..i];
      if Contains(ParagraphText(q), pairs[i].target) {
        var _, r := ReplaceTextPreserveFormatting(q, pairs[i].target, pairs[i].value);
        q := r;
      }
    }
    assert pairs[..|pairs|] == pairs;
  }

  /** All pairs on every body paragraph. */
  method SubstituteBody(doc: Document, pairs: seq<Pair>)
    modifies doc
    ensures doc.blocks == MapParagraphs(old(doc.blocks), SubstituteRule(pairs))
  {
    var b := doc.blocks;
    var g := SubstituteRule(pairs);
    for j := 0 to |b|
      invariant doc.blocks == MapParagraphs(b[..j], g) + b[j..]
    {
      MapParagraphsStep(b, g, j);
      if b[j].Para? {
        var q := SubstituteParagraph(b[j].paragraph, pairs);
        doc.SetParagraph(j, q);
      } else {
        assert doc.blocks[j := b[j]] == doc.blocks;
      }
    }
    assert b[..|b|] == b;
  }

  /** The paragraph reads as its old text after the successive
      `str.replace` calls. */
  lemma {:induction false} SubstitutedText(p: Paragraph, pairs: seq<Pair>)
    ensures ParagraphText(Substituted(p, pairs)) == ReplacedInOrder(ParagraphText(p), pairs)
    decreases |pairs|
  {
    if pairs != [] {
      var init := pairs[..|pairs| - 1];
      var last := pairs[|pairs| - 1];
      SubstitutedText(p, init);
      var q := Substituted(p, init);
      if Contains(ParagraphText(q), last.target) {
        ReplacedText(q, last.target, last.value);
      } else {
        ReplaceAbsent(ParagraphText(q), last.target, last.value);
      }
    }
  }

  /** A paragraph that holds none of the placeholders keeps its runs. */
  lemma {:induction false} SubstitutedUntouched(p: Paragraph, pairs: seq<Pair>)
    requires forall i :: 0 <= i < |pairs| ==> !Contains(ParagraphText(p), pairs[i].target)
    ensures Substituted(p, pairs) == p
    decreases |pairs|
  {
    if pairs != [] {
      var init := pairs[..|pairs| - 1];
      assert forall i :: 0 <= i < |init| ==> init[i] == pairs[i];
      SubstitutedUntouched(p, init);
    }
  }
}
