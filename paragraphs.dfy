/** `TitlePageWordGenerator.replace_text_preserve_formatting`: the text of a
    paragraph with every occurrence of a phrase replaced, laid out again in
    runs that carry the first run's formatting, one run per line with a line
    break between lines. */
module ParagraphEdit {
  import opened Wrappers
  import opened Text
  import opened DocModel

  /** The formatting copied from the first run: a property is copied only
      when it is set (an empty font name and a zero size count as unset). */
  function CopiedFormat(f: Format): Format {
    Format(if f.font == Some("") then None else f.font,
           if f.size == Some(0) then None else f.size,
           f.bold, f.italic, f.color)
  }

  /** One run per line in format `f`, a break run between two lines. */
  function LaidOut(lines: seq<string>, f: Format): seq<Run> {
    if lines == [] then []
    else if |lines| == 1 then [TextRun(lines[0], f)]
    else LaidOut(lines[..|lines| - 1], f) + [BreakRun, TextRun(lines[|lines| - 1], f)]
  }

  /** The paragraph after the phrase `target` was replaced by `replacement`
      in its text: a paragraph without runs gets the new text as its text;
      otherwise the new text is laid out line by line in the first run's
      formatting. */
  function Replaced(p: Paragraph, target: string, replacement: string): Paragraph {
    var t := ReplaceAll(ParagraphText(p), target, replacement);
    if p.runs == [] then WithText(t)
    else Paragraph(LaidOut(Split(t, '\n'), CopiedFormat(RunFormat(p.runs[0]))))
  }

  /** Replaces `target` in the paragraph; reports whether it occurred, and
      leaves the paragraph alone when it does not. */
  method ReplaceTextPreserveFormatting(p: Paragraph, target: string, replacement: string)
    returns (replaced: bool, q: Paragraph)
    ensures replaced <==> Contains(ParagraphText(p), target)
    ensures q == if replaced then Replaced(p, target, replacement) else p
  {
    var full := ParagraphText(p);
    if !Contains(full, target) {
      return false, p;
    }
    var t := ReplaceAll(full, target, replacement);
    if p.runs == [] {
      return true, WithText(t);
    }
    var f := CopiedFormat(RunFormat(p.runs[0]));
    if '\n' in t {
      var lines := Split(t, '\n');
      var runs: seq<Run> := [];
      for i := 0 to |lines|
        invariant runs == LaidOut(lines[..i], f)
      {
        assert lines[..i + 1][..i] == lines[..i];
        if i > 0 {
          runs := runs + [BreakRun];
        }
        runs := runs + [TextRun(lines[i], f)];
      }
      assert lines[..|lines|] == lines;
      q := Paragraph(runs);
    } else {
      SplitNoSep(t, '\n');
      q := Paragraph([TextRun(t, f)]);
    }
    replaced := true;
  }

  /** The laid-out runs read back as the lines joined by line breaks. */
  lemma {:induction false} LaidOutText(lines: seq<string>, f: Format)
    ensures RunsText(LaidOut(lines, f)) == Join(lines, "\n")
    decreases |lines|
  {
    if |lines| == 1 {
      RunsTextAppend([], TextRun(lines[0], f));
      assert [] + [TextRun(lines[0], f)] == LaidOut(lines, f);
    } else if |lines| > 1 {
      var init := lines[..|lines| - 1];
      var last := lines[|lines| - 1];
      var r := LaidOut(init, f);
      var r1 := r + [BreakRun];
      assert LaidOut(lines, f) == r1 + [TextRun(last, f)];
      LaidOutText(init, f);
      RunsTextAppend(r, BreakRun);
      RunsTextAppend(r1, TextRun(last, f));
      assert RunsText(LaidOut(lines, f)) == Join(init, "\n") + "\n" + last;
      JoinAppend(init, last, "\n");
      assert init + [last] == lines;
    }
  }

  /** After the replacement the paragraph reads as its old text with every
      occurrence of the phrase replaced. */
  lemma ReplacedText(p: Paragraph, target: string, replacement: string)
    ensures ParagraphText(Replaced(p, target, replacement))
         == ReplaceAll(ParagraphText(p), target, replacement)
  {
    var t := ReplaceAll(ParagraphText(p), target, replacement);
    if p.runs == [] {
      WithTextText(t);
    } else {
      LaidOutText(Split(t, '\n'), CopiedFormat(RunFormat(p.runs[0])));
      JoinSplit(t, '\n');
      assert "\n" == ['\n'];
    }
  }

  /** Line `k` is run `2k`, in format `f`, and each pair of lines is
      separated by one break run. */
  lemma {:induction false} LaidOutShape(lines: seq<string>, f: Format)
    requires lines != []
    ensures |LaidOut(lines, f)| == 2 * |lines| - 1
    ensures forall k :: 0 <= k < |lines| ==> LaidOut(lines, f)[2 * k] == TextRun(lines[k], f)
    ensures forall k :: 0 <= k < |lines| - 1 ==> LaidOut(lines, f)[2 * k + 1] == BreakRun
    decreases |lines|
  {
    if |lines| > 1 {
      var init := lines[..|lines| - 1];
      LaidOutShape(init, f);
      var r := LaidOut(lines, f);
      assert r == LaidOut(init, f) + [BreakRun, TextRun(lines[|lines| - 1], f)];
      forall k | 0 <= k < |lines| ensures r[2 * k] == TextRun(lines[k], f) {
        if k < |lines| - 1 {
          assert r[2 * k] == LaidOut(init, f)[2 * k];
        }
      }
      forall k | 0 <= k < |lines| - 1 ensures r[2 * k + 1] == BreakRun {
        if k < |lines| - 2 {
          assert r[2 * k + 1] == LaidOut(init, f)[2 * k + 1];
        }
      }
    }
  }

  /** A paragraph that had runs ends up with one run per line of its new
      text, all in the first run's formatting, separated by break runs, so
      that a multi-line value stays in the same paragraph. */
  lemma ReplacedLayout(p: Paragraph, target: string, replacement: string)
    requires p.runs != []
    ensures var lines := Split(ReplaceAll(ParagraphText(p), target, replacement), '\n');
            var f := CopiedFormat(RunFormat(p.runs[0]));
            var runs := Replaced(p, target, replacement).runs;
            && |runs| == 2 * |lines| - 1
            && (forall k :: 0 <= k < |lines| ==> runs[2 * k] == TextRun(lines[k], f))
            && (forall k :: 0 <= k < |lines| - 1 ==> runs[2 * k + 1] == BreakRun)
  {
    var lines := Split(ReplaceAll(ParagraphText(p), target, replacement), '\n');
    LaidOutShape(lines, CopiedFormat(RunFormat(p.runs[0])));
  }
}
