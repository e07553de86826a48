/** The two regular expressions `generate_with_proper_tables` searches with,
    written out as searches over a string:
      `RHR\d+[^\n]*\(Nama File\)` and
      `RHR\d+\s*\(DAPI ID\)\s*Functional Specification Design \(FSD\)`.
    `re.search` returns the match that starts leftmost; from that start the
    greedy operators make it as long as the pattern allows. */
module TitleRegex {
  import opened Wrappers
  import opened Text
  import opened TitleExtract

  const NameFile := "(Nama File)"
  const DapiId := "(DAPI ID)"
  const FsdTitle := "Functional Specification Design (FSD)"

  /** The end of the digits from `k`: what `\d+` takes. */
  function DigitsEnd(s: string, k: nat): (r: nat)
    requires k <= |s|
    ensures k <= r <= |s|
    decreases |s| - k
  {
    if k < |s| && IsDigit(s[k]) then DigitsEnd(s, k + 1) else k
  }

  /** The end of the white space from `k`: what `\s*` takes. */
  function SpacesEnd(s: string, k: nat): (r: nat)
    requires k <= |s|
    ensures k <= r <= |s|
    decreases |s| - k
  {
    if k < |s| && IsSpace(s[k]) then SpacesEnd(s, k + 1) else k
  }

  // ---- RHR\d+[^\n]*\(Nama File\) ----

  /** `s[i..e]` matches the file-name pattern: `RHR`, a digit, anything but
      a line break, and `(Nama File)` at the end. */
  predicate FileMatchAt(s: string, i: nat, e: nat) {
    RhrAt(s, i) && i + 4 + |NameFile| <= e <= |s| && s[e - |NameFile|..e] == NameFile && '\n' !in s[i..e]
  }

  /** The longest match from `i` that ends at or before `e`. */
  function LongestFrom(s: string, i: nat, e: nat): (r: Option<nat>)
    ensures r.Some? ==> r.value <= e && FileMatchAt(s, i, r.value)
                        && forall e' :: r.value < e' <= e ==> !FileMatchAt(s, i, e')
    ensures r.None? ==> forall e': nat :: e' <= e ==> !FileMatchAt(s, i, e')
  {
    if FileMatchAt(s, i, e) then Some(e)
    else if e == 0 then None
    else LongestFrom(s, i, e - 1)
  }

  /** `file_pattern.search(s)` from position `i` on, as the start and the
      end of the match. */
  function FileSearch(s: string, i: nat): (r: Option<(nat, nat)>)
    ensures r.Some? ==> var (a, e) := r.value;
                        i <= a && FileMatchAt(s, a, e)
                        && (forall e' :: e < e' ==> !FileMatchAt(s, a, e'))
                        && (forall a', e' :: i <= a' < a ==> !FileMatchAt(s, a', e'))
    ensures r.None? ==> forall a', e' :: i <= a' ==> !FileMatchAt(s, a', e')
    decreases |s| - i
  {
    if i >= |s| then None
    else
      match LongestFrom(s, i, |s|)
      case Some(e) => Some((i, e))
      case None => FileSearch(s, i + 1)
  }

  /** `file_pattern.search(s).group()`. */
  function FileMatch(s: string): Option<string> {
    match FileSearch(s, 0)
    case Some((a, e)) => Some(s[a..e])
    case None => None
  }

  /** The matched text is a line-break-free piece of `s` that starts with
      `RHR` and a digit and ends with `(Nama File)`. */
  lemma {:induction false} FileMatchShape(s: string)
    requires FileMatch(s).Some?
    ensures var m := FileMatch(s).value;
            && Contains(s, m) && '\n' !in m && RhrAt(m, 0) && EndsWith(m, NameFile)
  {
    var (a, e) := FileSearch(s, 0).value;
    var m := s[a..e];
    ContainsAt(s, m, a);
    assert m[|m| - |NameFile|..] == s[e - |NameFile|..e];
  }

  // ---- RHR\d+\s*\(DAPI ID\)\s*Functional Specification Design \(FSD\) ----

  /** The end of the document-type match that starts at `i`, if one does,
      with `(DAPI ID)` as `id` and the title as `title`. Each repetition
      takes all it can: a shorter one would leave a digit or a space where
      the pattern wants `(` or `F`. */
  function DocMatchAt(s: string, i: nat, id: string, title: string): (r: Option<nat>)
    ensures r.Some? ==> i < r.value <= |s|
  {
    if !RhrAt(s, i) then None
    else
      var d := DigitsEnd(s, i + 3);
      var w := SpacesEnd(s, d);
      if !StartsWith(s[w..], id) then None
      else
        var w2 := SpacesEnd(s, w + |id|);
        if !StartsWith(s[w2..], title) then None
        else Some(w2 + |title|)
  }

  /** `doc_pattern.search(s)` from position `i` on. */
  function DocSearch(s: string, i: nat, id: string, title: string): (r: Option<(nat, nat)>)
    ensures r.Some? ==> i <= r.value.0 && DocMatchAt(s, r.value.0, id, title) == Some(r.value.1)
    decreases |s| - i
  {
    if i >= |s| then None
    else
      match DocMatchAt(s, i, id, title)
      case Some(e) => Some((i, e))
      case None => DocSearch(s, i + 1, id, title)
  }

  /** The search finds the leftmost match, and finds one whenever there is
      one. */
  lemma {:induction false} DocSearchLeftmost(s: string, i: nat, id: string, title: string)
    ensures match DocSearch(s, i, id, title)
            case Some((a, _)) => forall a' :: i <= a' < a ==> DocMatchAt(s, a', id, title).None?
            case None => forall a' :: i <= a' ==> DocMatchAt(s, a', id, title).None?
    decreases |s| - i
  {
    if i >= |s| {
      forall a' | i <= a' ensures DocMatchAt(s, a', id, title).None? {
        NoDocMatchPastEnd(s, a', id, title);
      }
    } else if DocMatchAt(s, i, id, title).None? {
      DocSearchLeftmost(s, i + 1, id, title);
    }
  }

  /** No match starts at or after the end of `s`. */
  lemma NoDocMatchPastEnd(s: string, a: nat, id: string, title: string)
    requires |s| <= a
    ensures DocMatchAt(s, a, id, title).None?
  {
  }

  /** `doc_pattern.search(s).group()`. */
  function DocMatch(s: string): Option<string> {
    match DocSearch(s, 0, DapiId, FsdTitle)
    case Some((a, e)) => Some(s[a..e])
    case None => None
  }

  /** A match at `a` is a piece of `s` that starts with `RHR` and a digit,
      holds `id` and ends with `title`. */
  lemma {:induction false} DocMatchAtShape(s: string, a: nat, id: string, title: string)
    requires DocMatchAt(s, a, id, title).Some?
    ensures var m := s[a..DocMatchAt(s, a, id, title).value];
            && Contains(s, m) && RhrAt(m, 0) && Contains(m, id) && EndsWith(m, title)
  {
    var e := DocMatchAt(s, a, id, title).value;
    var w := SpacesEnd(s, DigitsEnd(s, a + 3));
    var w2 := SpacesEnd(s, w + |id|);
    assert w + |id| <= w2 && e == w2 + |title|;
    assert s[w..w + |id|] == id;
    assert s[w2..e] == title;
    var m := s[a..e];
    ContainsAt(s, m, a);
    assert m[w - a..w - a + |id|] == id;
    ContainsAt(m, id, w - a);
    assert m[|m| - |title|..] == title;
  }

  /** The matched text is a piece of `s` that starts with `RHR` and a digit,
      holds `id` and ends with `title`. */
  lemma DocSearchShape(s: string, id: string, title: string)
    requires DocSearch(s, 0, id, title).Some?
    ensures var (a, e) := DocSearch(s, 0, id, title).value;
            var m := s[a..e];
            && Contains(s, m) && RhrAt(m, 0) && Contains(m, id) && EndsWith(m, title)
  {
    var (a, e) := DocSearch(s, 0, id, title).value;
    DocMatchAtShape(s, a, id, title);
  }

  /** The document-type match starts with `RHR` and a digit, holds
      `(DAPI ID)` and ends with the title. */
  lemma DocMatchShape(s: string)
    requires DocMatch(s).Some?
    ensures var m := DocMatch(s).value;
            && Contains(s, m) && RhrAt(m, 0) && Contains(m, DapiId) && EndsWith(m, FsdTitle)
  {
    DocSearchShape(s, DapiId, FsdTitle);
  }
}
