/** Element-wise mapping over sequences, and the first position where a
    test holds. */
module Seqs {
  import opened Wrappers

  /** `[f(x) for x in xs]`. */
  function Map<A, B>(f: A -> B, xs: seq<A>): (r: seq<B>)
    ensures |r| == |xs|
    ensures forall i :: 0 <= i < |xs| ==> r[i] == f(xs[i])
  {
    seq(|xs|, i requires 0 <= i < |xs| => f(xs[i]))
  }

  /** `[f(i, x) for i, x in enumerate(xs, 1)]`. */
  function Enumerate<A, B>(f: (nat, A) -> B, xs: seq<A>): (r: seq<B>)
    ensures |r| == |xs|
    ensures forall i :: 0 <= i < |xs| ==> r[i] == f(i + 1, xs[i])
  {
    seq(|xs|, i requires 0 <= i < |xs| => f(i + 1, xs[i]))
  }

  /** Mapping a sequence extended by one element extends the image by one. */
  lemma MapSnoc<A, B>(f: A -> B, xs: seq<A>, x: A)
    ensures Map(f, xs + [x]) == Map(f, xs) + [f(x)]
  {
    assert Map(f, xs + [x])[|xs|] == f(x);
  }

  /** The least position in `[i, n)` where `ok` holds: where `re.search`
      reports its match, or where a `for` loop with `break` stops. */
  function Leftmost(ok: nat -> bool, i: nat, n: nat): (r: Option<nat>)
    ensures r.Some? ==> i <= r.value < n && ok(r.value) && forall j :: i <= j < r.value ==> !ok(j)
    ensures r.None? ==> forall j :: i <= j < n ==> !ok(j)
    decreases n - i
  {
    if i >= n then None else if ok(i) then Some(i) else Leftmost(ok, i + 1, n)
  }

  /** A position where `ok` holds, with none before it, is the leftmost. */
  lemma {:induction false} LeftmostIs(ok: nat -> bool, i: nat, n: nat, j: nat)
    requires i <= j < n && ok(j)
    requires forall k :: i <= k < j ==> !ok(k)
    ensures Leftmost(ok, i, n) == Some(j)
    decreases j - i
  {
    if i < j {
      LeftmostIs(ok, i + 1, n, j);
    }
  }

  /** A search over `[0, n)` that found nothing, extended by a position
      where the test fails, still finds nothing. */
  lemma {:induction false} LeftmostExtend(ok: nat -> bool, i: nat, n: nat)
    requires Leftmost(ok, i, n) == None && !ok(n)
    ensures Leftmost(ok, i, n + 1) == None
    decreases n - i
  {
    if i < n {
      LeftmostExtend(ok, i + 1, n);
    }
  }

  /** `[x for x in xs if p(x)]`: the elements that pass, in their order. */
  function Filter<T>(p: T -> bool, xs: seq<T>): (r: seq<T>)
    ensures |r| <= |xs|
    ensures forall y :: y in r ==> y in xs && p(y)
    ensures forall x :: x in xs && p(x) ==> x in r
  {
    if xs == [] then [] else (if p(xs[0]) then [xs[0]] else []) + Filter(p, xs[1..])
  }

  /** The first element for which `f` gives a value, replaced by that value;
      nothing when `f` gives a value for no element: a `for` loop that
      changes the first element it accepts and then breaks. */
  function ReplaceFirst<T>(xs: seq<T>, f: T -> Option<T>): (r: Option<seq<T>>)
    ensures r.Some? ==> |r.value| == |xs|
  {
    if xs == [] then None
    else match f(xs[0])
      case Some(y) => Some([y] + xs[1..])
      case None =>
        match ReplaceFirst(xs[1..], f)
        case Some(ys) => Some([xs[0]] + ys)
        case None => None
  }

  /** The element replaced is the first one `f` accepts, and only it changes. */
  lemma {:induction false} ReplaceFirstAt<T>(xs: seq<T>, f: T -> Option<T>, i: nat)
    requires i < |xs| && f(xs[i]).Some?
    requires forall j :: 0 <= j < i ==> f(xs[j]).None?
    ensures ReplaceFirst(xs, f) == Some(xs[i := f(xs[i]).value])
    decreases i
  {
    if i > 0 {
      ReplaceFirstAt(xs[1..], f, i - 1);
      assert [xs[0]] + xs[1..][i - 1 := f(xs[i]).value] == xs[i := f(xs[i]).value];
    } else {
      assert [f(xs[0]).value] + xs[1..] == xs[0 := f(xs[0]).value];
    }
  }

  /** Nothing is replaced exactly when `f` accepts no element. */
  lemma {:induction false} ReplaceFirstNone<T>(xs: seq<T>, f: T -> Option<T>)
    ensures ReplaceFirst(xs, f).None? <==> forall j :: 0 <= j < |xs| ==> f(xs[j]).None?
    decreases |xs|
  {
    if xs != [] {
      ReplaceFirstNone(xs[1..], f);
      if f(xs[0]).None? {
        assert forall j :: 1 <= j < |xs| ==> xs[j] == xs[1..][j - 1];
      }
    }
  }

  /** When something is replaced it is the first element `f` accepts. */
  lemma {:induction false} ReplaceFirstSome<T>(xs: seq<T>, f: T -> Option<T>)
    requires ReplaceFirst(xs, f).Some?
    ensures exists i :: 0 <= i < |xs| && f(xs[i]).Some?
              && (forall j :: 0 <= j < i ==> f(xs[j]).None?)
              && ReplaceFirst(xs, f).value == xs[i := f(xs[i]).value]
    decreases |xs|
  {
    if f(xs[0]).Some? {
      ReplaceFirstAt(xs, f, 0);
    } else {
      ReplaceFirstSome(xs[1..], f);
      var i :| 0 <= i < |xs| - 1 && f(xs[1..][i]).Some?
                && (forall j :: 0 <= j < i ==> f(xs[1..][j]).None?);
      assert forall j :: 1 <= j <= i ==> xs[j] == xs[1..][j - 1];
      ReplaceFirstAt(xs, f, i + 1);
    }
  }
}
