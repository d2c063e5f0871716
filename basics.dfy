/** Small shared definitions: an optional value and facts about splitting sequences. */
module Basics {

  /** A value that may be absent; used wherever the original raises instead of returning. */
  datatype Option<+T> = None | Some(value: T)

  /** No two positions of `s` hold the same element. */
  ghost predicate Distinct<T>(s: seq<T>)
  {
    forall i, j :: 0 <= i < j < |s| ==> s[i] != s[j]
  }

  /** Equal sequences that start with the same prefix have equal remainders. */
  lemma CancelPrefix<T>(p: seq<T>, x: seq<T>, y: seq<T>)
    requires p + x == p + y
    ensures x == y
  {
    assert x == (p + x)[|p|..];
    assert y == (p + y)[|p|..];
  }

  /** Equal sequences that end with the same suffix have equal beginnings. */
  lemma CancelSuffix<T>(x: seq<T>, y: seq<T>, q: seq<T>)
    requires x + q == y + q
    ensures x == y
  {
    assert x == (x + q)[..|x|];
    assert y == (y + q)[..|y|];
  }

  /** In `a + [sep] + b`, with `sep` not in `a`, the first `sep` sits right after `a`. */
  lemma SeparatorPosition<T>(a: seq<T>, b: seq<T>, sep: T)
    requires sep !in a
    ensures (a + [sep] + b)[|a|] == sep
    ensures forall k :: 0 <= k < |a| ==> (a + [sep] + b)[k] != sep
  {
  }

  /**
   * Splitting at the first occurrence of a separator is unambiguous: when the
   * part before the separator cannot contain it, both parts are determined.
   */
  lemma {:induction false} SplitAtSeparator<T>(a1: seq<T>, b1: seq<T>, a2: seq<T>, b2: seq<T>, sep: T)
    requires sep !in a1 && sep !in a2
    requires a1 + [sep] + b1 == a2 + [sep] + b2
    ensures a1 == a2 && b1 == b2
  {
    var s := a1 + [sep] + b1;
    SeparatorPosition(a1, b1, sep);
    SeparatorPosition(a2, b2, sep);
    assert |a1| == |a2|;
    assert a1 == s[..|a1|];
    assert a2 == (a2 + [sep] + b2)[..|a2|];
    assert b1 == s[|a1| + 1..];
    assert b2 == (a2 + [sep] + b2)[|a2| + 1..];
  }

  /** Concatenating two duplicate-free sequences with no common element gives a duplicate-free sequence. */
  lemma DistinctAppend<T>(a: seq<T>, b: seq<T>)
    requires Distinct(a) && Distinct(b)
    requires forall i, j :: 0 <= i < |a| && 0 <= j < |b| ==> a[i] != b[j]
    ensures Distinct(a + b)
  {
    forall i, j | 0 <= i < j < |a + b| ensures (a + b)[i] != (a + b)[j] {
      if j < |a| {
        assert (a + b)[i] == a[i] && (a + b)[j] == a[j];
      } else if i >= |a| {
        assert (a + b)[i] == b[i - |a|] && (a + b)[j] == b[j - |a|];
      } else {
        assert (a + b)[i] == a[i] && (a + b)[j] == b[j - |a|];
      }
    }
  }

  /** The results of `f` over `ps`, concatenated in order; None as soon as one application is None. */
  function FlatMap<P, X>(f: P -> Option<seq<X>>, ps: seq<P>): Option<seq<X>>
  {
    if ps == [] then Some([])
    else
      match f(ps[0])
      case None => None
      case Some(xs) =>
        match FlatMap(f, ps[1..])
        case None => None
        case Some(rest) => Some(xs + rest)
  }

  /** A non-empty flat map is the first result followed by the rest. */
  lemma FlatMapCons<P, X>(f: P -> Option<seq<X>>, ps: seq<P>)
    requires ps != []
    ensures FlatMap(f, ps).Some? <==> f(ps[0]).Some? && FlatMap(f, ps[1..]).Some?
    ensures FlatMap(f, ps).Some? ==> FlatMap(f, ps).value == f(ps[0]).value + FlatMap(f, ps[1..]).value
  {
  }

  /** Mapping over a concatenation concatenates the results; both halves succeed when the whole does. */
  lemma {:induction false} FlatMapAppend<P, X>(f: P -> Option<seq<X>>, a: seq<P>, b: seq<P>)
    requires FlatMap(f, a + b).Some?
    ensures FlatMap(f, a).Some? && FlatMap(f, b).Some?
    ensures FlatMap(f, a + b).value == FlatMap(f, a).value + FlatMap(f, b).value
  {
    if a == [] {
      assert a + b == b;
    } else {
      var ab := a + b;
      assert ab[0] == a[0] && ab[1..] == a[1..] + b;
      FlatMapCons(f, ab);
      FlatMapAppend(f, a[1..], b);
      FlatMapCons(f, a);
      var x, y := FlatMap(f, a[1..]).value, FlatMap(f, b).value;
      assert f(a[0]).value + (x + y) == f(a[0]).value + x + y;
    }
  }
}
