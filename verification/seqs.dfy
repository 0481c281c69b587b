/** Order-preserving filtering of sequences, the one list operation the
    dashboard uses to delete alerts (`Array.prototype.filter`). */
module Seqs {

  /** The elements of `s` that satisfy `keep`, in their original order. */
  function Filter<T(!new)>(keep: T -> bool, s: seq<T>): (r: seq<T>)
    ensures |r| <= |s|
    ensures forall i :: 0 <= i < |r| ==> keep(r[i])
  {
    if s == [] then []
    else
      assert s == [s[0]] + s[1..];
      (if keep(s[0]) then [s[0]] else []) + Filter(keep, s[1..])
  }

  /** The filter keeps every copy of each element that passes the test and
      no copy of any other. */
  lemma {:induction false} FilterCount<T(!new)>(keep: T -> bool, s: seq<T>)
    ensures forall x :: multiset(Filter(keep, s))[x] == if keep(x) then multiset(s)[x] else 0
  {
    if s != [] {
      FilterCount(keep, s[1..]);
      assert s == [s[0]] + s[1..];
    }
  }

  /** Filtering distributes over concatenation: whatever is kept from a
      prefix comes, in order, before whatever is kept from the rest. */
  lemma {:induction false} FilterConcat<T(!new)>(keep: T -> bool, a: seq<T>, b: seq<T>)
    ensures Filter(keep, a + b) == Filter(keep, a) + Filter(keep, b)
  {
    if a == [] {
      assert a + b == b;
    } else {
      assert (a + b)[1..] == a[1..] + b;
      FilterConcat(keep, a[1..], b);
    }
  }

  /** A one-element list keeps its element or loses it. */
  lemma FilterSingleton<T(!new)>(keep: T -> bool, x: T)
    ensures Filter(keep, [x]) == if keep(x) then [x] else []
  {
    assert [x][1..] == [];
  }

  /** A filter changes nothing exactly when every element is kept. */
  lemma {:induction false} FilterKeepsAll<T(!new)>(keep: T -> bool, s: seq<T>)
    ensures Filter(keep, s) == s <==> forall x <- s :: keep(x)
  {
    if s != [] {
      FilterKeepsAll(keep, s[1..]);
      if !keep(s[0]) {
        assert |Filter(keep, s)| <= |s[1..]| < |s|;
      }
    }
  }

  /** Two tests that agree on every element of `s` filter it the same way. */
  lemma {:induction false} FilterCongruent<T(!new)>(f: T -> bool, g: T -> bool, s: seq<T>)
    requires forall x <- s :: f(x) == g(x)
    ensures Filter(f, s) == Filter(g, s)
  {
    if s != [] {
      FilterCongruent(f, g, s[1..]);
    }
  }

  /** Filtering twice is filtering once by the conjunction of both tests. */
  lemma {:induction false} FilterFilter<T(!new)>(f: T -> bool, g: T -> bool, both: T -> bool, s: seq<T>)
    requires forall x <- s :: both(x) == (f(x) && g(x))
    ensures Filter(f, Filter(g, s)) == Filter(both, s)
  {
    if s != [] {
      FilterFilter(f, g, both, s[1..]);
      var head := if g(s[0]) then [s[0]] else [];
      assert Filter(g, s) == head + Filter(g, s[1..]);
      FilterConcat(f, head, Filter(g, s[1..]));
      if g(s[0]) {
        assert head[1..] == [];
      }
    }
  }
}
