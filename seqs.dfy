/** `Array.prototype.filter` and the facts about it that the components rely on. */
module Seqs {

  /** `s.filter(keep)`: the elements that pass, in their original order. */
  function Filter<T(==,!new)>(s: seq<T>, keep: T -> bool): (r: seq<T>)
    ensures |r| <= |s|
  {
    if s == [] then []
    else (if keep(s[0]) then [s[0]] else []) + Filter(s[1..], keep)
  }

  /** An element is in the result exactly when it is in the input and passes. */
  lemma {:induction false} FilterMembers<T(!new)>(s: seq<T>, keep: T -> bool)
    ensures forall x :: x in Filter(s, keep) <==> x in s && keep(x)
  {
    if s != [] {
      FilterMembers(s[1..], keep);
      assert s == [s[0]] + s[1..];
    }
  }

  /** `[x]` when `x` passes the test, `[]` otherwise. */
  function PickBy<T>(x: T, keep: T -> bool): seq<T>
  {
    if keep(x) then [x] else []
  }

  /** Filtering a list with a first element. */
  lemma FilterCons<T(!new)>(x: T, s: seq<T>, keep: T -> bool)
    ensures Filter([x] + s, keep) == PickBy(x, keep) + Filter(s, keep)
  {
    assert ([x] + s)[1..] == s;
  }

  /** `a` is `b` with some elements deleted and the rest in order. */
  predicate IsSubsequence<T(==,!new)>(a: seq<T>, b: seq<T>)
    decreases |b|
  {
    a == [] || (b != [] && ((a[0] == b[0] && IsSubsequence(a[1..], b[1..])) || IsSubsequence(a, b[1..])))
  }

  /** Filtering keeps the input order: the result is a subsequence. */
  lemma {:induction false} FilterIsSubsequence<T(!new)>(s: seq<T>, keep: T -> bool)
    ensures IsSubsequence(Filter(s, keep), s)
  {
    if s != [] {
      FilterIsSubsequence(s[1..], keep);
      if keep(s[0]) {
        assert Filter(s, keep) == [s[0]] + Filter(s[1..], keep);
        assert Filter(s, keep)[1..] == Filter(s[1..], keep);
      } else {
        assert Filter(s, keep) == Filter(s[1..], keep);
      }
    }
  }

  /** Filtering distributes over concatenation. */
  lemma {:induction false} FilterAppend<T(!new)>(a: seq<T>, b: seq<T>, keep: T -> bool)
    ensures Filter(a + b, keep) == Filter(a, keep) + Filter(b, keep)
  {
    if a != [] {
      assert (a + b)[1..] == a[1..] + b;
      FilterAppend(a[1..], b, keep);
    } else {
      assert a + b == b;
    }
  }

  /** Two tests that agree on every element filter alike. */
  lemma {:induction false} FilterExtensional<T(!new)>(s: seq<T>, f: T -> bool, g: T -> bool)
    requires forall x :: f(x) == g(x)
    ensures Filter(s, f) == Filter(s, g)
  {
    if s != [] {
      FilterExtensional(s[1..], f, g);
    }
  }

  /** Filtering by `f` and then by `g` is filtering once by their conjunction. */
  lemma {:induction false} FilterTwice<T(!new)>(s: seq<T>, f: T -> bool, g: T -> bool, both: T -> bool)
    requires forall x :: both(x) == (f(x) && g(x))
    ensures Filter(Filter(s, f), g) == Filter(s, both)
  {
    if s != [] {
      FilterTwice(s[1..], f, g, both);
      var x, rest := s[0], Filter(s[1..], f);
      if f(x) {
        assert Filter(s, f) == [x] + rest;
        assert Filter([x] + rest, g) == (if g(x) then [x] else []) + Filter(rest, g) by {
          assert ([x] + rest)[1..] == rest;
        }
      } else {
        assert Filter(s, f) == rest;
      }
    }
  }

  /** The order of two filter steps does not matter. */
  lemma FilterCommutes<T(!new)>(s: seq<T>, f: T -> bool, g: T -> bool)
    ensures Filter(Filter(s, f), g) == Filter(Filter(s, g), f)
  {
    var both := x => f(x) && g(x);
    FilterTwice(s, f, g, both);
    FilterTwice(s, g, f, both);
  }

  /** When every element passes, filtering returns the input unchanged. */
  lemma {:induction false} FilterKeepsAll<T(!new)>(s: seq<T>, keep: T -> bool)
    requires forall x :: x in s ==> keep(x)
    ensures Filter(s, keep) == s
  {
    if s != [] {
      FilterKeepsAll(s[1..], keep);
    }
  }

  /** A weaker test keeps at least the elements a stronger one keeps, in order. */
  lemma {:induction false} FilterMonotone<T(!new)>(s: seq<T>, f: T -> bool, g: T -> bool)
    requires forall x :: f(x) ==> g(x)
    ensures IsSubsequence(Filter(s, f), Filter(s, g))
  {
    if s != [] {
      FilterMonotone(s[1..], f, g);
      var rf, rg := Filter(s[1..], f), Filter(s[1..], g);
      if f(s[0]) {
        assert Filter(s, f) == [s[0]] + rf && Filter(s, g) == [s[0]] + rg;
        assert Filter(s, f)[1..] == rf && Filter(s, g)[1..] == rg;
      } else if g(s[0]) {
        assert Filter(s, f) == rf && Filter(s, g) == [s[0]] + rg;
        assert Filter(s, g)[1..] == rg;
        SubsequenceOfTail(rf, rg, s[0]);
      } else {
        assert Filter(s, f) == rf && Filter(s, g) == rg;
      }
    }
  }

  /** A subsequence is no longer than the list it is taken from. */
  lemma {:induction false} SubsequenceLength<T(!new)>(a: seq<T>, b: seq<T>)
    requires IsSubsequence(a, b)
    ensures |a| <= |b|
    decreases |b|
  {
    if a != [] {
      if a[0] == b[0] && IsSubsequence(a[1..], b[1..]) {
        SubsequenceLength(a[1..], b[1..]);
      } else {
        SubsequenceLength(a, b[1..]);
      }
    }
  }

  /** Every element of a subsequence is an element of the whole list. */
  lemma {:induction false} SubsequenceMembers<T(!new)>(a: seq<T>, b: seq<T>)
    requires IsSubsequence(a, b)
    ensures forall x | x in a :: x in b
    decreases |b|
  {
    if a != [] {
      if a[0] == b[0] && IsSubsequence(a[1..], b[1..]) {
        SubsequenceMembers(a[1..], b[1..]);
        assert a == [a[0]] + a[1..];
      } else {
        SubsequenceMembers(a, b[1..]);
      }
    }
  }

  /** Filtering a six-element list, element by element. */
  lemma FilterSix<T(!new)>(s: seq<T>, keep: T -> bool)
    requires |s| == 6
    ensures Filter(s, keep)
      == PickBy(s[0], keep) + (PickBy(s[1], keep) + (PickBy(s[2], keep) + (PickBy(s[3], keep) + (PickBy(s[4], keep) + PickBy(s[5], keep)))))
  {
    var s1 := s[1..];
    var s2 := s1[1..];
    var s3 := s2[1..];
    var s4 := s3[1..];
    var s5 := s4[1..];
    assert s5[1..] == [];
    assert Filter(s5, keep) == PickBy(s[5], keep);
    assert Filter(s4, keep) == PickBy(s[4], keep) + Filter(s5, keep);
    assert Filter(s3, keep) == PickBy(s[3], keep) + Filter(s4, keep);
    assert Filter(s2, keep) == PickBy(s[2], keep) + Filter(s3, keep);
    assert Filter(s1, keep) == PickBy(s[1], keep) + Filter(s2, keep);
  }

  /** A subsequence of `b` is also a subsequence of `b` with one element put in front. */
  lemma SubsequenceOfTail<T(!new)>(a: seq<T>, b: seq<T>, x: T)
    requires IsSubsequence(a, b)
    ensures IsSubsequence(a, [x] + b)
  {
    assert ([x] + b)[1..] == b;
  }

  /** No element occurs twice. */
  predicate NoDuplicates<T(==,!new)>(s: seq<T>)
  {
    forall i, j | 0 <= i < j < |s| :: s[i] != s[j]
  }

  /** Filtering never introduces a repetition. */
  lemma {:induction false} FilterNoDuplicates<T(!new)>(s: seq<T>, keep: T -> bool)
    requires NoDuplicates(s)
    ensures NoDuplicates(Filter(s, keep))
  {
    if s != [] {
      FilterNoDuplicates(s[1..], keep);
      FilterMembers(s[1..], keep);
      var rest := Filter(s[1..], keep);
      if keep(s[0]) {
        assert s[0] !in s[1..];
        assert s[0] !in rest;
        var r := [s[0]] + rest;
        forall i, j | 0 <= i < j < |r| ensures r[i] != r[j] {
          if i == 0 {
            assert r[j] == rest[j - 1];
          }
        }
      }
    }
  }
}
