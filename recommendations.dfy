/**
 * The "Recommended for You" panel: every catalog product except the one
 * being viewed is scored from its rating, its review count and the tags that
 * match the visitor's preferences. The scores are sorted high to low by
 * JavaScript's stable `Array.prototype.sort`, and the first four are kept.
 */
module Recommendations {
  import opened Optional
  import opened Text
  import opened Seqs
  import opened Catalog
  import Favorites

  /** A product with its relevance score (`{ ...product, score }`). */
  datatype Scored = Scored(product: Product, score: real)

  /** The products left to recommend: every product whose id is not `current`. */
  predicate NotCurrent(p: Product, current: Option<int>)
  {
    current.None? || p.id != current.value
  }

  function NotCurrentTest(current: Option<int>): Product -> bool
  {
    p => NotCurrent(p, current)
  }

  function Candidates(current: Option<int>): seq<Product>
  {
    Filter(AllProducts, NotCurrentTest(current))
  }

  /** `Math.min(reviews / 10, 10)`: a tenth of the reviews, capped at 10. */
  function ReviewTerm(reviews: nat): (t: real)
    ensures 0.0 <= t <= 10.0
    ensures t == 10.0 <==> reviews >= 100
    ensures reviews < 100 ==> t * 10.0 == reviews as real
  {
    var tenth := reviews as real / 10.0;
    if tenth < 10.0 then tenth else 10.0
  }

  /** A tag matches when some preference contains it or is contained in it, ignoring case. */
  predicate MatchesPreference(tag: string, preferences: seq<string>)
  {
    exists pref | pref in preferences :: EitherIncludes(tag, pref)
  }

  function PreferenceTest(preferences: seq<string>): string -> bool
  {
    tag => MatchesPreference(tag, preferences)
  }

  /** The product's tags that match some preference, each tag once, in tag order. */
  function MatchingTags(tags: seq<string>, preferences: seq<string>): seq<string>
  {
    Filter(tags, PreferenceTest(preferences))
  }

  /** The score without the preference bonus. */
  function BaseScore(p: Product): real
  {
    p.rating * 10.0 + ReviewTerm(p.reviews)
  }

  /** The relevance score; the bonus is added only when there are preferences. */
  function Score(p: Product, preferences: seq<string>): real
  {
    if |preferences| > 0 then BaseScore(p) + |MatchingTags(p.tags, preferences)| as real * 5.0
    else BaseScore(p)
  }

  /** The `map` step: each product paired with its score, in the same order. */
  function ScoreAll(ps: seq<Product>, preferences: seq<string>): (r: seq<Scored>)
    ensures |r| == |ps|
    ensures forall i | 0 <= i < |r| :: r[i] == Scored(ps[i], Score(ps[i], preferences))
  {
    seq(|ps|, i requires 0 <= i < |ps| => Scored(ps[i], Score(ps[i], preferences)))
  }

  /**
   * One step of a stable insertion sort, high to low: `x` goes after every
   * element that scores at least as much as it does.
   */
  function Insert(x: Scored, s: seq<Scored>): seq<Scored>
  {
    if s == [] then [x]
    else if s[|s| - 1].score >= x.score then s + [x]
    else Insert(x, s[..|s| - 1]) + [s[|s| - 1]]
  }

  /** `sort((a, b) => b.score - a.score)`: stable, highest score first. */
  function SortDesc(xs: seq<Scored>): seq<Scored>
  {
    if xs == [] then [] else Insert(xs[|xs| - 1], SortDesc(xs[..|xs| - 1]))
  }

  /** `slice(0, 4)`. */
  function Top(xs: seq<Scored>, n: nat): (r: seq<Scored>)
    ensures |r| == if |xs| < n then |xs| else n
    ensures r == xs[..|r|]
  {
    if |xs| < n then xs else xs[..n]
  }

  /** What the panel shows for the viewed product and the preferences. */
  function Ranked(current: Option<int>, preferences: seq<string>): seq<Scored>
  {
    Top(SortDesc(ScoreAll(Candidates(current), preferences)), 4)
  }

  predicate SortedDesc(s: seq<Scored>)
  {
    forall i, j | 0 <= i < j < |s| :: s[i].score >= s[j].score
  }

  predicate HasScore(x: Scored, v: real)
  {
    x.score == v
  }

  function HasScoreTest(v: real): Scored -> bool
  {
    x => HasScore(x, v)
  }

  /** No product appears at two positions of the list. */
  predicate DistinctProducts(s: seq<Scored>)
  {
    forall i, j | 0 <= i < j < |s| :: s[i].product.id != s[j].product.id
  }

  // ----- the sort -----

  lemma {:induction false} InsertPermutes(x: Scored, s: seq<Scored>)
    ensures multiset(Insert(x, s)) == multiset(s) + multiset{x}
    decreases |s|
  {
    if s != [] && s[|s| - 1].score < x.score {
      var init := s[..|s| - 1];
      InsertPermutes(x, init);
      assert s == init + [s[|s| - 1]];
    }
  }

  /** The sort reorders its input and neither adds nor drops an element. */
  lemma {:induction false} SortDescPermutes(xs: seq<Scored>)
    ensures multiset(SortDesc(xs)) == multiset(xs)
    decreases |xs|
  {
    if xs != [] {
      var init := xs[..|xs| - 1];
      SortDescPermutes(init);
      InsertPermutes(xs[|xs| - 1], SortDesc(init));
      assert xs == init + [xs[|xs| - 1]];
    }
  }

  lemma {:induction false} InsertSorted(x: Scored, s: seq<Scored>)
    requires SortedDesc(s)
    ensures SortedDesc(Insert(x, s))
    decreases |s|
  {
    if s != [] && s[|s| - 1].score < x.score {
      var init := s[..|s| - 1];
      var last := s[|s| - 1];
      InsertSorted(x, init);
      var r := Insert(x, init);
      InsertPermutes(x, init);
      assert forall y | y in r :: y.score >= last.score by {
        forall y | y in r ensures y.score >= last.score {
          assert y in multiset(r);
          if y != x {
            assert y in multiset(init);
            var k :| 0 <= k < |init| && init[k] == y;
            assert s[k] == y;
          }
        }
      }
      var t := r + [last];
      forall i, j | 0 <= i < j < |t| ensures t[i].score >= t[j].score {
        if j == |t| - 1 {
          assert t[i] in r;
        }
      }
    }
  }

  /** The sort's output scores never increase along the list. */
  lemma {:induction false} SortDescSorted(xs: seq<Scored>)
    ensures SortedDesc(SortDesc(xs))
    decreases |xs|
  {
    if xs != [] {
      SortDescSorted(xs[..|xs| - 1]);
      InsertSorted(xs[|xs| - 1], SortDesc(xs[..|xs| - 1]));
    }
  }

  lemma FilterSingle(x: Scored, keep: Scored -> bool)
    ensures Filter([x], keep) == PickBy(x, keep)
  {
    FilterCons(x, [], keep);
    assert [x] + [] == [x];
  }

  lemma {:induction false} InsertStable(x: Scored, s: seq<Scored>, v: real)
    ensures Filter(Insert(x, s), HasScoreTest(v)) == Filter(s, HasScoreTest(v)) + PickBy(x, HasScoreTest(v))
    decreases |s|
  {
    var keep := HasScoreTest(v);
    FilterSingle(x, keep);
    if s == [] {
    } else if s[|s| - 1].score >= x.score {
      FilterAppend(s, [x], keep);
    } else {
      var init, last := s[..|s| - 1], s[|s| - 1];
      InsertStable(x, init, v);
      FilterSingle(last, keep);
      FilterAppend(Insert(x, init), [last], keep);
      assert s == init + [last];
      FilterAppend(init, [last], keep);
      assert PickBy(x, keep) == [] || PickBy(last, keep) == [];
    }
  }

  /**
   * The sort is stable: the elements sharing any one score keep their input
   * order.
   */
  lemma {:induction false} SortDescStable(xs: seq<Scored>, v: real)
    ensures Filter(SortDesc(xs), HasScoreTest(v)) == Filter(xs, HasScoreTest(v))
    decreases |xs|
  {
    if xs != [] {
      var init, x := xs[..|xs| - 1], xs[|xs| - 1];
      SortDescStable(init, v);
      InsertStable(x, SortDesc(init), v);
      assert xs == init + [x];
      FilterAppend(init, [x], HasScoreTest(v));
      FilterSingle(x, HasScoreTest(v));
    }
  }

  lemma {:induction false} InsertDistinct(x: Scored, s: seq<Scored>)
    requires DistinctProducts(s)
    requires forall y | y in s :: y.product.id != x.product.id
    ensures DistinctProducts(Insert(x, s))
    decreases |s|
  {
    if s == [] {
    } else if s[|s| - 1].score >= x.score {
      var t := s + [x];
      forall i, j | 0 <= i < j < |t| ensures t[i].product.id != t[j].product.id {
        if j == |s| {
          assert t[i] in s;
        }
      }
    } else {
      var init, last := s[..|s| - 1], s[|s| - 1];
      forall y | y in init ensures y.product.id != x.product.id {
        assert y in s;
      }
      InsertDistinct(x, init);
      var r := Insert(x, init);
      InsertPermutes(x, init);
      forall y | y in r ensures y.product.id != last.product.id {
        assert y in multiset(r);
        if y != x {
          assert y in multiset(init);
          var k :| 0 <= k < |init| && init[k] == y;
          assert s[k] == y;
        }
      }
      var t := r + [last];
      forall i, j | 0 <= i < j < |t| ensures t[i].product.id != t[j].product.id {
        if j == |t| - 1 {
          assert t[i] in r;
        }
      }
    }
  }

  /** Sorting a list without repeated products repeats none. */
  lemma {:induction false} SortDescDistinct(xs: seq<Scored>)
    requires DistinctProducts(xs)
    ensures DistinctProducts(SortDesc(xs))
    decreases |xs|
  {
    if xs != [] {
      var init, x := xs[..|xs| - 1], xs[|xs| - 1];
      SortDescDistinct(init);
      SortDescPermutes(init);
      forall y | y in SortDesc(init) ensures y.product.id != x.product.id {
        assert y in multiset(SortDesc(init));
        var k :| 0 <= k < |init| && init[k] == y;
        assert xs[k] == y;
      }
      InsertDistinct(x, SortDesc(init));
    }
  }

  // ----- the ranking -----

  /** The sorted candidates that are not shown. */
  function LeftOut(current: Option<int>, preferences: seq<string>): seq<Scored>
  {
    var sorted := SortDesc(ScoreAll(Candidates(current), preferences));
    sorted[|Ranked(current, preferences)|..]
  }

  /**
   * The shown and the left-out products together are exactly the scored
   * candidates, and every left-out product scores at most what every shown
   * one does.
   */
  lemma RankedBeatsLeftOut(current: Option<int>, preferences: seq<string>)
    ensures multiset(Ranked(current, preferences)) + multiset(LeftOut(current, preferences))
      == multiset(ScoreAll(Candidates(current), preferences))
    ensures forall x, y | x in Ranked(current, preferences) && y in LeftOut(current, preferences) :: y.score <= x.score
  {
    var scored := ScoreAll(Candidates(current), preferences);
    var sorted := SortDesc(scored);
    var shown, rest := Ranked(current, preferences), LeftOut(current, preferences);
    SortDescPermutes(scored);
    SortDescSorted(scored);
    assert sorted == shown + rest;
    forall x, y | x in shown && y in rest ensures y.score <= x.score {
      var i :| 0 <= i < |shown| && shown[i] == x;
      var j :| 0 <= j < |rest| && rest[j] == y;
      assert sorted[i] == x && sorted[|shown| + j] == y;
    }
  }

  /** The shown scores never increase along the list. */
  lemma RankedSorted(current: Option<int>, preferences: seq<string>)
    ensures SortedDesc(Ranked(current, preferences))
  {
    SortDescSorted(ScoreAll(Candidates(current), preferences));
  }

  /**
   * Every shown entry is a candidate other than the current product, carrying
   * that product's score.
   */
  lemma RankedFromCandidates(current: Option<int>, preferences: seq<string>)
    ensures forall x | x in Ranked(current, preferences) ::
      x.product in AllProducts && NotCurrent(x.product, current) && x.score == Score(x.product, preferences)
  {
    var cands := Candidates(current);
    var scored := ScoreAll(cands, preferences);
    SortDescPermutes(scored);
    FilterMembers(AllProducts, NotCurrentTest(current));
    forall x | x in Ranked(current, preferences)
      ensures x.product in AllProducts && NotCurrent(x.product, current) && x.score == Score(x.product, preferences)
    {
      assert x in multiset(SortDesc(scored));
      var i :| 0 <= i < |scored| && scored[i] == x;
      assert x.product == cands[i];
    }
  }

  /** The product being viewed is never recommended. */
  lemma CurrentNeverRecommended(id: int, preferences: seq<string>)
    ensures forall x | x in Ranked(Some(id), preferences) :: x.product.id != id
  {
    RankedFromCandidates(Some(id), preferences);
  }

  /** The candidates are the catalog, less the viewed product when it is in the catalog. */
  lemma CandidatesCount(current: Option<int>)
    ensures |Candidates(current)| == if current.Some? && 1 <= current.value <= 6 then 5 else 6
  {
    CatalogIds();
    FilterSix(AllProducts, NotCurrentTest(current));
  }

  /**
   * The panel shows min(4, number of candidates) entries, which is always 4
   * on this catalog, and no product twice.
   */
  lemma RankedLengthAndDistinct(current: Option<int>, preferences: seq<string>)
    ensures |Ranked(current, preferences)| == if |Candidates(current)| < 4 then |Candidates(current)| else 4
    ensures |Ranked(current, preferences)| == 4
    ensures DistinctProducts(Ranked(current, preferences))
  {
    var cands := Candidates(current);
    var scored := ScoreAll(cands, preferences);
    SortDescPermutes(scored);
    assert |SortDesc(scored)| == |multiset(scored)| == |scored|;
    CandidatesCount(current);
    FilterIsSubsequence(AllProducts, NotCurrentTest(current));
    CatalogIds();
    SubsequenceDistinctIds(cands, AllProducts);
    assert DistinctProducts(scored);
    SortDescDistinct(scored);
  }

  // ----- the score -----

  /**
   * A tag is counted when, and only when, it is one of the product's tags
   * and matches a preference; the counted tags keep their order.
   */
  lemma MatchingTagsExactly(tags: seq<string>, preferences: seq<string>)
    ensures forall tag ::
      (tag in MatchingTags(tags, preferences) <==> tag in tags && exists pref | pref in preferences :: EitherIncludes(tag, pref))
    ensures IsSubsequence(MatchingTags(tags, preferences), tags)
  {
    FilterMembers(tags, PreferenceTest(preferences));
    FilterIsSubsequence(tags, PreferenceTest(preferences));
  }

  /**
   * The score is the base score plus 5 per matching tag: at least the base,
   * at most 5 more per tag, and exactly the base without preferences.
   */
  lemma ScoreBounds(p: Product, preferences: seq<string>)
    ensures BaseScore(p) <= Score(p, preferences) <= BaseScore(p) + 5.0 * |p.tags| as real
    ensures |preferences| == 0 ==> Score(p, preferences) == BaseScore(p)
    ensures p.rating * 10.0 <= BaseScore(p) <= p.rating * 10.0 + 10.0
  {
    MatchingTagsExactly(p.tags, preferences);
    SubsequenceLength(MatchingTags(p.tags, preferences), p.tags);
  }

  /** Adding preferences never lowers a score. */
  lemma PreferencesMonotone(p: Product, preferences: seq<string>, more: seq<string>)
    requires |preferences| > 0
    requires forall pref | pref in preferences :: pref in more
    ensures Score(p, preferences) <= Score(p, more)
  {
    assert preferences[0] in more;
    forall tag | MatchesPreference(tag, preferences) ensures MatchesPreference(tag, more) {
      var pref :| pref in preferences && EitherIncludes(tag, pref);
      assert pref in more;
    }
    FilterMonotone(p.tags, PreferenceTest(preferences), PreferenceTest(more));
    SubsequenceLength(MatchingTags(p.tags, preferences), MatchingTags(p.tags, more));
  }

  // ----- the effect, step by step -----

  /**
   * Where `Insert` puts `x`: behind the last element scoring at least as
   * much, ahead of the trailing elements that score less.
   */
  lemma {:induction false} InsertPlaces(x: Scored, sorted: seq<Scored>, j: nat)
    requires j <= |sorted| && (j == 0 || sorted[j - 1].score >= x.score)
    requires forall k | j <= k < |sorted| :: sorted[k].score < x.score
    ensures Insert(x, sorted) == sorted[..j] + [x] + sorted[j..]
    decreases |sorted|
  {
    if j < |sorted| {
      var init := sorted[..|sorted| - 1];
      InsertPlaces(x, init, j);
      assert init[..j] == sorted[..j];
      assert sorted[j..] == init[j..] + [sorted[|sorted| - 1]];
    } else {
      assert sorted[..j] == sorted;
    }
  }

  /** Sorting one more element of the input inserts it into the sorted prefix. */
  lemma SortDescExtend(input: seq<Scored>, i: nat)
    requires i < |input|
    ensures SortDesc(input[..i + 1]) == Insert(input[i], SortDesc(input[..i]))
  {
    assert input[..i + 1][..i] == input[..i];
  }

  /**
   * One pass of the insertion sort: `a[i]` moves left past the elements of
   * `a[..i]` that score strictly less, which shift one place right.
   */
  method InsertInPlace(a: array<Scored>, i: nat)
    requires i < a.Length
    modifies a
    ensures a[..i + 1] == Insert(old(a[i]), old(a[..i]))
    ensures a[i + 1..] == old(a[i + 1..])
  {
    var x := a[i];
    ghost var sorted := a[..i];
    var j := i;
    while j > 0 && a[j - 1].score < x.score
      invariant 0 <= j <= i
      invariant forall k | 0 <= k < j :: a[k] == sorted[k]
      invariant forall k | j < k <= i :: a[k] == sorted[k - 1]
      invariant forall k | j <= k < i :: sorted[k].score < x.score
      invariant forall k | i < k < a.Length :: a[k] == old(a[k])
    {
      a[j] := a[j - 1];
      j := j - 1;
    }
    a[j] := x;
    InsertPlaces(x, sorted, j);
    ghost var placed := sorted[..j] + [x] + sorted[j..];
    assert forall k | 0 <= k <= i :: a[k] == placed[k];
    assert a[..i + 1] == placed;
    assert a[i + 1..] == old(a[i + 1..]);
  }

  /**
   * The in-place `sort` of the scored list: insertion sort, stable and
   * highest score first.
   */
  method SortByScore(a: array<Scored>)
    modifies a
    ensures a[..] == SortDesc(old(a[..]))
  {
    ghost var input := a[..];
    for i := 0 to a.Length
      invariant a[..i] == SortDesc(input[..i])
      invariant a[i..] == input[i..]
    {
      InsertInPlace(a, i);
      SortDescExtend(input, i);
    }
    assert input[..a.Length] == input;
  }

  /** The `map` step, one product at a time: base score, then the bonus. */
  method ScoreEach(products: seq<Product>, preferences: seq<string>) returns (scored: array<Scored>)
    ensures fresh(scored)
    ensures scored[..] == ScoreAll(products, preferences)
  {
    scored := new Scored[|products|];
    for i := 0 to |products|
      invariant forall k | 0 <= k < i :: scored[k] == Scored(products[k], Score(products[k], preferences))
    {
      var p := products[i];
      var score := p.rating * 10.0 + ReviewTerm(p.reviews);
      if |preferences| > 0 {
        score := score + |MatchingTags(p.tags, preferences)| as real * 5.0;
      }
      scored[i] := Scored(p, score);
    }
  }

  /**
   * The recommendation effect: drop the current product, score the rest,
   * sort them and keep the first four.
   */
  method Recommend(current: Option<int>, preferences: seq<string>) returns (r: seq<Scored>)
    ensures r == Ranked(current, preferences)
  {
    var filtered := Candidates(current);
    var scored := ScoreEach(filtered, preferences);
    SortByScore(scored);
    r := if scored.Length < 4 then scored[..] else scored[..4];
  }

  /** The panel's state: what it shows and the ids marked as favourites. */
  class RecommendationPanel {
    const currentProductId: Option<int>
    const userPreferences: seq<string>
    var recommendations: seq<Scored>
    var favorites: set<int>

    /** The panel as first rendered: nothing shown, no favourites. */
    constructor (current: Option<int>, preferences: seq<string>)
      ensures currentProductId == current && userPreferences == preferences
      ensures recommendations == [] && favorites == {}
    {
      currentProductId := current;
      userPreferences := preferences;
      recommendations := [];
      favorites := {};
    }

    /** The effect run for the panel's product and preferences. */
    method RunEffect()
      modifies this
      ensures recommendations == Ranked(currentProductId, userPreferences)
      ensures favorites == old(favorites)
    {
      recommendations := Recommend(currentProductId, userPreferences);
    }

    /** `toggleFavorite`: flips the id, keeps what is shown. */
    method ToggleFavorite(id: int)
      modifies this
      ensures favorites == Favorites.Toggle(old(favorites), id)
      ensures recommendations == old(recommendations)
    {
      var next := favorites;
      if id in next {
        next := next - {id};
      } else {
        next := next + {id};
      }
      favorites := next;
    }
  }
}
