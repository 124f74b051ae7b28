/**
 * The fuzzy ranker behind normal search: per-term scoring tiers, the AND over
 * query terms, the ordering by score with ties in snapshot order, and the cap
 * of 50 results.
 */
module Ranker {
  import opened Text
  import opened Order
  import opened Resources

  datatype SearchResult = SearchResult(resource: Resource, displayText: string, matchScore: real)

  /** At most this many results are shown. */
  const MaxResults: nat := 50

  /**
   * `fuzzyMatch`: walk the text once, advancing through the query whenever the
   * next query character appears; the score is matched characters over query length
   * when every character was found, and 0 otherwise.
   */
  method FuzzyMatch(text: string, query: string) returns (r: real)
    requires |query| > 0
    ensures r == (if IsSubsequence(query, text) then 1.0 else 0.0)
  {
    var score := 0;
    var queryIndex := 0;
    var i := 0;
    while i < |text| && queryIndex < |query|
      invariant 0 <= i <= |text| && 0 <= queryIndex <= |query|
      invariant score == queryIndex
      invariant GreedyMatched(text, query) == queryIndex + GreedyMatched(text[i..], query[queryIndex..])
    {
      assert text[i..][1..] == text[i + 1..];
      assert query[queryIndex..][1..] == query[queryIndex + 1..];
      if text[i] == query[queryIndex] {
        score := score + 1;
        queryIndex := queryIndex + 1;
      }
      i := i + 1;
    }
    GreedyMatchedIffSubsequence(text, query);
    if queryIndex == |query| {
      DivideBySelf(|query| as real);
      return score as real / |query| as real;
    }
    return 0.0;
  }

  lemma DivideBySelf(x: real)
    requires x > 0.0
    ensures x / x == 1.0
  {
  }

  /** The lower-cased namespace, or the empty string when there is none. */
  function NamespaceLower(r: Resource): string {
    if r.namespace.Some? then Lower(r.namespace.value) else ""
  }

  /**
   * Score of one lower-cased query term against one object, by the first tier
   * that applies: display-text substring 10, name 8, kind 6, namespace 5,
   * in-order subsequence of the display text 2 (`fuzzyMatch` gives 1, doubled), else 0.
   */
  function TermScore(r: Resource, term: string): (score: real)
    ensures score in {0.0, 2.0, 5.0, 6.0, 8.0, 10.0}
    ensures Contains(Lower(DisplayText(r)), term) ==> score == 10.0
    ensures score == 0.0 ==> !IsSubsequence(term, Lower(DisplayText(r)))
  {
    var displayLower := Lower(DisplayText(r));
    if Contains(displayLower, term) then 10.0
    else if Contains(Lower(r.name), term) then 8.0
    else if Contains(Lower(r.kind), term) then 6.0
    else if Contains(NamespaceLower(r), term) then 5.0
    else if IsSubsequence(term, displayLower) then 2.0
    else 0.0
  }

  predicate AllTermsMatch(r: Resource, terms: seq<string>) {
    forall i :: 0 <= i < |terms| ==> TermScore(r, terms[i]) > 0.0
  }

  function SumScores(r: Resource, terms: seq<string>): real {
    if terms == [] then 0.0
    else SumScores(r, terms[..|terms| - 1]) + TermScore(r, terms[|terms| - 1])
  }

  /** Sum of the term scores when every term scores, 0 (excluded) otherwise. */
  function ResourceScore(r: Resource, terms: seq<string>): real {
    if AllTermsMatch(r, terms) then SumScores(r, terms) else 0.0
  }

  /**
   * The per-object body of the search's `map` callback: compute the lower-cased
   * fields, then add up the term scores, giving up with 0 at the first term that
   * does not match.
   */
  method ScoreResource(r: Resource, terms: seq<string>) returns (total: real)
    requires forall i :: 0 <= i < |terms| ==> |terms[i]| > 0
    ensures total == ResourceScore(r, terms)
  {
    var displayText := DisplayText(r);
    var displayLower := Lower(displayText);
    var nameLower := Lower(r.name);
    var kindLower := Lower(r.kind);
    var namespaceLower := if r.namespace.Some? then Lower(r.namespace.value) else "";
    total := 0.0;
    var k := 0;
    while k < |terms|
      invariant 0 <= k <= |terms|
      invariant AllTermsMatch(r, terms[..k])
      invariant total == SumScores(r, terms[..k])
    {
      var term := terms[k];
      assert terms[..k + 1][..k] == terms[..k];
      if Contains(displayLower, term) {
        total := total + 10.0;
      } else if Contains(nameLower, term) {
        total := total + 8.0;
      } else if Contains(kindLower, term) {
        total := total + 6.0;
      } else if Contains(namespaceLower, term) {
        total := total + 5.0;
      } else {
        var fuzzyScore := FuzzyMatch(displayLower, term);
        if fuzzyScore > 0.0 {
          total := total + fuzzyScore * 2.0;
        } else {
          assert TermScore(r, terms[k]) == 0.0;
          return 0.0;
        }
      }
      k := k + 1;
    }
    assert terms[..k] == terms;
  }

  lemma {:induction false} ContainsIsSubsequence(s: string, t: string)
    requires Contains(s, t)
    ensures IsSubsequence(t, s)
  {
    var i :| 0 <= i <= |s| && OccursAt(s, t, i);
    SliceIsSubsequence(s, i, i + |t|);
  }

  lemma {:induction false} SliceIsSubsequence(s: string, i: nat, j: nat)
    requires i <= j <= |s|
    ensures IsSubsequence(s[i..j], s)
    decreases |s|
  {
    if i < j {
      if i == 0 {
        SliceIsSubsequence(s[1..], 0, j - 1);
        assert s[1..][0..j - 1] == s[i..j][1..];
      } else {
        SliceIsSubsequence(s[1..], i - 1, j - 1);
        assert s[1..][i - 1..j - 1] == s[i..j];
      }
    }
  }

  /**
   * The display text already contains the name, kind and namespace, so the 8, 6
   * and 5 tiers never apply: a term scores 10 as a substring of the display
   * text, 2 as a mere subsequence of it, and 0 otherwise.
   */
  lemma TermScoreIsTenOrTwo(r: Resource, term: string)
    ensures var dl := Lower(DisplayText(r));
      TermScore(r, term) == (if Contains(dl, term) then 10.0 else if IsSubsequence(term, dl) then 2.0 else 0.0)
  {
    DisplayTextContainsParts(r, term);
    if !HasNamespace(r) && Contains(NamespaceLower(r), term) {
      assert NamespaceLower(r) == [];
      var i :| 0 <= i <= 0 && OccursAt(NamespaceLower(r), term, i);
      assert term == [];
      assert OccursAt(Lower(DisplayText(r)), term, 0);
    }
  }

  /**
   * An object is ranked exactly when the query has at least one term and every
   * term is an in-order subsequence of its lower-cased display text.
   */
  lemma {:induction false} RankedIffEveryTermIsSubsequence(r: Resource, terms: seq<string>)
    ensures ResourceScore(r, terms) > 0.0 <==>
      terms != [] && forall i :: 0 <= i < |terms| ==> IsSubsequence(terms[i], Lower(DisplayText(r)))
  {
    forall i | 0 <= i < |terms|
      ensures TermScore(r, terms[i]) > 0.0 <==> IsSubsequence(terms[i], Lower(DisplayText(r)))
    {
      TermScoreIsTenOrTwo(r, terms[i]);
      if Contains(Lower(DisplayText(r)), terms[i]) {
        ContainsIsSubsequence(Lower(DisplayText(r)), terms[i]);
      }
    }
    if AllTermsMatch(r, terms) {
      SumScoresBounds(r, terms);
    }
  }

  /** When every term matches, the total lies between 2 and 10 per term. */
  lemma {:induction false} SumScoresBounds(r: Resource, terms: seq<string>)
    requires AllTermsMatch(r, terms)
    ensures 2.0 * |terms| as real <= SumScores(r, terms) <= 10.0 * |terms| as real
  {
    if terms != [] {
      var init := terms[..|terms| - 1];
      assert AllTermsMatch(r, init) by {
        forall i | 0 <= i < |init| ensures TermScore(r, init[i]) > 0.0 {
          assert init[i] == terms[i];
        }
      }
      SumScoresBounds(r, init);
      TermScoreIsTenOrTwo(r, terms[|terms| - 1]);
    }
  }

  /** A search result tagged with the position of its object in the filtered snapshot. */
  datatype Ranked = Ranked(pos: nat, result: SearchResult)

  function Entry(r: Resource, terms: seq<string>): SearchResult {
    SearchResult(r, DisplayText(r), ResourceScore(r, terms))
  }

  /** The scored objects with a positive score, in snapshot order. */
  function Candidates(rs: seq<Resource>, terms: seq<string>): (c: seq<Ranked>)
    ensures forall k :: 0 <= k < |c| ==>
      c[k].pos < |rs| && c[k].result == Entry(rs[c[k].pos], terms) && c[k].result.matchScore > 0.0
    ensures forall i, j :: 0 <= i < j < |c| ==> c[i].pos < c[j].pos
  {
    if rs == [] then []
    else
      var init := Candidates(rs[..|rs| - 1], terms);
      var last := rs[|rs| - 1];
      var score := ResourceScore(last, terms);
      init + (if score > 0.0 then [Ranked(|rs| - 1, Entry(last, terms))] else [])
  }

  /** Some entry of `c` was scored from snapshot position `p`. */
  predicate HasPos(c: seq<Ranked>, p: nat) {
    exists k :: 0 <= k < |c| && c[k].pos == p
  }

  lemma HasPosAppend(a: seq<Ranked>, b: seq<Ranked>, p: nat)
    requires HasPos(a, p) || HasPos(b, p)
    ensures HasPos(a + b, p)
  {
    if HasPos(a, p) {
      var k :| 0 <= k < |a| && a[k].pos == p;
      assert (a + b)[k] == a[k];
    } else {
      var k :| 0 <= k < |b| && b[k].pos == p;
      assert (a + b)[|a| + k] == b[k];
    }
  }

  /** Every object with a positive score is among the candidates. */
  lemma {:induction false} CandidatesComplete(rs: seq<Resource>, terms: seq<string>, p: nat)
    requires p < |rs| && ResourceScore(rs[p], terms) > 0.0
    ensures HasPos(Candidates(rs, terms), p)
  {
    var init := Candidates(rs[..|rs| - 1], terms);
    var last := rs[|rs| - 1];
    var tail := if ResourceScore(last, terms) > 0.0 then [Ranked(|rs| - 1, Entry(last, terms))] else [];
    assert Candidates(rs, terms) == init + tail;
    if p < |rs| - 1 {
      assert rs[..|rs| - 1][p] == rs[p];
      CandidatesComplete(rs[..|rs| - 1], terms, p);
    } else {
      assert tail[0].pos == p;
    }
    HasPosAppend(init, tail, p);
  }

  /** `b.matchScore - a.matchScore` order, ties broken by snapshot position (a stable sort). */
  predicate Before(a: Ranked, b: Ranked) {
    a.result.matchScore > b.result.matchScore ||
    (a.result.matchScore == b.result.matchScore && a.pos < b.pos)
  }

  predicate RankSorted(s: seq<Ranked>) {
    forall i, j :: 0 <= i < j < |s| ==> Before(s[i], s[j])
  }

  predicate DistinctPositions(s: seq<Ranked>) {
    forall i, j :: 0 <= i < j < |s| ==> s[i].pos != s[j].pos
  }

  function InsertRanked(x: Ranked, s: seq<Ranked>): (r: seq<Ranked>)
    requires RankSorted(s)
    requires forall k :: 0 <= k < |s| ==> s[k].pos != x.pos
    ensures RankSorted(r)
    ensures multiset(r) == multiset(s) + multiset{x}
  {
    if s == [] then [x]
    else if Before(x, s[0]) then [x] + s
    else
      var rest := InsertRanked(x, s[1..]);
      HeadPrecedesInsertion(x, s, rest);
      assert s == [s[0]] + s[1..];
      [s[0]] + rest
  }

  /** When `x` goes after the head, the head precedes everything the rest becomes. */
  lemma HeadPrecedesInsertion(x: Ranked, s: seq<Ranked>, rest: seq<Ranked>)
    requires s != [] && RankSorted(s) && x.pos != s[0].pos && !Before(x, s[0])
    requires multiset(rest) == multiset(s[1..]) + multiset{x}
    ensures forall y :: y in rest ==> Before(s[0], y)
  {
    forall y | y in rest ensures Before(s[0], y) {
      assert y in multiset(rest);
      if y != x {
        assert y in multiset(s[1..]);
        var j :| 0 <= j < |s[1..]| && s[1..][j] == y;
        assert s[j + 1] == y;
      }
    }
  }

  function SortRanked(s: seq<Ranked>): (r: seq<Ranked>)
    requires DistinctPositions(s)
    ensures RankSorted(r)
    ensures multiset(r) == multiset(s)
    ensures |r| == |s|
  {
    if s == [] then []
    else
      assert s == [s[0]] + s[1..];
      var tail := SortRanked(s[1..]);
      forall k | 0 <= k < |tail| ensures tail[k].pos != s[0].pos {
        assert tail[k] in multiset(s[1..]);
      }
      InsertRanked(s[0], tail)
  }

  /** All ranked entries for `terms`, best first. */
  function RankedList(rs: seq<Resource>, terms: seq<string>): seq<Ranked> {
    var c := Candidates(rs, terms);
    SortRanked(c)
  }

  function ResultsOf(s: seq<Ranked>): (r: seq<SearchResult>)
    ensures |r| == |s| && forall k :: 0 <= k < |s| ==> r[k] == s[k].result
  {
    seq(|s|, k requires 0 <= k < |s| => s[k].result)
  }

  function Unscored(rs: seq<Resource>): (r: seq<SearchResult>)
    ensures |r| == |rs| && forall k :: 0 <= k < |rs| ==> r[k] == SearchResult(rs[k], DisplayText(rs[k]), 1.0)
  {
    seq(|rs|, k requires 0 <= k < |rs| => SearchResult(rs[k], DisplayText(rs[k]), 1.0))
  }

  /** The query's terms: lower-cased, split on white space, empty pieces dropped. */
  function QueryTerms(query: string): seq<string> {
    Words(Lower(query))
  }

  /**
   * `performSearch` over an already filtered snapshot: an empty query lists the
   * first 50 objects with score 1; otherwise the ranked entries, best first, capped at 50.
   */
  function Search(filtered: seq<Resource>, query: string): (r: seq<SearchResult>)
    ensures |r| <= MaxResults
  {
    if query == "" then Unscored(Take(filtered, MaxResults))
    else ResultsOf(Take(RankedList(filtered, QueryTerms(query)), MaxResults))
  }

  /** With no query the first 50 filtered objects are listed in snapshot order, each with score 1. */
  lemma SearchEmptyQuery(filtered: seq<Resource>)
    ensures var r := Search(filtered, "");
      |r| == (if |filtered| <= MaxResults then |filtered| else MaxResults) &&
      forall k :: 0 <= k < |r| ==> r[k].resource == filtered[k] && r[k].matchScore == 1.0
  {
  }

  /** A non-empty query made only of white space has no terms, and no object scores. */
  lemma SearchBlankQuery(filtered: seq<Resource>, query: string)
    requires query != "" && AllSpace(Lower(query))
    ensures Search(filtered, query) == []
  {
  }

  /** Each ranked entry is the scored object at its recorded snapshot position. */
  lemma RankedEntries(filtered: seq<Resource>, terms: seq<string>)
    ensures var ranked := RankedList(filtered, terms);
      forall k :: 0 <= k < |ranked| ==>
        ranked[k].pos < |filtered| && ranked[k].result == Entry(filtered[ranked[k].pos], terms) &&
        ranked[k].result.matchScore > 0.0
  {
    var c := Candidates(filtered, terms);
    var ranked := RankedList(filtered, terms);
    forall k | 0 <= k < |ranked|
      ensures ranked[k].pos < |filtered| && ranked[k].result == Entry(filtered[ranked[k].pos], terms)
      ensures ranked[k].result.matchScore > 0.0
    {
      assert ranked[k] in multiset(c);
    }
  }

  /** An object is in the ranked list exactly when it scores above zero. */
  lemma RankedMembership(filtered: seq<Resource>, terms: seq<string>, p: nat)
    requires p < |filtered|
    ensures HasPos(RankedList(filtered, terms), p) <==> ResourceScore(filtered[p], terms) > 0.0
  {
    var c := Candidates(filtered, terms);
    var ranked := RankedList(filtered, terms);
    RankedEntries(filtered, terms);
    if ResourceScore(filtered[p], terms) > 0.0 {
      CandidatesComplete(filtered, terms, p);
      var k :| 0 <= k < |c| && c[k].pos == p;
      assert c[k] in multiset(ranked);
      var k' :| 0 <= k' < |ranked| && ranked[k'] == c[k];
    }
  }

  /**
   * For a non-empty query the results are the leading ranked entries: best
   * first, and among equal scores in snapshot order.
   */
  lemma SearchOrdered(filtered: seq<Resource>, query: string)
    requires query != ""
    ensures var ranked := RankedList(filtered, QueryTerms(query));
      var r := Search(filtered, query);
      |r| <= |ranked| &&
      (forall k :: 0 <= k < |r| ==> r[k] == ranked[k].result) &&
      (forall i, j :: 0 <= i < j < |r| ==> r[i].matchScore >= r[j].matchScore) &&
      (forall i, j :: 0 <= i < j < |r| && r[i].matchScore == r[j].matchScore ==> ranked[i].pos < ranked[j].pos)
  {
    var ranked := RankedList(filtered, QueryTerms(query));
    var r := Search(filtered, query);
    assert forall i, j :: 0 <= i < j < |r| ==> Before(ranked[i], ranked[j]);
  }

  /** An entry cut off by the cap scores no higher than any entry that was kept. */
  lemma CapDropsOnlyLowerScores(filtered: seq<Resource>, query: string, i: nat, j: nat)
    requires query != ""
    requires var ranked := RankedList(filtered, QueryTerms(query));
      i < MaxResults <= j < |ranked|
    ensures var ranked := RankedList(filtered, QueryTerms(query));
      ranked[i].result.matchScore >= ranked[j].result.matchScore &&
      ranked[i].result == Search(filtered, query)[i]
  {
  }
}
