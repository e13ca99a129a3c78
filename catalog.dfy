/**
 * The derivations the catalog page recomputes on every render: the active
 * plan, the search filter, and the visible window with its "load more" flag.
 */
module Catalog {
  import opened Text
  import opened Lectures

  /** The three plans the page chooses from. */
  datatype Plans = Plans(english: seq<LectureRow>, computers: seq<LectureRow>, college: seq<LectureRow>)

  /** `currentPlan`: the plan for the selected course and, for school, the selected batch. */
  function CurrentPlan(plans: Plans, course: CourseType, batch: SchoolBatch): (plan: seq<LectureRow>)
    ensures plan == plans.english || plan == plans.computers || plan == plans.college
    ensures course == College ==> plan == plans.college
  {
    if course == School then
      (if batch == English then plans.english else plans.computers)
    else
      plans.college
  }

  /** Each school batch picks its own plan; the college course picks the college plan whatever the batch. */
  lemma SelectionExhaustive(plans: Plans, batch: SchoolBatch)
    ensures CurrentPlan(plans, School, English) == plans.english
    ensures CurrentPlan(plans, School, Computers) == plans.computers
    ensures CurrentPlan(plans, College, batch) == plans.college
  {
  }

  /** The search query as the filter uses it: trimmed, then lower-cased. */
  function Normalize(searchTerm: string): (q: string)
    ensures |q| <= |searchTerm|
  {
    ToLower(Trim(searchTerm))
  }

  /** The normalized query is empty exactly when the search box holds only whitespace. */
  lemma NormalizeEmptyIff(searchTerm: string)
    ensures Normalize(searchTerm) == [] <==> AllWhitespace(searchTerm)
  {
    TrimEmptyIff(searchTerm);
  }

  /** A row matches when its lower-cased topic, its lecture number or its printed duration contains `q`. */
  predicate RowMatches(row: LectureRow, q: string): (m: bool)
    ensures q == [] ==> m
  {
    || Contains(ToLower(row.topic), q)
    || Contains(NatToString(row.lecture), q)
    || Contains(DurationToString(row.duration), q)
  }

  /** `rows.filter(r => RowMatches(r, q))`. */
  function FilterRows(rows: seq<LectureRow>, q: string): (r: seq<LectureRow>)
    ensures |r| <= |rows|
    ensures forall k :: 0 <= k < |r| ==> RowMatches(r[k], q)
  {
    if rows == [] then []
    else (if RowMatches(rows[0], q) then [rows[0]] else []) + FilterRows(rows[1..], q)
  }

  /** `filtered`: the plan itself for a blank query, else the rows matching the normalized query. */
  function Filtered(plan: seq<LectureRow>, searchTerm: string): (r: seq<LectureRow>)
    ensures |r| <= |plan|
  {
    var q := Normalize(searchTerm);
    if q == [] then plan else FilterRows(plan, q)
  }

  /** A blank or all-whitespace query leaves the plan unchanged. */
  lemma FilterBlankIsIdentity(plan: seq<LectureRow>, searchTerm: string)
    requires AllWhitespace(searchTerm)
    ensures Filtered(plan, searchTerm) == plan
  {
    NormalizeEmptyIff(searchTerm);
  }

  /** `r` lists `s[idx[0]], s[idx[1]], ...` with strictly increasing positions `idx`. */
  ghost predicate SubsequenceBy(r: seq<LectureRow>, s: seq<LectureRow>, idx: seq<nat>) {
    && |idx| == |r|
    && (forall k :: 0 <= k < |idx| ==> idx[k] < |s| && r[k] == s[idx[k]])
    && (forall k, l :: 0 <= k < l < |idx| ==> idx[k] < idx[l])
  }

  /** The positions `i.. |rows|` of the rows that match `q`, in increasing order. */
  function MatchingIndices(rows: seq<LectureRow>, q: string, i: nat): (idx: seq<nat>)
    requires i <= |rows|
    decreases |rows| - i
  {
    if i == |rows| then []
    else (if RowMatches(rows[i], q) then [i] else []) + MatchingIndices(rows, q, i + 1)
  }

  /** Filtering the suffix `rows[i..]` picks exactly the positions `MatchingIndices(rows, q, i)`. */
  lemma {:induction false} FilterRowsPicks(rows: seq<LectureRow>, q: string, i: nat)
    requires i <= |rows|
    ensures var idx := MatchingIndices(rows, q, i);
      && SubsequenceBy(FilterRows(rows[i..], q), rows, idx)
      && (forall k :: 0 <= k < |idx| ==> i <= idx[k])
      && (forall j :: i <= j < |rows| ==> (j in idx <==> RowMatches(rows[j], q)))
    decreases |rows| - i
  {
    if i < |rows| {
      FilterRowsPicks(rows, q, i + 1);
      assert rows[i..][1..] == rows[i + 1..];
      var tail, rest := FilterRows(rows[i + 1..], q), MatchingIndices(rows, q, i + 1);
      if RowMatches(rows[i], q) {
        SubsequenceCons(rows, tail, rest, i);
        assert forall j :: j in [i] + rest <==> j == i || j in rest;
      }
    }
  }

  /** Putting `s[i]` in front of a subsequence taken from positions after `i` gives a subsequence. */
  lemma SubsequenceCons(s: seq<LectureRow>, tail: seq<LectureRow>, rest: seq<nat>, i: nat)
    requires i < |s| && SubsequenceBy(tail, s, rest)
    requires forall k :: 0 <= k < |rest| ==> i < rest[k]
    ensures SubsequenceBy([s[i]] + tail, s, [i] + rest)
  {
    var r, idx := [s[i]] + tail, [i] + rest;
    forall k | 0 < k < |idx| ensures idx[k] < |s| && r[k] == s[idx[k]] {
      assert idx[k] == rest[k - 1] && r[k] == tail[k - 1];
    }
    forall k, l | 0 <= k < l < |idx| ensures idx[k] < idx[l] {
      assert idx[l] == rest[l - 1];
      if k > 0 {
        assert idx[k] == rest[k - 1];
      }
    }
  }

  /**
   * With a non-blank query the result is an order-preserving subsequence of the
   * plan that keeps row `j` exactly when it matches the normalized query.
   */
  lemma FilteredIsMatchingSubsequence(plan: seq<LectureRow>, searchTerm: string)
    requires Normalize(searchTerm) != []
    ensures var q := Normalize(searchTerm);
      var idx := MatchingIndices(plan, q, 0);
      && SubsequenceBy(Filtered(plan, searchTerm), plan, idx)
      && (forall j :: 0 <= j < |plan| ==> (j in idx <==> RowMatches(plan[j], q)))
  {
    FilterRowsPicks(plan, Normalize(searchTerm), 0);
    assert plan[0..] == plan;
  }

  /** Filtering keeps each matching row as often as the input has it and drops the others: nothing is duplicated. */
  lemma {:induction false} FilterRowsCounts(rows: seq<LectureRow>, q: string, x: LectureRow)
    ensures multiset(FilterRows(rows, q))[x] == if RowMatches(x, q) then multiset(rows)[x] else 0
  {
    if rows != [] {
      var h, rest := rows[0], rows[1..];
      FilterRowsCounts(rest, q, x);
      var inTail := multiset(FilterRows(rest, q))[x];
      assert multiset(rows)[x] == multiset([h])[x] + multiset(rest)[x] by {
        assert rows == [h] + rest;
      }
      if RowMatches(h, q) {
        assert FilterRows(rows, q) == [h] + FilterRows(rest, q);
        assert multiset(FilterRows(rows, q))[x] == multiset([h])[x] + inTail;
      } else {
        assert FilterRows(rows, q) == FilterRows(rest, q);
        assert x == h ==> !RowMatches(x, q);
      }
    }
  }

  /** On a numbered plan the filtered rows have strictly increasing, hence distinct, lecture numbers. */
  lemma FilteredLecturesIncrease(plan: seq<LectureRow>, searchTerm: string)
    requires IsNumbered(plan)
    ensures var r := Filtered(plan, searchTerm);
      forall k, l :: 0 <= k < l < |r| ==> r[k].lecture < r[l].lecture
  {
    if Normalize(searchTerm) != [] {
      FilteredIsMatchingSubsequence(plan, searchTerm);
    }
  }

  function Min(a: nat, b: nat): nat {
    if a <= b then a else b
  }

  /** `shown`: `filtered.slice(0, visibleCount)`, the first `visibleCount` rows or all of them. */
  function Shown(filtered: seq<LectureRow>, visibleCount: nat): (r: seq<LectureRow>)
    ensures |r| == Min(visibleCount, |filtered|)
    ensures r == filtered[..|r|]
  {
    if visibleCount <= |filtered| then filtered[..visibleCount] else filtered
  }

  /** "Load more" is offered exactly when the window hides some of the filtered rows. */
  predicate CanLoadMore(filtered: seq<LectureRow>, visibleCount: nat): (b: bool)
    ensures b <==> Shown(filtered, visibleCount) != filtered
  {
    |filtered| > visibleCount
  }

  /** Widening the window keeps what was shown in front, and shows more whenever more was hidden. */
  lemma WiderWindowExtends(filtered: seq<LectureRow>, v: nat, w: nat)
    requires v <= w
    ensures Shown(filtered, v) == Shown(filtered, w)[..|Shown(filtered, v)|]
    ensures CanLoadMore(filtered, v) && v < w ==> |Shown(filtered, v)| < |Shown(filtered, w)|
  {
  }

  /**
   * Searching for any piece of a row's topic, typed in any letter case and
   * without surrounding blanks, keeps that row.
   */
  lemma SearchFindsTopicPiece(plan: seq<LectureRow>, j: nat, t: string)
    requires j < |plan| && Contains(ToLower(plan[j].topic), ToLower(t))
    requires t != [] && !IsWhitespace(t[0]) && !IsWhitespace(t[|t| - 1])
    ensures plan[j] in Filtered(plan, t)
  {
    TrimUnchanged(t);
    FilteredIsMatchingSubsequence(plan, t);
    var idx := MatchingIndices(plan, Normalize(t), 0);
    var k :| 0 <= k < |idx| && idx[k] == j;
    assert Filtered(plan, t)[k] == plan[j];
  }

  /** Searching for a lecture's number keeps that lecture. */
  lemma SearchFindsLectureNumber(plan: seq<LectureRow>, j: nat)
    requires j < |plan|
    ensures plan[j] in Filtered(plan, NatToString(plan[j].lecture))
  {
    var t := NatToString(plan[j].lecture);
    TrimUnchanged(t);
    assert ToLower(t) == t;
    assert StartsWith(t, t);
    FilteredIsMatchingSubsequence(plan, t);
    var idx := MatchingIndices(plan, Normalize(t), 0);
    var k :| 0 <= k < |idx| && idx[k] == j;
    assert Filtered(plan, t)[k] == plan[j];
  }
}
