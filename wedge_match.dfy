/**
 * Wedge-pattern matching (src/lib/utils/wedge-match.ts): signs are
 * identified by how many wedges of each kind they contain. The searches
 * that the source runs over the global `SIGNS` array take the catalog as a
 * parameter here.
 */
module WedgeMatch {
  import opened Seqs
  import opened Signs
  import Collections

  /** Per-axis tolerance (src/lib/types/wedge.ts). */
  datatype WedgeMatchTolerance = WedgeMatchTolerance(horizontal: int, vertical: int, oblique: int, winkelhaken: int)

  const DEFAULT_TOLERANCE := WedgeMatchTolerance(1, 1, 1, 1)

  /** The same tolerance on every axis, as the searches build it from one number. */
  function Uniform(t: int): WedgeMatchTolerance
  {
    WedgeMatchTolerance(t, t, t, t)
  }

  /** `getTotalWedges`: the number of wedges of all kinds. */
  function GetTotalWedges(c: WedgeComposition): (r: int)
    ensures NonNegative(c) ==> r >= 0
    ensures NonNegative(c) ==> (r == 0 <==> c == CreateEmptyFilter())
  {
    c.horizontal + c.vertical + c.oblique + c.winkelhaken
  }

  /** `createEmptyFilter`: no wedges of any kind. */
  function CreateEmptyFilter(): (r: WedgeComposition)
    ensures NonNegative(r)
    ensures r.horizontal + r.vertical + r.oblique + r.winkelhaken == 0
  {
    WedgeComposition(0, 0, 0, 0)
  }

  /** `wedgeCompositionsMatch`: every axis differs by at most that axis's tolerance. */
  predicate WedgeCompositionsMatch(a: WedgeComposition, b: WedgeComposition, tolerance: WedgeMatchTolerance)
  {
    Abs(a.horizontal - b.horizontal) <= tolerance.horizontal &&
    Abs(a.vertical - b.vertical) <= tolerance.vertical &&
    Abs(a.oblique - b.oblique) <= tolerance.oblique &&
    Abs(a.winkelhaken - b.winkelhaken) <= tolerance.winkelhaken
  }

  /**
   * Matching is symmetric; a larger uniform tolerance accepts everything a
   * smaller one does; tolerance 0 accepts exactly equal compositions; a
   * negative tolerance accepts nothing.
   */
  lemma MatchProperties(a: WedgeComposition, b: WedgeComposition, tolerance: WedgeMatchTolerance, t: int, u: int)
    ensures WedgeCompositionsMatch(a, b, tolerance) <==> WedgeCompositionsMatch(b, a, tolerance)
    ensures t <= u && WedgeCompositionsMatch(a, b, Uniform(t)) ==> WedgeCompositionsMatch(a, b, Uniform(u))
    ensures WedgeCompositionsMatch(a, b, Uniform(0)) <==> a == b
    ensures t < 0 ==> !WedgeCompositionsMatch(a, b, Uniform(t))
  {
  }

  function RMax(x: real, y: real): real { if x >= y then x else y }

  /** The summed per-axis difference between two compositions. */
  function Difference(a: WedgeComposition, b: WedgeComposition): (d: nat)
    ensures d == 0 <==> a == b
  {
    Abs(a.horizontal - b.horizontal) + Abs(a.vertical - b.vertical)
      + Abs(a.oblique - b.oblique) + Abs(a.winkelhaken - b.winkelhaken)
  }

  /** The relative difference `d / m` lies in [0, 1 - r] for the floored result `r`. */
  lemma RelativeDifference(d: nat, m: int)
    requires m > 0
    ensures d as real / m as real >= 0.0
    ensures d > 0 ==> d as real / m as real > 0.0
  {
  }

  /**
   * `wedgeSimilarity`: 1 when both compositions are empty, 0 when exactly
   * one is, otherwise one minus the summed per-axis difference relative to
   * the larger total, floored at 0.
   */
  function WedgeSimilarity(a: WedgeComposition, b: WedgeComposition): (r: real)
    ensures 0.0 <= r
    ensures (NonNegative(a) || NonNegative(b)) ==> r <= 1.0
    ensures GetTotalWedges(a) == 0 && GetTotalWedges(b) == 0 ==> r == 1.0
    ensures (GetTotalWedges(a) == 0) != (GetTotalWedges(b) == 0) ==> r == 0.0
  {
    var totalA := GetTotalWedges(a);
    var totalB := GetTotalWedges(b);
    if totalA == 0 && totalB == 0 then 1.0
    else if totalA == 0 || totalB == 0 then 0.0
    else
      var maxDiff := Max(totalA, totalB);
      var q := Difference(a, b) as real / maxDiff as real;
      RMax(0.0, 1.0 - q)
  }

  /**
   * Similarity is symmetric, and for compositions without negative counts it
   * is 1 exactly when the two are equal.
   */
  lemma SimilarityProperties(a: WedgeComposition, b: WedgeComposition)
    ensures WedgeSimilarity(a, b) == WedgeSimilarity(b, a)
    ensures WedgeSimilarity(a, a) == 1.0
    ensures NonNegative(a) && NonNegative(b) ==> (WedgeSimilarity(a, b) == 1.0 <==> a == b)
  {
    var totalA, totalB := GetTotalWedges(a), GetTotalWedges(b);
    assert Difference(a, b) == Difference(b, a);
    assert Max(totalA, totalB) == Max(totalB, totalA);
    if totalA != 0 && totalB != 0 && NonNegative(a) && NonNegative(b) {
      RelativeDifference(Difference(a, b), Max(totalA, totalB));
    }
  }

  /** A sign has a composition and it matches `filter` within a uniform tolerance. */
  function SignMatches(filter: WedgeComposition, tolerance: int): CuneiformSign -> bool
  {
    (s: CuneiformSign) => s.wedgeComposition.Some? &&
      WedgeCompositionsMatch(s.wedgeComposition.value, filter, Uniform(tolerance))
  }

  /** `matchByWedges`: the signs whose composition matches, in their order. */
  function MatchByWedges(signs: seq<CuneiformSign>, filter: WedgeComposition, tolerance: int): (r: seq<CuneiformSign>)
    ensures forall i :: 0 <= i < |r| ==> r[i].wedgeComposition.Some?
  {
    Filter(signs, SignMatches(filter, tolerance))
  }

  /**
   * A sign is returned exactly when it has a composition that matches; the
   * result keeps the order of `signs`, so appending a sign appends it (or
   * nothing) to the result.
   */
  lemma MatchByWedgesSpec(signs: seq<CuneiformSign>, filter: WedgeComposition, tolerance: int, x: CuneiformSign)
    ensures x in MatchByWedges(signs, filter, tolerance) <==>
      x in signs && x.wedgeComposition.Some? &&
      WedgeCompositionsMatch(x.wedgeComposition.value, filter, Uniform(tolerance))
    ensures MatchByWedges(signs + [x], filter, tolerance) ==
      MatchByWedges(signs, filter, tolerance) + (if SignMatches(filter, tolerance)(x) then [x] else [])
  {
    FilterMembers(signs, SignMatches(filter, tolerance), x);
    FilterAppend(signs, [x], SignMatches(filter, tolerance));
  }

  function SignEquals(filter: WedgeComposition): CuneiformSign -> bool
  {
    (s: CuneiformSign) => s.wedgeComposition.Some? &&
      s.wedgeComposition.value.horizontal == filter.horizontal &&
      s.wedgeComposition.value.vertical == filter.vertical &&
      s.wedgeComposition.value.oblique == filter.oblique &&
      s.wedgeComposition.value.winkelhaken == filter.winkelhaken
  }

  /** `findExactWedgeMatch`: the signs whose composition equals `filter`. */
  function FindExactWedgeMatch(catalog: seq<CuneiformSign>, filter: WedgeComposition): (r: seq<CuneiformSign>)
    ensures forall i :: 0 <= i < |r| ==> r[i].wedgeComposition == Some(filter)
  {
    Filter(catalog, SignEquals(filter))
  }

  /** An exact match is a match with tolerance 0. */
  lemma {:induction false} ExactIsZeroTolerance(catalog: seq<CuneiformSign>, filter: WedgeComposition)
    ensures FindExactWedgeMatch(catalog, filter) == MatchByWedges(catalog, filter, 0)
  {
    forall i | 0 <= i < |catalog|
      ensures SignEquals(filter)(catalog[i]) == SignMatches(filter, 0)(catalog[i])
    {
      if catalog[i].wedgeComposition.Some? {
        MatchProperties(catalog[i].wedgeComposition.value, filter, Uniform(0), 0, 0);
      }
    }
    FilterExt(catalog, SignEquals(filter), SignMatches(filter, 0));
  }

  function TotalWithin(min: int, max: int): CuneiformSign -> bool
  {
    (s: CuneiformSign) => s.wedgeComposition.Some? &&
      min <= GetTotalWedges(s.wedgeComposition.value) <= max
  }

  /** `findSignsByWedgeCount`: the signs whose total wedge count lies in `[min, max]`. */
  function FindSignsByWedgeCount(catalog: seq<CuneiformSign>, min: int, max: int): (r: seq<CuneiformSign>)
    ensures forall i :: 0 <= i < |r| ==>
      r[i].wedgeComposition.Some? && min <= GetTotalWedges(r[i].wedgeComposition.value) <= max
  {
    Filter(catalog, TotalWithin(min, max))
  }

  /** Exactly the signs in range are returned, and an empty range returns nothing. */
  lemma FindSignsByWedgeCountSpec(catalog: seq<CuneiformSign>, min: int, max: int, x: CuneiformSign)
    ensures x in FindSignsByWedgeCount(catalog, min, max) <==>
      x in catalog && x.wedgeComposition.Some? && min <= GetTotalWedges(x.wedgeComposition.value) <= max
    ensures min > max ==> FindSignsByWedgeCount(catalog, min, max) == []
  {
    FilterMembers(catalog, TotalWithin(min, max), x);
    if min > max {
      FilterNone(catalog, TotalWithin(min, max));
    }
  }

  // ---------------------------------------------------------------------
  // Grouping by total
  // ---------------------------------------------------------------------

  function TotalIs(total: int): CuneiformSign -> bool
  {
    (s: CuneiformSign) => s.wedgeComposition.Some? && GetTotalWedges(s.wedgeComposition.value) == total
  }

  /** Some sign of `signs` has a composition with this total. */
  ghost predicate HasTotal(signs: seq<CuneiformSign>, total: int)
  {
    exists i :: 0 <= i < |signs| && TotalIs(total)(signs[i])
  }

  /** What a grouping of `signs` must be: one non-empty group per total, holding the signs with that total in order. */
  ghost predicate GroupsOf(groups: map<int, seq<CuneiformSign>>, signs: seq<CuneiformSign>)
  {
    (forall total :: total in groups <==> HasTotal(signs, total)) &&
    (forall total :: total in groups ==> groups[total] == Filter(signs, TotalIs(total)))
  }

  /** The wedge totals of the signs that have a composition, in catalog order. */
  function TotalsOf(signs: seq<CuneiformSign>): seq<int>
  {
    if |signs| == 0 then []
    else
      var last := signs[|signs| - 1];
      TotalsOf(signs[..|signs| - 1])
      + (if last.wedgeComposition.Some? then [GetTotalWedges(last.wedgeComposition.value)] else [])
  }

  /**
   * What the grouping loop keeps after the signs `signs`: the groups, and
   * their keys in the order they were first set, each once.
   */
  ghost predicate Grouped(groups: map<int, seq<CuneiformSign>>, order: seq<int>, signs: seq<CuneiformSign>)
  {
    GroupsOf(groups, signs)
    && order == Collections.SetFrom(TotalsOf(signs))
    && Collections.Elements(order) == groups.Keys
  }

  /**
   * `groupSignsByWedgeCount`: fills a map from total wedge count to the
   * signs with it. The JavaScript `Map` also remembers the order in which
   * its keys were first set; `order` is that key order, the totals as
   * `new Set` would collect them from the catalog.
   */
  method GroupSignsByWedgeCount(catalog: seq<CuneiformSign>)
    returns (groups: map<int, seq<CuneiformSign>>, order: seq<int>)
    ensures GroupsOf(groups, catalog)
    ensures order == Collections.SetFrom(TotalsOf(catalog))
    ensures Collections.Distinct(order) && Collections.Elements(order) == groups.Keys
  {
    groups := map[];
    order := [];
    var i := 0;
    while i < |catalog|
      invariant 0 <= i <= |catalog|
      invariant Grouped(groups, order, catalog[..i])
    {
      var sign := catalog[i];
      assert catalog[..i + 1] == catalog[..i] + [sign];
      ghost var before, beforeOrder := groups, order;
      if sign.wedgeComposition.Some? {
        var total := GetTotalWedges(sign.wedgeComposition.value);
        if total !in groups {
          groups := groups[total := []];
          order := order + [total];
        }
        groups := groups[total := groups[total] + [sign]];
      }
      GroupedStep(before, beforeOrder, catalog[..i], sign);
      assert groups == GroupAdd(before, sign) && order == OrderAdd(beforeOrder, before, sign);
      i := i + 1;
    }
    assert catalog[..i] == catalog;
    Collections.SetFromElements(TotalsOf(catalog));
  }

  /** One step of the loop on the key order: a total no group has yet is appended. */
  function OrderAdd(order: seq<int>, groups: map<int, seq<CuneiformSign>>, sign: CuneiformSign): seq<int>
  {
    if sign.wedgeComposition.None? then order
    else
      var total := GetTotalWedges(sign.wedgeComposition.value);
      if total in groups then order else order + [total]
  }

  /** The loop step keeps the loop's invariant. */
  lemma GroupedStep(groups: map<int, seq<CuneiformSign>>, order: seq<int>, signs: seq<CuneiformSign>, sign: CuneiformSign)
    requires Grouped(groups, order, signs)
    ensures Grouped(GroupAdd(groups, sign), OrderAdd(order, groups, sign), signs + [sign])
  {
    GroupStep(groups, signs, sign);
    OrderStep(order, groups, signs, sign);
  }

  /** The key order after one more sign: its total is appended when it is new. */
  lemma OrderStep(order: seq<int>, groups: map<int, seq<CuneiformSign>>, signs: seq<CuneiformSign>, sign: CuneiformSign)
    requires order == Collections.SetFrom(TotalsOf(signs)) && Collections.Elements(order) == groups.Keys
    ensures var order' := Collections.SetFrom(TotalsOf(signs + [sign]));
      Collections.Elements(order') == GroupAdd(groups, sign).Keys
      && (sign.wedgeComposition.None? ==> order' == order)
      && (sign.wedgeComposition.Some? ==>
            var total := GetTotalWedges(sign.wedgeComposition.value);
            order' == if total in groups then order else order + [total])
  {
    var signs' := signs + [sign];
    assert signs'[..|signs|] == signs && signs'[|signs|] == sign;
    if sign.wedgeComposition.Some? {
      var total := GetTotalWedges(sign.wedgeComposition.value);
      assert TotalsOf(signs') == TotalsOf(signs) + [total];
      Collections.SetFromSnoc(TotalsOf(signs), total);
    } else {
      assert TotalsOf(signs') == TotalsOf(signs) + [];
      assert TotalsOf(signs) + [] == TotalsOf(signs);
    }
  }

  /** The totals of a prefix of the catalog are a prefix of the catalog's totals. */
  lemma {:induction false} TotalsOfPrefix(signs: seq<CuneiformSign>, n: nat)
    requires n <= |signs|
    ensures TotalsOf(signs[..n]) <= TotalsOf(signs)
    decreases |signs|
  {
    if n < |signs| {
      var init := signs[..|signs| - 1];
      assert init[..n] == signs[..n];
      TotalsOfPrefix(init, n);
    } else {
      assert signs[..n] == signs;
    }
  }

  /**
   * The groups' keys come in first-seen order: the keys met in the first
   * `n` signs of the catalog are, in their own first-seen order, the first
   * keys of the whole grouping.
   */
  lemma KeyOrderFirstSeen(catalog: seq<CuneiformSign>, n: nat)
    requires n <= |catalog|
    ensures Collections.SetFrom(TotalsOf(catalog[..n])) <= Collections.SetFrom(TotalsOf(catalog))
  {
    var all := TotalsOf(catalog);
    TotalsOfPrefix(catalog, n);
    var m := |TotalsOf(catalog[..n])|;
    assert TotalsOf(catalog[..n]) == all[..m];
    Collections.SetFromPrefix(all, m);
  }

  /** The loop step: the map after handling `sign` groups `signs + [sign]`. */
  lemma GroupStep(groups: map<int, seq<CuneiformSign>>, signs: seq<CuneiformSign>, sign: CuneiformSign)
    requires GroupsOf(groups, signs)
    ensures GroupsOf(GroupAdd(groups, sign), signs + [sign])
  {
    var g := GroupAdd(groups, sign);
    forall total
      ensures total in g <==> HasTotal(signs + [sign], total)
      ensures total in g ==> g[total] == Filter(signs + [sign], TotalIs(total))
    {
      FilterAppend(signs, [sign], TotalIs(total));
      if HasTotal(signs, total) {
        var i :| 0 <= i < |signs| && TotalIs(total)(signs[i]);
        assert (signs + [sign])[i] == signs[i];
      }
      if HasTotal(signs + [sign], total) && !TotalIs(total)(sign) {
        var i :| 0 <= i < |signs + [sign]| && TotalIs(total)(
          (signs + [sign])[i]);
        assert i < |signs| && signs[i] == (signs + [sign])[i];
      }
      if !HasTotal(signs, total) {
        FilterNone(signs, TotalIs(total));
      }
      if TotalIs(total)(sign) {
        assert (signs + [sign])[|signs|] == sign;
      }
    }
  }

  /** One step of the grouping loop, as a function of the map before it. */
  function GroupAdd(groups: map<int, seq<CuneiformSign>>, sign: CuneiformSign): map<int, seq<CuneiformSign>>
  {
    if sign.wedgeComposition.None? then groups
    else
      var total := GetTotalWedges(sign.wedgeComposition.value);
      groups[total := (if total in groups then groups[total] else []) + [sign]]
  }

  /** Every sign with a composition is in exactly one group: the one keyed by its total. */
  lemma GroupsPartition(groups: map<int, seq<CuneiformSign>>, signs: seq<CuneiformSign>, x: CuneiformSign, total: int)
    requires GroupsOf(groups, signs)
    ensures total in groups && x in groups[total] <==>
      x in signs && x.wedgeComposition.Some? && GetTotalWedges(x.wedgeComposition.value) == total
  {
    FilterMembers(signs, TotalIs(total), x);
    if x in signs && TotalIs(total)(x) {
      var i :| 0 <= i < |signs| && signs[i] == x;
      assert HasTotal(signs, total);
    }
  }

  // ---------------------------------------------------------------------
  // Ranked search
  // ---------------------------------------------------------------------

  datatype SignSearchResult = SignSearchResult(sign: CuneiformSign, matchScore: real)

  /**
   * The results pushed by the search loop over `signs`: one per matching
   * sign, in order, scored by similarity to `filter`.
   */
  function Candidates(signs: seq<CuneiformSign>, filter: WedgeComposition, tolerance: int): seq<SignSearchResult>
  {
    if |signs| == 0 then []
    else
      var last := signs[|signs| - 1];
      Candidates(signs[..|signs| - 1], filter, tolerance) +
        (if SignMatches(filter, tolerance)(last)
         then [SignSearchResult(last, WedgeSimilarity(last.wedgeComposition.value, filter))]
         else [])
  }

  function SignOf(r: SignSearchResult): CuneiformSign { r.sign }

  /** The candidates are the matching signs, each scored by its similarity. */
  lemma {:induction false} CandidatesSpec(signs: seq<CuneiformSign>, filter: WedgeComposition, tolerance: int)
    ensures Map(SignOf, Candidates(signs, filter, tolerance)) == MatchByWedges(signs, filter, tolerance)
    ensures forall i :: 0 <= i < |Candidates(signs, filter, tolerance)| ==>
      var c := Candidates(signs, filter, tolerance)[i];
      c.sign.wedgeComposition.Some? && c.matchScore == WedgeSimilarity(c.sign.wedgeComposition.value, filter)
  {
    if |signs| > 0 {
      var init, last := signs[..|signs| - 1], signs[|signs| - 1];
      CandidatesSpec(init, filter, tolerance);
      assert signs == init + [last];
      MatchByWedgesSpec(init, filter, tolerance, last);
    }
  }

  /** Non-increasing by score. */
  predicate SortedByScore(rs: seq<SignSearchResult>)
  {
    forall i, j :: 0 <= i < j < |rs| ==> rs[i].matchScore >= rs[j].matchScore
  }

  /** Inserts `x` after every result scoring at least as much, so ties keep arrival order. */
  function InsertByScore(rs: seq<SignSearchResult>, x: SignSearchResult): (r: seq<SignSearchResult>)
    ensures |r| == |rs| + 1
  {
    if |rs| == 0 then [x]
    else if rs[0].matchScore >= x.matchScore then [rs[0]] + InsertByScore(rs[1..], x)
    else [x] + rs
  }

  /**
   * The stable sort `results.sort((a, b) => b.matchScore - a.matchScore)`,
   * as insertion of each result in turn.
   */
  function SortByScore(rs: seq<SignSearchResult>): (r: seq<SignSearchResult>)
    ensures |r| == |rs|
  {
    if |rs| == 0 then [] else InsertByScore(SortByScore(rs[..|rs| - 1]), rs[|rs| - 1])
  }

  function ScoreIs(v: real): SignSearchResult -> bool
  {
    (r: SignSearchResult) => r.matchScore == v
  }

  /** Insertion adds exactly `x` to the results. */
  lemma {:induction false} InsertByScorePermutes(rs: seq<SignSearchResult>, x: SignSearchResult)
    ensures multiset(InsertByScore(rs, x)) == multiset(rs) + multiset{x}
  {
    if |rs| > 0 && rs[0].matchScore >= x.matchScore {
      InsertByScorePermutes(rs[1..], x);
      assert rs == [rs[0]] + rs[1..];
    }
  }

  /** Insertion into a non-increasing sequence keeps it non-increasing. */
  lemma {:induction false} InsertByScoreSorted(rs: seq<SignSearchResult>, x: SignSearchResult)
    requires SortedByScore(rs)
    ensures SortedByScore(InsertByScore(rs, x))
  {
    var r := InsertByScore(rs, x);
    if |rs| > 0 && rs[0].matchScore >= x.matchScore {
      var rest := InsertByScore(rs[1..], x);
      InsertByScoreSorted(rs[1..], x);
      InsertByScorePermutes(rs[1..], x);
      assert r == [rs[0]] + rest;
      forall j | 0 < j < |r| ensures r[0].matchScore >= r[j].matchScore {
        assert r[j] == rest[j - 1];
        assert r[j] in multiset(rs[1..]) + multiset{x};
        if r[j] != x {
          assert r[j] in rs[1..];
        }
      }
    }
  }

  /** Insertion places `x` after every result of its own score. */
  lemma {:induction false} InsertByScoreStable(rs: seq<SignSearchResult>, x: SignSearchResult, v: real)
    requires SortedByScore(rs)
    ensures Filter(InsertByScore(rs, x), ScoreIs(v)) == Filter(rs, ScoreIs(v)) + Filter([x], ScoreIs(v))
  {
    if |rs| == 0 {
    } else if rs[0].matchScore >= x.matchScore {
      var rest := InsertByScore(rs[1..], x);
      InsertByScoreStable(rs[1..], x, v);
      assert InsertByScore(rs, x) == [rs[0]] + rest;
      assert rs == [rs[0]] + rs[1..];
      FilterAppend([rs[0]], rest, ScoreIs(v));
      FilterAppend([rs[0]], rs[1..], ScoreIs(v));
    } else {
      FilterAppend([x], rs, ScoreIs(v));
      if x.matchScore == v {
        forall j | 0 <= j < |rs| ensures !ScoreIs(v)(rs[j]) {
          assert rs[0].matchScore >= rs[j].matchScore;
        }
        FilterNone(rs, ScoreIs(v));
      }
    }
  }

  /**
   * Sorting by score gives a non-increasing permutation in which the results
   * of each score keep their original relative order (stability).
   */
  lemma SortByScoreSpec(rs: seq<SignSearchResult>, v: real)
    ensures SortedByScore(SortByScore(rs))
    ensures multiset(SortByScore(rs)) == multiset(rs)
    ensures Filter(SortByScore(rs), ScoreIs(v)) == Filter(rs, ScoreIs(v))
  {
    SortByScoreSorted(rs);
    SortByScorePermutes(rs);
    SortByScoreStable(rs, v);
  }

  /** The sort is non-increasing by score. */
  lemma {:induction false} SortByScoreSorted(rs: seq<SignSearchResult>)
    ensures SortedByScore(SortByScore(rs))
  {
    if |rs| > 0 {
      var init := rs[..|rs| - 1];
      SortByScoreSorted(init);
      InsertByScoreSorted(SortByScore(init), rs[|rs| - 1]);
    }
  }

  /** The sort is a permutation. */
  lemma {:induction false} SortByScorePermutes(rs: seq<SignSearchResult>)
    ensures multiset(SortByScore(rs)) == multiset(rs)
  {
    if |rs| > 0 {
      var init, last := rs[..|rs| - 1], rs[|rs| - 1];
      SortByScorePermutes(init);
      InsertByScorePermutes(SortByScore(init), last);
      LastSplit(rs);
    }
  }

  /** The sort keeps the results of each score in their original order. */
  lemma {:induction false} SortByScoreStable(rs: seq<SignSearchResult>, v: real)
    ensures Filter(SortByScore(rs), ScoreIs(v)) == Filter(rs, ScoreIs(v))
  {
    if |rs| > 0 {
      var init, last := rs[..|rs| - 1], rs[|rs| - 1];
      SortByScoreStable(init, v);
      SortByScoreSorted(init);
      InsertByScoreStable(SortByScore(init), last, v);
      LastSplit(rs);
      FilterAppend(init, [last], ScoreIs(v));
    }
  }

  /**
   * `findSignsByWedges`: pushes a scored result for each matching sign, then
   * sorts by score, highest first.
   */
  method FindSignsByWedges(catalog: seq<CuneiformSign>, filter: WedgeComposition, tolerance: int)
    returns (results: seq<SignSearchResult>)
    ensures results == SortByScore(Candidates(catalog, filter, tolerance))
  {
    var found: seq<SignSearchResult> := [];
    var i := 0;
    while i < |catalog|
      invariant 0 <= i <= |catalog|
      invariant found == Candidates(catalog[..i], filter, tolerance)
    {
      var sign := catalog[i];
      assert catalog[..i + 1][..i] == catalog[..i];
      if sign.wedgeComposition.Some? {
        var toleranceObj := Uniform(tolerance);
        if WedgeCompositionsMatch(sign.wedgeComposition.value, filter, toleranceObj) {
          found := found + [SignSearchResult(sign, WedgeSimilarity(sign.wedgeComposition.value, filter))];
        }
      }
      i := i + 1;
    }
    assert catalog[..i] == catalog;
    results := SortByScore(found);
  }

  /**
   * The ranked search returns every matching sign once, scored by its
   * similarity, highest score first, ties in catalog order.
   */
  lemma FindSignsByWedgesSpec(catalog: seq<CuneiformSign>, filter: WedgeComposition, tolerance: int, v: real)
    ensures var r := SortByScore(Candidates(catalog, filter, tolerance));
      SortedByScore(r) &&
      multiset(r) == multiset(Candidates(catalog, filter, tolerance)) &&
      Map(SignOf, Candidates(catalog, filter, tolerance)) == MatchByWedges(catalog, filter, tolerance) &&
      Filter(r, ScoreIs(v)) == Filter(Candidates(catalog, filter, tolerance), ScoreIs(v)) &&
      forall i :: 0 <= i < |r| ==>
        r[i].sign.wedgeComposition.Some? && r[i].matchScore == WedgeSimilarity(r[i].sign.wedgeComposition.value, filter)
  {
    var c := Candidates(catalog, filter, tolerance);
    var r := SortByScore(c);
    CandidatesSpec(catalog, filter, tolerance);
    SortByScoreSpec(c, v);
    forall i | 0 <= i < |r|
      ensures r[i].sign.wedgeComposition.Some? && r[i].matchScore == WedgeSimilarity(r[i].sign.wedgeComposition.value, filter)
    {
      assert r[i] in multiset(c);
      assert r[i] in c;
    }
  }
}
