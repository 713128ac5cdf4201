/**
 * The shared sign-database state, `src/lib/stores/signs.svelte.ts`: the
 * catalogue, a category filter and a search box, and the list of signs
 * they leave visible.
 */
module SignsState {
  import opened Seqs
  import opened Text
  import opened Signs

  /**
   * The search test for one sign against an already lower-cased, trimmed
   * query: its name or some reading contains the query, some meaning does,
   * or its character is the query itself.
   */
  predicate QueryMatches(sign: CuneiformSign, query: string)
  {
    Contains(ToLower(sign.name), query) ||
    (exists k :: 0 <= k < |sign.readings| && Contains(ToLower(sign.readings[k].value), query)) ||
    HasMeaning(sign, query) ||
    sign.character == query
  }

  function InCategory(category: Category): CuneiformSign -> bool
  {
    (s: CuneiformSign) => s.category == category
  }

  function MatchesQuery(query: string): CuneiformSign -> bool
  {
    (s: CuneiformSign) => QueryMatches(s, query)
  }

  /** `filteredSigns`: the category filter first, then, for a non-blank search, the query filter. */
  function FilterSigns(signs: seq<CuneiformSign>, category: Option<Category>, searchQuery: string): (r: seq<CuneiformSign>)
    ensures |r| <= |signs|
  {
    var byCategory := if category.Some? then Filter(signs, InCategory(category.value)) else signs;
    if Trim(searchQuery) != "" then Filter(byCategory, MatchesQuery(Trim(ToLower(searchQuery)))) else byCategory
  }

  /** Whether a sign passes both filters. */
  predicate Visible(sign: CuneiformSign, category: Option<Category>, searchQuery: string)
  {
    (category.None? || sign.category == category.value) &&
    (Trim(searchQuery) == "" || QueryMatches(sign, Trim(ToLower(searchQuery))))
  }

  function VisibleIn(category: Option<Category>, searchQuery: string): CuneiformSign -> bool
  {
    (s: CuneiformSign) => Visible(s, category, searchQuery)
  }

  /**
   * The visible signs are the catalogue filtered once by both tests, so they
   * keep the catalogue's order, and a sign is shown exactly when it is in
   * the catalogue and passes both.
   */
  lemma FilterSignsSpec(signs: seq<CuneiformSign>, category: Option<Category>, searchQuery: string, sign: CuneiformSign)
    ensures FilterSigns(signs, category, searchQuery) == Filter(signs, VisibleIn(category, searchQuery))
    ensures sign in FilterSigns(signs, category, searchQuery) <==> sign in signs && Visible(sign, category, searchQuery)
  {
    FilterSignsOnce(signs, category, searchQuery);
    FilterMembers(signs, VisibleIn(category, searchQuery), sign);
  }

  lemma FilterSignsOnce(signs: seq<CuneiformSign>, category: Option<Category>, searchQuery: string)
    ensures FilterSigns(signs, category, searchQuery) == Filter(signs, VisibleIn(category, searchQuery))
  {
    var q := MatchesQuery(Trim(ToLower(searchQuery)));
    var v := VisibleIn(category, searchQuery);
    if category.Some? {
      var c := InCategory(category.value);
      if Trim(searchQuery) != "" {
        FilterFilter(signs, c, q);
        FilterExt(signs, Both(c, q), v);
      } else {
        FilterExt(signs, c, v);
      }
    } else if Trim(searchQuery) != "" {
      FilterExt(signs, q, v);
    } else {
      FilterAll(signs, v);
    }
  }

  /** With no category and a blank query, every sign is shown. */
  lemma NoFilterShowsAll(signs: seq<CuneiformSign>, searchQuery: string)
    requires Trim(searchQuery) == ""
    ensures FilterSigns(signs, None, searchQuery) == signs
  {
  }

  /** Upper- or lower-casing the search box changes nothing: the search ignores ASCII case. */
  lemma SearchIgnoresCase(signs: seq<CuneiformSign>, category: Option<Category>, searchQuery: string)
    ensures FilterSigns(signs, category, ToUpper(searchQuery)) == FilterSigns(signs, category, searchQuery)
  {
    CaseFoldsAgree(searchQuery);
    TrimBlankIgnoresCase(searchQuery);
  }

  /** Upper-casing keeps a blank string blank and a non-blank one non-blank. */
  lemma TrimBlankIgnoresCase(s: string)
    ensures Trim(ToUpper(s)) == "" <==> Trim(s) == ""
  {
    TrimEmptyIffNoWords(s);
    TrimEmptyIffNoWords(ToUpper(s));
    WordsEmptyIffBlank(s);
    WordsEmptyIffBlank(ToUpper(s));
    assert AllSpace(s) <==> AllSpace(ToUpper(s)) by {
      forall i | 0 <= i < |s|
        ensures IsSpace(s[i]) <==> IsSpace(ToUpper(s)[i])
      {
      }
    }
  }

  class SignsStore {
    var allSigns: seq<CuneiformSign>
    var categoryFilter: Option<Category>
    var searchQuery: string

    constructor()
      ensures allSigns == SIGNS && categoryFilter == None && searchQuery == ""
      ensures FilteredSigns() == SIGNS
    {
      allSigns := SIGNS;
      categoryFilter := None;
      searchQuery := "";
      NoFilterShowsAll(SIGNS, "");
    }

    /** `filteredSigns`. */
    function FilteredSigns(): (r: seq<CuneiformSign>)
      reads this
      ensures forall i :: 0 <= i < |r| ==> r[i] in allSigns && Visible(r[i], categoryFilter, searchQuery)
    {
      var r := FilterSigns(allSigns, categoryFilter, searchQuery);
      assert forall i :: 0 <= i < |r| ==> r[i] in allSigns && Visible(r[i], categoryFilter, searchQuery) by {
        forall i | 0 <= i < |r|
          ensures r[i] in allSigns && Visible(r[i], categoryFilter, searchQuery)
        {
          FilterSignsSpec(allSigns, categoryFilter, searchQuery, r[i]);
        }
      }
      r
    }

    /** `totalCount`. */
    function TotalCount(): (n: nat)
      reads this
      ensures n == |allSigns|
    {
      |allSigns|
    }

    /** `filteredCount`: never more than the total. */
    function FilteredCount(): (n: nat)
      reads this
      ensures n <= TotalCount()
    {
      |FilteredSigns()|
    }

    /** `setCategory`. */
    method SetCategory(category: Option<Category>)
      modifies this
      ensures categoryFilter == category
      ensures allSigns == old(allSigns) && searchQuery == old(searchQuery)
    {
      categoryFilter := category;
    }

    /** `setSearch`. */
    method SetSearch(query: string)
      modifies this
      ensures searchQuery == query
      ensures allSigns == old(allSigns) && categoryFilter == old(categoryFilter)
    {
      searchQuery := query;
    }

    /** `clearFilters`: afterwards every sign is visible again. */
    method ClearFilters()
      modifies this
      ensures categoryFilter == None && searchQuery == ""
      ensures allSigns == old(allSigns)
      ensures FilteredSigns() == allSigns
    {
      categoryFilter := None;
      searchQuery := "";
      NoFilterShowsAll(allSigns, "");
    }

    /** `getByCategory`: looks up the whole catalogue, whatever the filters. */
    function GetByCategory(category: Category): (r: seq<CuneiformSign>)
      ensures forall i :: 0 <= i < |r| ==> r[i].category == category
    {
      var r := GetSignsByCategory(SIGNS, CategoryName(category));
      assert forall i :: 0 <= i < |r| ==> r[i].category == category by {
        forall i | 0 <= i < |r|
          ensures r[i].category == category
        {
          CategoryNameInjective(r[i].category, category);
        }
      }
      r
    }

    /** `getByReading`: looks up the whole catalogue, whatever the filters. */
    function GetByReading(reading: string): (r: seq<CuneiformSign>)
      ensures forall i :: 0 <= i < |r| ==> HasReading(r[i], ToLower(reading))
    {
      GetSignsByReading(SIGNS, reading)
    }

    /** `searchByMeaning`: searches the whole catalogue, whatever the filters. */
    function SearchByMeaning(query: string): (r: seq<CuneiformSign>)
      ensures forall i :: 0 <= i < |r| ==> HasMeaning(r[i], ToLower(query))
    {
      SearchSignsByMeaning(SIGNS, query)
    }
  }
}
