/**
 * The read-mode state, `src/lib/stores/reader.svelte.ts`: an uploaded
 * tablet photo, a selected region, and the wedge-count filter whose
 * candidate signs are ranked by the wedge matcher.
 *
 * Zoom, pan and the image-enhancement settings are not modelled, so the
 * methods that also reset them are modelled for their other effects.
 */
module ReaderState {
  import opened Seqs
  import opened Signs
  import opened WedgeMatch

  datatype Dimensions = Dimensions(width: real, height: real)

  datatype SelectionRegion = SelectionRegion(x: real, y: real, w: real, h: real)

  /** A `Partial<WedgeComposition>`: the counts to overwrite; `None` keeps the current one. */
  datatype PartialComposition = PartialComposition(
    horizontal: Option<int>,
    vertical: Option<int>,
    oblique: Option<int>,
    winkelhaken: Option<int>)

  /** `{ ...c, ...partial }`. */
  function Merge(c: WedgeComposition, partial: PartialComposition): (r: WedgeComposition)
    ensures r.horizontal == if partial.horizontal.Some? then partial.horizontal.value else c.horizontal
    ensures r.vertical == if partial.vertical.Some? then partial.vertical.value else c.vertical
    ensures r.oblique == if partial.oblique.Some? then partial.oblique.value else c.oblique
    ensures r.winkelhaken == if partial.winkelhaken.Some? then partial.winkelhaken.value else c.winkelhaken
  {
    WedgeComposition(
      Override(c.horizontal, partial.horizontal),
      Override(c.vertical, partial.vertical),
      Override(c.oblique, partial.oblique),
      Override(c.winkelhaken, partial.winkelhaken))
  }

  function Override(current: int, given: Option<int>): int
  {
    match given
    case None => current
    case Some(n) => n
  }

  /** `incrementWedge`: one more wedge of the kind. */
  function Incremented(c: WedgeComposition, t: WedgeType): (r: WedgeComposition)
    ensures CountOf(r, t) == CountOf(c, t) + 1
    ensures forall u :: u != t ==> CountOf(r, u) == CountOf(c, u)
    ensures NonNegative(c) ==> NonNegative(r)
  {
    WithCount(c, t, CountOf(c, t) + 1)
  }

  /** `decrementWedge`: one fewer wedge of the kind, never below zero. */
  function Decremented(c: WedgeComposition, t: WedgeType): (r: WedgeComposition)
    ensures CountOf(r, t) == Max(0, CountOf(c, t) - 1)
    ensures forall u :: u != t ==> CountOf(r, u) == CountOf(c, u)
    ensures NonNegative(c) ==> NonNegative(r)
  {
    WithCount(c, t, Max(0, CountOf(c, t) - 1))
  }

  /** A composition is fixed by its four counts. */
  lemma CountsDetermine(a: WedgeComposition, b: WedgeComposition)
    requires forall t :: CountOf(a, t) == CountOf(b, t)
    ensures a == b
  {
    assert CountOf(a, HorizontalWedge) == CountOf(b, HorizontalWedge);
    assert CountOf(a, VerticalWedge) == CountOf(b, VerticalWedge);
    assert CountOf(a, ObliqueWedge) == CountOf(b, ObliqueWedge);
    assert CountOf(a, WinkelhakenWedge) == CountOf(b, WinkelhakenWedge);
  }

  /**
   * Decrementing undoes an increment of a count that was not negative, and
   * a zero count stays at zero.
   */
  lemma IncrementDecrement(c: WedgeComposition, t: WedgeType)
    ensures CountOf(c, t) >= 0 ==> Decremented(Incremented(c, t), t) == c
    ensures CountOf(c, t) == 0 ==> Decremented(c, t) == c
  {
    if CountOf(c, t) >= 0 {
      CountsDetermine(Decremented(Incremented(c, t), t), c);
    }
    if CountOf(c, t) == 0 {
      CountsDetermine(Decremented(c, t), c);
    }
  }

  /** `Math.max(0, Math.min(3, tolerance))`. */
  function ClampTolerance(tolerance: int): (r: int)
    ensures 0 <= r <= 3
    ensures 0 <= tolerance <= 3 ==> r == tolerance
    ensures tolerance < 0 ==> r == 0
    ensures tolerance > 3 ==> r == 3
  {
    Max(0, Min(3, tolerance))
  }

  class ReaderStore {
    var uploadedImage: Option<string>
    var imageDimensions: Option<Dimensions>
    var selectedRegion: Option<SelectionRegion>
    var wedgeFilter: WedgeComposition
    var matchTolerance: int
    var selectedSign: Option<CuneiformSign>
    var isSelecting: bool

    /** The tolerance stays within the range `setTolerance` allows. */
    predicate Valid()
      reads this
    {
      0 <= matchTolerance <= 3
    }

    constructor()
      ensures Valid()
      ensures uploadedImage == None && imageDimensions == None && selectedRegion == None
      ensures wedgeFilter == CreateEmptyFilter() && matchTolerance == 1
      ensures selectedSign == None && !isSelecting
    {
      uploadedImage := None;
      imageDimensions := None;
      selectedRegion := None;
      wedgeFilter := CreateEmptyFilter();
      matchTolerance := 1;
      selectedSign := None;
      isSelecting := false;
    }

    /**
     * `candidateSigns`: nothing while the filter counts no wedges; otherwise
     * the catalogue's signs that match the filter within the tolerance,
     * ranked by similarity, highest first.
     */
    function CandidateSigns(): (r: seq<SignSearchResult>)
      reads this
      requires Valid()
      ensures GetTotalWedges(wedgeFilter) == 0 ==> r == []
      ensures SortedByScore(r)
      ensures GetTotalWedges(wedgeFilter) != 0 ==>
        multiset(r) == multiset(Candidates(SIGNS, wedgeFilter, matchTolerance)) &&
        Map(SignOf, Candidates(SIGNS, wedgeFilter, matchTolerance)) == MatchByWedges(SIGNS, wedgeFilter, matchTolerance)
    {
      if GetTotalWedges(wedgeFilter) == 0 then []
      else
        FindSignsByWedgesSpec(SIGNS, wedgeFilter, matchTolerance, 0.0);
        SortByScore(Candidates(SIGNS, wedgeFilter, matchTolerance))
    }

    /** `filterByWedges`: computes the candidates with the ranked search. */
    method FilterByWedges() returns (results: seq<SignSearchResult>)
      requires Valid()
      ensures results == CandidateSigns()
    {
      var total := wedgeFilter.horizontal + wedgeFilter.vertical + wedgeFilter.oblique + wedgeFilter.winkelhaken;
      if total == 0 {
        return [];
      }
      results := FindSignsByWedges(SIGNS, wedgeFilter, matchTolerance);
    }

    /** `uploadImage`: shows the new image with the selection cleared. */
    method UploadImage(dataUrl: string, width: real, height: real)
      requires Valid()
      modifies this
      ensures Valid()
      ensures uploadedImage == Some(dataUrl) && imageDimensions == Some(Dimensions(width, height))
      ensures selectedRegion == None && selectedSign == None
      ensures wedgeFilter == old(wedgeFilter) && matchTolerance == old(matchTolerance) && isSelecting == old(isSelecting)
    {
      uploadedImage := Some(dataUrl);
      imageDimensions := Some(Dimensions(width, height));
      ResetView();
    }

    /** `resetView`: clears the selected region and sign. */
    method ResetView()
      requires Valid()
      modifies this
      ensures Valid()
      ensures selectedRegion == None && selectedSign == None
      ensures uploadedImage == old(uploadedImage) && imageDimensions == old(imageDimensions)
      ensures wedgeFilter == old(wedgeFilter) && matchTolerance == old(matchTolerance) && isSelecting == old(isSelecting)
    {
      selectedRegion := None;
      selectedSign := None;
    }

    /** `setSelection`. */
    method SetSelection(region: Option<SelectionRegion>)
      requires Valid()
      modifies this
      ensures Valid()
      ensures selectedRegion == region
      ensures uploadedImage == old(uploadedImage) && imageDimensions == old(imageDimensions) && selectedSign == old(selectedSign)
      ensures wedgeFilter == old(wedgeFilter) && matchTolerance == old(matchTolerance) && isSelecting == old(isSelecting)
    {
      selectedRegion := region;
    }

    /** `setWedgeFilter`: overwrites the counts given, keeps the others. */
    method SetWedgeFilter(filter: PartialComposition)
      requires Valid()
      modifies this
      ensures Valid()
      ensures wedgeFilter == Merge(old(wedgeFilter), filter)
      ensures uploadedImage == old(uploadedImage) && imageDimensions == old(imageDimensions)
      ensures selectedRegion == old(selectedRegion) && selectedSign == old(selectedSign)
      ensures matchTolerance == old(matchTolerance) && isSelecting == old(isSelecting)
    {
      wedgeFilter := Merge(wedgeFilter, filter);
    }

    /** `incrementWedge`. */
    method IncrementWedge(t: WedgeType)
      requires Valid()
      modifies this
      ensures Valid()
      ensures wedgeFilter == Incremented(old(wedgeFilter), t)
      ensures uploadedImage == old(uploadedImage) && imageDimensions == old(imageDimensions)
      ensures selectedRegion == old(selectedRegion) && selectedSign == old(selectedSign)
      ensures matchTolerance == old(matchTolerance) && isSelecting == old(isSelecting)
    {
      wedgeFilter := WithCount(wedgeFilter, t, CountOf(wedgeFilter, t) + 1);
    }

    /** `decrementWedge`. */
    method DecrementWedge(t: WedgeType)
      requires Valid()
      modifies this
      ensures Valid()
      ensures wedgeFilter == Decremented(old(wedgeFilter), t)
      ensures uploadedImage == old(uploadedImage) && imageDimensions == old(imageDimensions)
      ensures selectedRegion == old(selectedRegion) && selectedSign == old(selectedSign)
      ensures matchTolerance == old(matchTolerance) && isSelecting == old(isSelecting)
    {
      wedgeFilter := WithCount(wedgeFilter, t, Max(0, CountOf(wedgeFilter, t) - 1));
    }

    /** `resetWedgeFilter`: afterwards there are no candidates. */
    method ResetWedgeFilter()
      requires Valid()
      modifies this
      ensures Valid()
      ensures wedgeFilter == CreateEmptyFilter()
      ensures CandidateSigns() == []
      ensures uploadedImage == old(uploadedImage) && imageDimensions == old(imageDimensions)
      ensures selectedRegion == old(selectedRegion) && selectedSign == old(selectedSign)
      ensures matchTolerance == old(matchTolerance) && isSelecting == old(isSelecting)
    {
      wedgeFilter := CreateEmptyFilter();
    }

    /** `setTolerance`: clamps to [0, 3]. */
    method SetTolerance(tolerance: int)
      modifies this
      ensures Valid()
      ensures matchTolerance == ClampTolerance(tolerance)
      ensures uploadedImage == old(uploadedImage) && imageDimensions == old(imageDimensions)
      ensures selectedRegion == old(selectedRegion) && selectedSign == old(selectedSign)
      ensures wedgeFilter == old(wedgeFilter) && isSelecting == old(isSelecting)
    {
      matchTolerance := Max(0, Min(3, tolerance));
    }

    /** `selectSign`. */
    method SelectSign(sign: Option<CuneiformSign>)
      requires Valid()
      modifies this
      ensures Valid()
      ensures selectedSign == sign
      ensures uploadedImage == old(uploadedImage) && imageDimensions == old(imageDimensions) && selectedRegion == old(selectedRegion)
      ensures wedgeFilter == old(wedgeFilter) && matchTolerance == old(matchTolerance) && isSelecting == old(isSelecting)
    {
      selectedSign := sign;
    }

    /** `reset`: no image, no selection, an empty wedge filter; the tolerance is kept. */
    method Reset()
      requires Valid()
      modifies this
      ensures Valid()
      ensures uploadedImage == None && imageDimensions == None
      ensures selectedRegion == None && selectedSign == None
      ensures wedgeFilter == CreateEmptyFilter() && CandidateSigns() == []
      ensures matchTolerance == old(matchTolerance) && isSelecting == old(isSelecting)
    {
      uploadedImage := None;
      imageDimensions := None;
      ResetView();
      ResetWedgeFilter();
    }
  }
}
