/**
 * The pager and zoom of `PDFViewer`. The zoom factor moves in steps of 0.25
 * between 0.5 and 3.0; it is kept here as a whole number of quarters, so
 * 1.0 is 4, 0.5 is 2 and 3.0 is 12, and every step is exact.
 */
module PdfViewer {
  import opened Wrappers

  const MinScaleQuarters: int := 2
  const MaxScaleQuarters: int := 12
  const InitialScaleQuarters: int := 4
  const LoadErrorMessage: string := "Failed to load PDF document"

  /** `goToPrevPage`: one page back, never below page 1. */
  function PrevPage(page: int): (r: int)
    ensures r >= 1 && r <= (if page >= 2 then page else 1)
    ensures page >= 2 ==> r == page - 1
  {
    if page - 1 > 1 then page - 1 else 1
  }

  /** `goToNextPage`: one page on, never beyond the last page. */
  function NextPage(page: int, numPages: int): (r: int)
    ensures r <= numPages && r <= page + 1
    ensures page < numPages ==> r == page + 1
    ensures page >= numPages ==> r == numPages
  {
    if page + 1 < numPages then page + 1 else numPages
  }

  /** `zoomIn`: a quarter more, at most 3.0. */
  function ZoomIn(quarters: int): (r: int)
    ensures r <= MaxScaleQuarters
    ensures quarters < MaxScaleQuarters ==> r == quarters + 1
    ensures quarters >= MaxScaleQuarters ==> r == MaxScaleQuarters
  {
    if quarters + 1 < MaxScaleQuarters then quarters + 1 else MaxScaleQuarters
  }

  /** `zoomOut`: a quarter less, at least 0.5. */
  function ZoomOut(quarters: int): (r: int)
    ensures r >= MinScaleQuarters
    ensures quarters > MinScaleQuarters ==> r == quarters - 1
    ensures quarters <= MinScaleQuarters ==> r == MinScaleQuarters
  {
    if quarters - 1 > MinScaleQuarters then quarters - 1 else MinScaleQuarters
  }

  /** Within a loaded document, paging stays on a page of it; at the first and the last page it stays put. */
  lemma PagingStaysInRange(page: int, numPages: int)
    requires 1 <= page <= numPages
    ensures 1 <= PrevPage(page) <= numPages && 1 <= NextPage(page, numPages) <= numPages
    ensures page == 1 ==> PrevPage(page) == 1
    ensures page == numPages ==> NextPage(page, numPages) == numPages
  {
  }

  /** Away from the last page, going on and back returns to the same page; away from the first, back and on. */
  lemma PagingRoundTrip(page: int, numPages: int)
    requires 1 <= page <= numPages
    ensures page < numPages ==> PrevPage(NextPage(page, numPages)) == page
    ensures page > 1 ==> NextPage(PrevPage(page), numPages) == page
  {
  }

  /** Zooming keeps the scale within [0.5, 3.0], does nothing at the bound it moves towards, and zooming out undoes zooming in below 3.0. */
  lemma ZoomStaysInRange(quarters: int)
    requires MinScaleQuarters <= quarters <= MaxScaleQuarters
    ensures MinScaleQuarters <= ZoomIn(quarters) <= MaxScaleQuarters
    ensures MinScaleQuarters <= ZoomOut(quarters) <= MaxScaleQuarters
    ensures ZoomIn(MaxScaleQuarters) == MaxScaleQuarters && ZoomOut(MinScaleQuarters) == MinScaleQuarters
    ensures quarters < MaxScaleQuarters ==> ZoomOut(ZoomIn(quarters)) == quarters
    ensures quarters > MinScaleQuarters ==> ZoomIn(ZoomOut(quarters)) == quarters
  {
  }

  /** The viewer's state: the page shown, the page count, the scale in quarters, and a load error. */
  class PdfViewerState {
    var numPages: int
    var pageNumber: int
    var scaleQuarters: int
    var error: Option<string>

    /** The scale is within its bounds, the page is never negative, and once there are pages it is one of them. */
    predicate Valid()
      reads this
    {
      && MinScaleQuarters <= scaleQuarters <= MaxScaleQuarters
      && 0 <= numPages && 0 <= pageNumber
      && (numPages >= 1 ==> 1 <= pageNumber <= numPages)
    }

    constructor()
      ensures numPages == 0 && pageNumber == 0 && scaleQuarters == InitialScaleQuarters && error == None
      ensures Valid()
    {
      numPages, pageNumber, scaleQuarters, error := 0, 0, InitialScaleQuarters, None;
    }

    /** `onDocumentLoadSuccess`: the document's page count, its first page, no error. */
    method OnDocumentLoadSuccess(pages: nat)
      requires Valid()
      modifies this
      ensures numPages == pages && pageNumber == 1 && error == None && scaleQuarters == old(scaleQuarters)
      ensures Valid()
    {
      numPages := pages;
      pageNumber := 1;
      error := None;
    }

    /** `onDocumentLoadError`: the fixed message; pages and scale stay. */
    method OnDocumentLoadError()
      requires Valid()
      modifies this
      ensures error == Some(LoadErrorMessage)
      ensures numPages == old(numPages) && pageNumber == old(pageNumber) && scaleQuarters == old(scaleQuarters)
      ensures Valid()
    {
      error := Some(LoadErrorMessage);
    }

    method GoToPrevPage()
      requires Valid()
      modifies this
      ensures pageNumber == PrevPage(old(pageNumber))
      ensures numPages == old(numPages) && scaleQuarters == old(scaleQuarters) && error == old(error)
      ensures Valid()
    {
      pageNumber := PrevPage(pageNumber);
    }

    method GoToNextPage()
      requires Valid()
      modifies this
      ensures pageNumber == NextPage(old(pageNumber), numPages)
      ensures numPages == old(numPages) && scaleQuarters == old(scaleQuarters) && error == old(error)
      ensures Valid()
    {
      pageNumber := NextPage(pageNumber, numPages);
    }

    method ZoomInStep()
      requires Valid()
      modifies this
      ensures scaleQuarters == ZoomIn(old(scaleQuarters))
      ensures numPages == old(numPages) && pageNumber == old(pageNumber) && error == old(error)
      ensures Valid()
    {
      scaleQuarters := ZoomIn(scaleQuarters);
    }

    method ZoomOutStep()
      requires Valid()
      modifies this
      ensures scaleQuarters == ZoomOut(old(scaleQuarters))
      ensures numPages == old(numPages) && pageNumber == old(pageNumber) && error == old(error)
      ensures Valid()
    {
      scaleQuarters := ZoomOut(scaleQuarters);
    }
  }
}
