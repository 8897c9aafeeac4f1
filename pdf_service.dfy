/** The PDF page-range renderer (src/pdfService.js).

    The document library is abstracted: a document is its page count and a
    rasteriser that, for a page number, either yields the page's encoded image
    and viewport size at the fixed render scale, or fails. */
module PdfService {

  datatype Option<+T> = None | Some(value: T)

  /** An encoded page image (a PNG data URL in the source). */
  type Image = string

  /** One rasterised page: its image and its viewport width and height. */
  datatype Page = Page(image: Image, width: real, height: real)

  /** An opened document. `rasterise(p)` is None when getting or rendering
      page `p` fails. */
  datatype Document = Document(numPages: nat, rasterise: int -> Option<Page>)

  /** What renderPdfPages resolves to. */
  datatype Rendering = Rendering(images: seq<Image>, baseWidth: real, baseHeight: real)

  /** A rendering, or the page whose rasterisation failed (the source lets the
      failure propagate, so no partial result is returned). */
  datatype RenderResult = Rendered(rendering: Rendering) | PageFailed(page: int)

  const DEFAULT_WIDTH: real := 600.0
  const DEFAULT_HEIGHT: real := 800.0

  /** Math.max(1, startPage) */
  function SafeStart(startPage: int): int
  {
    if startPage < 1 then 1 else startPage
  }

  /** Math.min(pdf.numPages, endPage) */
  function SafeEnd(doc: Document, endPage: int): int
  {
    if doc.numPages < endPage then doc.numPages else endPage
  }

  /** Number of pages in the inclusive range [lo, hi], none when it is empty. */
  function RangeSize(lo: int, hi: int): nat
  {
    if hi < lo then 0 else hi - lo + 1
  }

  predicate Renders(doc: Document, p: int)
  {
    doc.rasterise(p).Some?
  }

  function ImageOf(doc: Document, p: int): Image
    requires Renders(doc, p)
  {
    doc.rasterise(p).value.image
  }

  /** renderPdfPages: rasterise pages SafeStart(startPage) .. SafeEnd(endPage)
      in ascending order, one image per page; the base size is that of the first
      page rendered, or 600x800 when the clamped range is empty. `requested`
      records the page numbers handed to the rasteriser. */
  method RenderPdfPages(doc: Document, startPage: int, endPage: int)
    returns (r: RenderResult, ghost requested: seq<int>)
    // Only pages of the document are ever requested, one after the other.
    ensures forall k :: 0 <= k < |requested| ==>
              requested[k] == SafeStart(startPage) + k && 1 <= requested[k] <= doc.numPages
    ensures r.Rendered? <==>
              forall p :: SafeStart(startPage) <= p <= SafeEnd(doc, endPage) ==> Renders(doc, p)
    ensures r.Rendered? ==>
              var images := r.rendering.images;
              && |images| == |requested| == RangeSize(SafeStart(startPage), SafeEnd(doc, endPage))
              && forall i :: 0 <= i < |images| ==>
                   Renders(doc, SafeStart(startPage) + i) &&
                   images[i] == ImageOf(doc, SafeStart(startPage) + i)
    ensures r.Rendered? && r.rendering.images == [] ==>
              r.rendering.baseWidth == DEFAULT_WIDTH && r.rendering.baseHeight == DEFAULT_HEIGHT
    ensures r.Rendered? && r.rendering.images != [] ==>
              var first := doc.rasterise(SafeStart(startPage));
              first.Some? &&
              r.rendering.baseWidth == first.value.width && r.rendering.baseHeight == first.value.height
    // A failure names the first page in the range that does not render; it is
    // the last page requested.
    ensures r.PageFailed? ==>
              && SafeStart(startPage) <= r.page <= SafeEnd(doc, endPage)
              && !Renders(doc, r.page)
              && (forall p :: SafeStart(startPage) <= p < r.page ==> Renders(doc, p))
              && requested != [] && requested[|requested| - 1] == r.page
  {
    var images: seq<Image> := [];
    var baseWidth, baseHeight := DEFAULT_WIDTH, DEFAULT_HEIGHT;
    var safeStart := SafeStart(startPage);
    var safeEnd := SafeEnd(doc, endPage);
    requested := [];

    var pageNum := safeStart;
    while pageNum <= safeEnd
      invariant safeStart <= pageNum && (pageNum <= safeEnd + 1 || pageNum == safeStart)
      invariant |images| == |requested| == pageNum - safeStart
      invariant forall k :: 0 <= k < |requested| ==>
                  requested[k] == safeStart + k && 1 <= requested[k] <= doc.numPages
      invariant forall p :: safeStart <= p < pageNum ==> Renders(doc, p)
      invariant forall i :: 0 <= i < |images| ==>
                  Renders(doc, safeStart + i) && images[i] == ImageOf(doc, safeStart + i)
      invariant images == [] ==> baseWidth == DEFAULT_WIDTH && baseHeight == DEFAULT_HEIGHT
      invariant images != [] ==>
                  Renders(doc, safeStart) &&
                  baseWidth == doc.rasterise(safeStart).value.width &&
                  baseHeight == doc.rasterise(safeStart).value.height
    {
      requested := requested + [pageNum];
      var page := doc.rasterise(pageNum);
      if page.None? {
        assert !Renders(doc, pageNum);
        r := PageFailed(pageNum);
        return;
      }
      if pageNum == safeStart {
        baseWidth := page.value.width;
        baseHeight := page.value.height;
      }
      images := images + [page.value.image];
      pageNum := pageNum + 1;
    }
    r := Rendered(Rendering(images, baseWidth, baseHeight));
  }
}
