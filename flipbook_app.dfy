/** The preload / merge coordinator of src/flipbookApp.js as the source has
    it: closure variables updated in place by event handlers.

    A Flipbook holds those variables as fields. The armed timers are counters:
    arming a timer increments one, and the handler for a timer that fires is a
    method that needs an armed timer of its kind. Every handler is specified by
    PreloadSpec.Step and keeps PreloadSpec.Inv. */
module FlipbookApp {
  import opened PdfService
  import opened PreloadSpec

  class Flipbook {
    const doc: Document
    /** The size the page-flip widget is built with. */
    const bookWidth: real
    const bookHeight: real

    var allImages: seq<Image>
    var preloadBuffer: seq<Image>
    var isUserFlipping: bool
    var updateScheduled: bool
    var flipTimers: nat
    var mergeTimers: nat
    /** The page the preload loop renders next. */
    var nextPage: int

    function Model(): State
      reads this
    {
      State(allImages, preloadBuffer, isUserFlipping, updateScheduled, flipTimers, mergeTimers, nextPage)
    }

    ghost predicate Valid()
      reads this
    {
      Inv(doc, Model())
    }

    /** The state right after the viewer is loaded with the initial batch. */
    constructor (doc: Document, first: Rendering)
      requires IsInitialBatch(doc, first.images)
      ensures Valid() && Model() == Init(doc, first.images)
      ensures this.doc == doc && bookWidth == first.baseWidth && bookHeight == first.baseHeight
    {
      InitEstablishesInv(doc, first.images);
      this.doc := doc;
      bookWidth, bookHeight := first.baseWidth, first.baseHeight;
      allImages := first.images;
      preloadBuffer := [];
      isUserFlipping, updateScheduled := false, false;
      flipTimers, mergeTimers := 0, 0;
      nextPage := InitialPages(doc) + 1;
    }

    /** maybeUpdateFromBuffer: arm the merge timer unless the user is flipping,
        a merge is already pending or there is nothing to merge. */
    method MaybeUpdateFromBuffer()
      modifies this
      ensures Model() == MaybeUpdate(old(Model()))
      ensures old(isUserFlipping || updateScheduled || preloadBuffer == []) ==>
                Model() == old(Model())
      ensures !old(isUserFlipping || updateScheduled || preloadBuffer == []) ==>
                updateScheduled && mergeTimers == old(mergeTimers) + 1 &&
                Model().(updateScheduled := false, mergeTimers := old(mergeTimers)) == old(Model())
    {
      if isUserFlipping {
        return;
      }
      if updateScheduled {
        return;
      }
      if |preloadBuffer| == 0 {
        return;
      }
      updateScheduled := true;
      mergeTimers := mergeTimers + 1;
    }

    /** The viewer's "flip" handler: mark a flip and arm its own flip timer. */
    method OnFlip()
      requires Valid()
      modifies this
      ensures Valid() && Model() == Step(doc, old(Model()), Flip)
      ensures isUserFlipping && flipTimers == old(flipTimers) + 1
      ensures allImages == old(allImages) && preloadBuffer == old(preloadBuffer)
      ensures updateScheduled == old(updateScheduled) && mergeTimers == old(mergeTimers)
    {
      isUserFlipping := true;
      flipTimers := flipTimers + 1;
      StepPreservesInv(doc, old(Model()), Flip);
    }

    /** A flip timer fires: clear the flag, whatever other flip timers are
        still armed, then try to schedule a merge. */
    method OnFlipTimer()
      requires Valid() && flipTimers > 0
      modifies this
      ensures Valid() && Model() == Step(doc, old(Model()), FlipTimerElapsed)
      ensures !isUserFlipping && flipTimers == old(flipTimers) - 1
      ensures allImages == old(allImages) && preloadBuffer == old(preloadBuffer)
      ensures updateScheduled == (old(updateScheduled) || old(preloadBuffer) != [])
    {
      isUserFlipping := false;
      flipTimers := flipTimers - 1;
      MaybeUpdateFromBuffer();
      StepPreservesInv(doc, old(Model()), FlipTimerElapsed);
    }

    /** The merge timer fires: the buffer is appended to the viewer's list and
        emptied. The flip flag is not consulted here. */
    method OnMergeTimer()
      requires Valid() && mergeTimers > 0
      modifies this
      ensures Valid() && Model() == Step(doc, old(Model()), MergeTimerElapsed)
      ensures allImages == old(allImages) + old(preloadBuffer) && |allImages| > |old(allImages)|
      ensures preloadBuffer == [] && !updateScheduled && mergeTimers == 0
      ensures isUserFlipping == old(isUserFlipping) && nextPage == old(nextPage)
    {
      allImages := allImages + preloadBuffer;
      preloadBuffer := [];
      updateScheduled := false;
      mergeTimers := mergeTimers - 1;
      StepPreservesInv(doc, old(Model()), MergeTimerElapsed);
    }

    /** One iteration of the preload loop: render page nextPage alone; on
        success buffer its one image and try to schedule a merge; on failure
        append nothing. Either way the loop moves to the next page. */
    method PreloadPage()
      requires Valid() && nextPage <= doc.numPages
      modifies this
      ensures Valid() && Model() == Step(doc, old(Model()), PageSettled)
      ensures nextPage == old(nextPage) + 1 && allImages == old(allImages)
      ensures isUserFlipping == old(isUserFlipping) && flipTimers == old(flipTimers)
      ensures preloadBuffer ==
                old(preloadBuffer) + (if Renders(doc, old(nextPage)) then [ImageOf(doc, old(nextPage))] else [])
    {
      ghost var requested;
      var r;
      r, requested := RenderPdfPages(doc, nextPage, nextPage);
      if r.Rendered? {
        assert |r.rendering.images| == 1;
        preloadBuffer := preloadBuffer + [r.rendering.images[0]];
        MaybeUpdateFromBuffer();
      }
      nextPage := nextPage + 1;
      StepPreservesInv(doc, old(Model()), PageSettled);
    }

    /** preloadRemainingPages run to completion with no other event in
        between: every remaining page is rendered in ascending order. */
    method PreloadRemainingPages()
      requires Valid()
      modifies this
      ensures Valid() && nextPage == doc.numPages + 1
      ensures InitialPages(doc) >= doc.numPages ==> Model() == old(Model())
      // no merge fires and no flip happens while the loop runs
      ensures allImages == old(allImages)
      ensures isUserFlipping == old(isUserFlipping) && flipTimers == old(flipTimers)
      // a pending merge stays pending; a new one is armed only outside a flip
      ensures updateScheduled == (old(updateScheduled) || (!isUserFlipping && preloadBuffer != []))
      ensures allImages + preloadBuffer == Expected(doc, doc.numPages + 1)
    {
      if InitialPages(doc) >= doc.numPages {
        return;
      }
      while nextPage <= doc.numPages
        invariant Valid()
        invariant allImages == old(allImages)
        invariant isUserFlipping == old(isUserFlipping) && flipTimers == old(flipTimers)
        invariant updateScheduled == (old(updateScheduled) || (!isUserFlipping && preloadBuffer != []))
        decreases doc.numPages - nextPage
      {
        PreloadPage();
      }
    }
  }

  /** initFlipbookApp up to the start of the preload loop: give up when the
      page's anchor elements are missing or the initial batch fails to render,
      otherwise build the viewer from the first min(4, numPages) pages. */
  method InitFlipbookApp(doc: Document, anchorsPresent: bool) returns (app: Option<Flipbook>)
    ensures app.Some? <==> anchorsPresent && InitialBatchRenders(doc)
    ensures app.Some? ==>
              && fresh(app.value) && app.value.Valid() && app.value.doc == doc
              && app.value.allImages == Expected(doc, InitialPages(doc) + 1)
              && |app.value.allImages| == InitialPages(doc)
              && app.value.Model() == Init(doc, app.value.allImages)
    ensures app.Some? && InitialPages(doc) == 0 ==>
              app.value.bookWidth == DEFAULT_WIDTH && app.value.bookHeight == DEFAULT_HEIGHT
    ensures app.Some? && InitialPages(doc) > 0 ==>
              doc.rasterise(1).Some? &&
              app.value.bookWidth == doc.rasterise(1).value.width &&
              app.value.bookHeight == doc.rasterise(1).value.height
  {
    if !anchorsPresent {
      return None;
    }
    var initial := InitialPages(doc);
    ghost var requested;
    var r;
    r, requested := RenderPdfPages(doc, 1, initial);
    if r.PageFailed? {
      return None;
    }
    var book := new Flipbook(doc, r.rendering);
    app := Some(book);
  }
}
