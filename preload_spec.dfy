/** The progressive preload / merge coordinator of src/flipbookApp.js as a
    state machine over values.

    The coordinator's closure variables are one State; the armed timers are
    counters, and a timer firing is an event that may happen only while such a
    timer is armed. The browser runs one handler at a time, so each event is one
    atomic Step, and any interleaving of events is a sequence given to Run.
    The class in flipbook_app.dfy updates the same variables in place and is
    specified by Step. */
module PreloadSpec {
  import opened PdfService

  /** INITIAL_PAGES: the pages rendered before the viewer is built. */
  function InitialPages(doc: Document): nat
  {
    if doc.numPages < 4 then doc.numPages else 4
  }

  /** The page numbers lo, lo + 1, .., hi - 1. */
  function Range(lo: int, hi: int): seq<int>
    requires lo <= hi
  {
    seq(hi - lo, i => lo + i)
  }

  /** The pages of [lo, hi) whose rasterisation succeeds, in the order the
      preload loop visits them. */
  function RenderedPages(doc: Document, lo: int, hi: int): seq<int>
    decreases hi - lo
  {
    if hi <= lo then []
    else RenderedPages(doc, lo, hi - 1) + (if Renders(doc, hi - 1) then [hi - 1] else [])
  }

  predicate AllRender(doc: Document, pages: seq<int>)
  {
    forall p :: p in pages ==> Renders(doc, p)
  }

  /** The images of the given pages, index-aligned with them. */
  function ImagesOf(doc: Document, pages: seq<int>): (r: seq<Image>)
    requires AllRender(doc, pages)
    ensures |r| == |pages|
    ensures forall i :: 0 <= i < |pages| ==> r[i] == ImageOf(doc, pages[i])
  {
    if pages == [] then []
    else ImagesOf(doc, pages[..|pages| - 1]) + [ImageOf(doc, pages[|pages| - 1])]
  }

  predicate StrictlyAscending(pages: seq<int>)
  {
    forall i, j :: 0 <= i < j < |pages| ==> pages[i] < pages[j]
  }

  /** RenderedPages is strictly ascending (so no page twice) and holds exactly
      the pages of [lo, hi) that render. */
  lemma {:induction false} RenderedPagesSpec(doc: Document, lo: int, hi: int)
    ensures StrictlyAscending(RenderedPages(doc, lo, hi))
    ensures forall p :: p in RenderedPages(doc, lo, hi) <==> lo <= p < hi && Renders(doc, p)
    decreases hi - lo
  {
    if hi > lo {
      RenderedPagesSpec(doc, lo, hi - 1);
      var prefix := RenderedPages(doc, lo, hi - 1);
      assert forall i :: 0 <= i < |prefix| ==> prefix[i] < hi - 1 by {
        forall i | 0 <= i < |prefix| ensures prefix[i] < hi - 1 {
          assert prefix[i] in prefix;
        }
      }
      var r := RenderedPages(doc, lo, hi);
      assert r == prefix + (if Renders(doc, hi - 1) then [hi - 1] else []);
      forall i, j | 0 <= i < j < |r| ensures r[i] < r[j] {
        if j >= |prefix| {
          assert r[i] == prefix[i] && r[j] == hi - 1;
        } else {
          assert r[i] == prefix[i] && r[j] == prefix[j];
        }
      }
    }
  }

  /** Without failures the preload renders every page of [lo, hi). */
  lemma {:induction false} NoFailureNoGap(doc: Document, lo: int, hi: int)
    requires lo <= hi
    requires forall p :: lo <= p < hi ==> Renders(doc, p)
    ensures RenderedPages(doc, lo, hi) == Range(lo, hi)
    decreases hi - lo
  {
    if hi > lo {
      NoFailureNoGap(doc, lo, hi - 1);
      assert Range(lo, hi) == Range(lo, hi - 1) + [hi - 1];
    }
  }

  /** A single failing page f leaves exactly that page out. */
  lemma {:induction false} OneFailureOneGap(doc: Document, lo: int, hi: int, f: int)
    requires lo <= f < hi
    requires forall p :: lo <= p < hi ==> (Renders(doc, p) <==> p != f)
    ensures RenderedPages(doc, lo, hi) == Range(lo, f) + Range(f + 1, hi)
    decreases hi - lo
  {
    if hi - 1 == f {
      NoFailureNoGap(doc, lo, f);
      assert RenderedPages(doc, lo, hi) == RenderedPages(doc, lo, f);
    } else {
      OneFailureOneGap(doc, lo, hi - 1, f);
      assert Range(f + 1, hi) == Range(f + 1, hi - 1) + [hi - 1];
    }
  }

  lemma ImagesOfAppend(doc: Document, a: seq<int>, b: seq<int>)
    requires AllRender(doc, a) && AllRender(doc, b)
    ensures AllRender(doc, a + b)
    ensures ImagesOf(doc, a + b) == ImagesOf(doc, a) + ImagesOf(doc, b)
  {
    var l, r := ImagesOf(doc, a + b), ImagesOf(doc, a) + ImagesOf(doc, b);
    assert forall i :: 0 <= i < |l| ==> l[i] == r[i] by {
      forall i | 0 <= i < |l| ensures l[i] == r[i] {
        if i >= |a| {
          assert (a + b)[i] == b[i - |a|];
        }
      }
    }
  }

  /** The initial batch rendered without failure (otherwise there is no viewer). */
  predicate InitialBatchRenders(doc: Document)
  {
    forall p :: 1 <= p <= InitialPages(doc) ==> Renders(doc, p)
  }

  /** The pages whose images allImages followed by preloadBuffer hold while the
      preload cursor is at `next`: the initial batch, then every later page
      before `next` that rendered. */
  function ExpectedPages(doc: Document, next: int): seq<int>
    requires InitialPages(doc) + 1 <= next
  {
    Range(1, InitialPages(doc) + 1) + RenderedPages(doc, InitialPages(doc) + 1, next)
  }

  lemma ExpectedPagesRender(doc: Document, next: int)
    requires InitialBatchRenders(doc) && InitialPages(doc) + 1 <= next
    ensures AllRender(doc, ExpectedPages(doc, next))
  {
    RenderedPagesSpec(doc, InitialPages(doc) + 1, next);
  }

  ghost function Expected(doc: Document, next: int): seq<Image>
    requires InitialBatchRenders(doc) && InitialPages(doc) + 1 <= next
  {
    ExpectedPagesRender(doc, next);
    ImagesOf(doc, ExpectedPages(doc, next))
  }

  /** Advancing the cursor over page `next` adds that page's image if, and
      only if, it renders. */
  lemma ExpectedStep(doc: Document, next: int)
    requires InitialBatchRenders(doc) && InitialPages(doc) + 1 <= next
    ensures Expected(doc, next + 1) ==
            Expected(doc, next) + (if Renders(doc, next) then [ImageOf(doc, next)] else [])
  {
    var tail := if Renders(doc, next) then [next] else [];
    assert ExpectedPages(doc, next + 1) == ExpectedPages(doc, next) + tail;
    ExpectedPagesRender(doc, next);
    ImagesOfAppend(doc, ExpectedPages(doc, next), tail);
  }

  // ---------------------------------------------------------------- events

  datatype Event =
    | Flip               // the viewer reports a page flip
    | FlipTimerElapsed   // one of the 300 ms flip timers fires
    | PageSettled        // the preload loop's render of its current page resolves or rejects
    | MergeTimerElapsed  // the 250 ms merge timer fires

  datatype State = State(
    allImages: seq<Image>,      // the list handed to the viewer
    preloadBuffer: seq<Image>,
    isUserFlipping: bool,
    updateScheduled: bool,
    flipTimers: nat,            // armed flip timers
    mergeTimers: nat,           // armed merge timers
    nextPage: int)              // the page the preload loop renders next

  function Init(doc: Document, firstImages: seq<Image>): State
  {
    State(firstImages, [], false, false, 0, 0, InitialPages(doc) + 1)
  }

  /** maybeUpdateFromBuffer */
  function MaybeUpdate(s: State): State
  {
    if s.isUserFlipping || s.updateScheduled || s.preloadBuffer == [] then s
    else s.(updateScheduled := true, mergeTimers := s.mergeTimers + 1)
  }

  /** A timer fires only while armed; the preload loop runs while its cursor is
      a page of the document. */
  predicate Enabled(doc: Document, s: State, e: Event)
  {
    match e
    case Flip => true
    case FlipTimerElapsed => s.flipTimers > 0
    case PageSettled => s.nextPage <= doc.numPages
    case MergeTimerElapsed => s.mergeTimers > 0
  }

  function Step(doc: Document, s: State, e: Event): State
    requires Enabled(doc, s, e)
  {
    match e
    case Flip =>
      s.(isUserFlipping := true, flipTimers := s.flipTimers + 1)
    case FlipTimerElapsed =>
      MaybeUpdate(s.(isUserFlipping := false, flipTimers := s.flipTimers - 1))
    case PageSettled =>
      var advanced := s.(nextPage := s.nextPage + 1);
      if Renders(doc, s.nextPage) then
        MaybeUpdate(advanced.(preloadBuffer := s.preloadBuffer + [ImageOf(doc, s.nextPage)]))
      else
        advanced
    case MergeTimerElapsed =>
      s.(allImages := s.allImages + s.preloadBuffer, preloadBuffer := [],
         updateScheduled := false, mergeTimers := s.mergeTimers - 1)
  }

  /** The state after a sequence of events, or None if one of them could not
      happen at its point. */
  function Run(doc: Document, s: State, events: seq<Event>): Option<State>
    decreases |events|
  {
    if events == [] then Some(s)
    else if Enabled(doc, s, events[0]) then Run(doc, Step(doc, s, events[0]), events[1..])
    else None
  }

  /** The coordinator's invariant. */
  ghost predicate Inv(doc: Document, s: State)
  {
    && InitialBatchRenders(doc)
    && InitialPages(doc) + 1 <= s.nextPage <= doc.numPages + 1
    // the viewer's list and the buffer hold the expected pages, in page order
    && s.allImages + s.preloadBuffer == Expected(doc, s.nextPage)
    // a merge timer is armed exactly while updateScheduled holds
    && s.mergeTimers == (if s.updateScheduled then 1 else 0)
    && (s.updateScheduled ==> s.preloadBuffer != [])
    && (s.isUserFlipping ==> s.flipTimers > 0)
    // buffered images always have an armed timer that leads to a merge
    && (s.preloadBuffer != [] ==> s.updateScheduled || s.isUserFlipping)
  }

  /** The images of pages 1 .. INITIAL_PAGES, as renderPdfPages(pdf, 1,
      INITIAL_PAGES) returns them. */
  predicate IsInitialBatch(doc: Document, firstImages: seq<Image>)
  {
    && |firstImages| == InitialPages(doc)
    && forall i :: 0 <= i < |firstImages| ==>
         Renders(doc, 1 + i) && firstImages[i] == ImageOf(doc, 1 + i)
  }

  /** The initial batch establishes the invariant. */
  lemma InitEstablishesInv(doc: Document, firstImages: seq<Image>)
    requires IsInitialBatch(doc, firstImages)
    ensures Inv(doc, Init(doc, firstImages))
  {
    var n := InitialPages(doc);
    assert InitialBatchRenders(doc) by {
      forall p | 1 <= p <= n ensures Renders(doc, p) {
        var i := p - 1;
        var image := firstImages[i];
        assert Renders(doc, 1 + i);
      }
    }
    assert ExpectedPages(doc, n + 1) == Range(1, n + 1);
    assert firstImages == Expected(doc, n + 1);
  }

  /** Every event keeps the invariant; the viewer's list only grows and the
      preload cursor never moves back. */
  lemma StepPreservesInv(doc: Document, s: State, e: Event)
    requires Inv(doc, s) && Enabled(doc, s, e)
    ensures Inv(doc, Step(doc, s, e))
    ensures s.allImages <= Step(doc, s, e).allImages
    ensures s.nextPage <= Step(doc, s, e).nextPage
  {
    if e.PageSettled? {
      ExpectedStep(doc, s.nextPage);
    }
  }

  /** Over any interleaving of events: the invariant holds, at most one merge
      is pending, and the list handed to the viewer is only ever extended. */
  lemma {:induction false} RunPreservesInv(doc: Document, s: State, events: seq<Event>)
    requires Inv(doc, s) && Run(doc, s, events).Some?
    ensures Inv(doc, Run(doc, s, events).value)
    ensures Run(doc, s, events).value.mergeTimers <= 1
    ensures s.allImages <= Run(doc, s, events).value.allImages
    decreases |events|
  {
    if events != [] {
      StepPreservesInv(doc, s, events[0]);
      RunPreservesInv(doc, Step(doc, s, events[0]), events[1..]);
    }
  }

  /** A merge is armed only when, after the event's own update, the user is not
      flipping, no merge was pending and something is buffered. */
  lemma MergeArming(doc: Document, s: State, e: Event)
    requires Inv(doc, s) && Enabled(doc, s, e)
    ensures Step(doc, s, e).mergeTimers > s.mergeTimers <==>
            match e
            case Flip => false
            case MergeTimerElapsed => false
            case FlipTimerElapsed => !s.updateScheduled && s.preloadBuffer != []
            case PageSettled => Renders(doc, s.nextPage) && !s.isUserFlipping && !s.updateScheduled
    ensures Step(doc, s, e).mergeTimers > s.mergeTimers ==>
            !Step(doc, s, e).isUserFlipping && Step(doc, s, e).mergeTimers == 1
  {
  }

  /** Only the merge changes the list handed to the viewer, so the viewer is
      reloaded once per merged batch, not once per rendered page. */
  lemma OnlyMergeChangesViewerList(doc: Document, s: State, e: Event)
    requires Enabled(doc, s, e) && !e.MergeTimerElapsed?
    ensures Step(doc, s, e).allImages == s.allImages
  {
  }

  /** When the merge timer fires it moves the whole buffer, which is never
      empty then, to the end of the viewer's list. */
  lemma MergeFlushesBuffer(doc: Document, s: State)
    requires Inv(doc, s) && s.mergeTimers > 0
    ensures var t := Step(doc, s, MergeTimerElapsed);
            && t.allImages == s.allImages + s.preloadBuffer
            && |t.allImages| > |s.allImages|
            && t.preloadBuffer == [] && !t.updateScheduled && t.mergeTimers == 0
  {
  }

  /** The merge timer does not look at isUserFlipping: a flip after a merge was
      scheduled leaves it armed, and it then fires during the flip. */
  lemma MergeMayFireDuringFlip(doc: Document, s: State)
    requires Inv(doc, s) && s.updateScheduled
    ensures var f := Step(doc, s, Flip);
            && f.isUserFlipping && Enabled(doc, f, MergeTimerElapsed)
            && Step(doc, f, MergeTimerElapsed).isUserFlipping
            && Step(doc, f, MergeTimerElapsed).allImages == s.allImages + s.preloadBuffer
  {
  }

  /** Each flip arms its own timer, and the first one to fire clears the flag
      although a later flip's timer is still armed. */
  lemma FirstFlipTimerClearsFlag(doc: Document, s: State)
    ensures var t := Run(doc, s, [Flip, Flip, FlipTimerElapsed]);
            t.Some? && !t.value.isUserFlipping && t.value.flipTimers == s.flipTimers + 1
  {
    var s1 := Step(doc, s, Flip);
    var s2 := Step(doc, s1, Flip);
    assert Run(doc, s2, [FlipTimerElapsed]) == Run(doc, Step(doc, s2, FlipTimerElapsed), []);
    assert Run(doc, s1, [Flip, FlipTimerElapsed]) == Run(doc, s2, [FlipTimerElapsed]);
  }

  /** The timers that are armed suffice to bring every buffered image into the
      viewer's list. */
  function DrainEvents(s: State): seq<Event>
  {
    if s.updateScheduled then [MergeTimerElapsed]
    else if s.preloadBuffer != [] then [FlipTimerElapsed, MergeTimerElapsed]
    else []
  }

  lemma TimersDrainBuffer(doc: Document, s: State)
    requires Inv(doc, s)
    ensures var t := Run(doc, s, DrainEvents(s));
            t.Some? && t.value.preloadBuffer == [] &&
            t.value.allImages == s.allImages + s.preloadBuffer
  {
    if s.updateScheduled {
      assert Run(doc, s, [MergeTimerElapsed]) == Run(doc, Step(doc, s, MergeTimerElapsed), []);
    } else if s.preloadBuffer != [] {
      var s1 := Step(doc, s, FlipTimerElapsed);
      assert s1.mergeTimers == 1;
      assert Run(doc, s1, [MergeTimerElapsed]) == Run(doc, Step(doc, s1, MergeTimerElapsed), []);
    }
  }

  /** Once the preload loop has finished and no timer is pending, the viewer
      holds every page that rendered, in page order. */
  lemma SettledHoldsExpected(doc: Document, s: State)
    requires Inv(doc, s)
    requires s.nextPage == doc.numPages + 1 && !s.updateScheduled && !s.isUserFlipping
    ensures s.preloadBuffer == []
    ensures s.allImages == Expected(doc, doc.numPages + 1)
  {
  }

  /** With no failing page the final list has one image per page, in order. */
  lemma CompleteDocument(doc: Document)
    requires forall p :: 1 <= p <= doc.numPages ==> Renders(doc, p)
    ensures ExpectedPages(doc, doc.numPages + 1) == Range(1, doc.numPages + 1)
    ensures |Expected(doc, doc.numPages + 1)| == doc.numPages
  {
    var n := InitialPages(doc);
    NoFailureNoGap(doc, n + 1, doc.numPages + 1);
    assert Range(1, n + 1) + Range(n + 1, doc.numPages + 1) == Range(1, doc.numPages + 1);
  }

  /** Ten pages with page 7 failing: nine images, page 7 missing. */
  lemma TenPagesSeventhFails(doc: Document)
    requires doc.numPages == 10
    requires forall p :: 1 <= p <= 10 ==> (Renders(doc, p) <==> p != 7)
    ensures ExpectedPages(doc, 11) == [1, 2, 3, 4, 5, 6, 8, 9, 10]
    ensures |Expected(doc, 11)| == 9
  {
    OneFailureOneGap(doc, 5, 11, 7);
    assert Range(1, 5) == [1, 2, 3, 4];
    assert Range(5, 7) == [5, 6];
    assert Range(8, 11) == [8, 9, 10];
  }
}
