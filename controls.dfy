/** The zoom, drag-to-pan, double-click and navigation-button rules of
    src/flipbookApp.js.

    Zoom is a real number, so the 0.1 steps add up exactly. Scroll offsets are
    the values the handlers assign; the browser's own clamping of them to the
    scrollable range is not modelled, and the centring offsets the zoom button
    computes from the layout are parameters. */
module Controls {

  const MIN_ZOOM: real := 1.0
  const MAX_ZOOM: real := 3.0
  const ZOOM_STEP: real := 0.1
  /** The zoom the zoom button switches to from MIN_ZOOM. */
  const BUTTON_ZOOM: real := 2.0

  /** applyZoom's clamp: the nearest zoom in [MIN_ZOOM, MAX_ZOOM]. */
  function ClampZoom(z: real): (r: real)
    ensures MIN_ZOOM <= r <= MAX_ZOOM
    ensures MIN_ZOOM <= z <= MAX_ZOOM ==> r == z
    ensures z < MIN_ZOOM ==> r == MIN_ZOOM
    ensures z > MAX_ZOOM ==> r == MAX_ZOOM
  {
    var atLeastMin := if z < MIN_ZOOM then MIN_ZOOM else z;
    if MAX_ZOOM < atLeastMin then MAX_ZOOM else atLeastMin
  }

  /** The wheel handler's new zoom: one step in (deltaY < 0) or out, clamped. */
  function WheelZoom(z: real, deltaY: real): (r: real)
    requires MIN_ZOOM <= z <= MAX_ZOOM
    ensures MIN_ZOOM <= r <= MAX_ZOOM
    ensures deltaY < 0.0 ==> z <= r <= z + ZOOM_STEP
    ensures deltaY >= 0.0 ==> z - ZOOM_STEP <= r <= z
    ensures r == z <==> (deltaY < 0.0 && z == MAX_ZOOM) || (deltaY >= 0.0 && z == MIN_ZOOM)
    ensures deltaY < 0.0 ==> r == (if z + ZOOM_STEP <= MAX_ZOOM then z + ZOOM_STEP else MAX_ZOOM)
    ensures deltaY >= 0.0 ==> r == (if z - ZOOM_STEP >= MIN_ZOOM then z - ZOOM_STEP else MIN_ZOOM)
  {
    ClampZoom(z + (if deltaY < 0.0 then ZOOM_STEP else -ZOOM_STEP))
  }

  /** The zoom button's new zoom: in to 2 from 1, back to 1 from anything else. */
  function ToggledZoom(z: real): (r: real)
    ensures r == BUTTON_ZOOM || r == MIN_ZOOM
    ensures r == BUTTON_ZOOM <==> z == MIN_ZOOM
  {
    if z == MIN_ZOOM then ClampZoom(BUTTON_ZOOM) else ClampZoom(MIN_ZOOM)
  }

  /** Pressing twice from MIN_ZOOM comes back to it; from any other zoom the
      first press goes to MIN_ZOOM and the second to BUTTON_ZOOM. */
  lemma ToggleTwice(z: real)
    ensures ToggledZoom(ToggledZoom(z)) == if z == MIN_ZOOM then MIN_ZOOM else BUTTON_ZOOM
  {
  }

  /** The mousedown guard: a drag starts only above MIN_ZOOM, with the main
      button, away from the page-edge controls. */
  predicate DragStarts(zoom: real, button: int, onPageEdge: bool)
  {
    !(zoom <= MIN_ZOOM || button != 0) && !onPageEdge
  }

  /** One navigation button's state and the style derived from it. */
  datatype Button = Button(disabled: bool, opacity: real, cursor: string)

  datatype NavButtons = NavButtons(first: Button, prev: Button, next: Button)

  function Styled(disabled: bool): Button
  {
    if disabled then Button(true, 0.4, "default") else Button(false, 1.0, "pointer")
  }

  /** updateButtons for the viewer's current page index and page count. */
  function UpdateButtons(curr: int, total: int): (b: NavButtons)
    ensures b.first.disabled <==> curr == 0
    ensures b.prev.disabled == b.first.disabled
    ensures b.next.disabled <==> curr == total - 1
    ensures forall btn :: btn in [b.first, b.prev, b.next] ==>
              btn.opacity == (if btn.disabled then 0.4 else 1.0) &&
              btn.cursor == (if btn.disabled then "default" else "pointer")
  {
    var atFirst := curr == 0;
    var atLast := curr == total - 1;
    NavButtons(Styled(atFirst), Styled(atFirst), Styled(atLast))
  }

  /** On a page of the book, first/prev are usable exactly when there is a page
      before the current one, and next exactly when there is a page after it. */
  lemma ButtonsMatchNavigation(curr: int, total: int)
    requires 0 <= curr < total
    ensures !UpdateButtons(curr, total).prev.disabled <==> 0 <= curr - 1
    ensures !UpdateButtons(curr, total).next.disabled <==> curr + 1 < total
  {
  }

  /** The closure variables of the zoom and drag handlers. */
  class Viewport {
    var zoom: real
    var isDragging: bool
    var scrollLeft: real
    var scrollTop: real
    var startX: real
    var startY: real
    var startScrollLeft: real
    var startScrollTop: real

    ghost predicate Valid()
      reads this
    {
      MIN_ZOOM <= zoom <= MAX_ZOOM
    }

    constructor ()
      ensures Valid() && zoom == MIN_ZOOM && !isDragging
      ensures scrollLeft == 0.0 && scrollTop == 0.0
    {
      zoom := MIN_ZOOM;
      isDragging := false;
      scrollLeft, scrollTop := 0.0, 0.0;
      startX, startY, startScrollLeft, startScrollTop := 0.0, 0.0, 0.0, 0.0;
    }

    /** applyZoom: clamp, and scroll back to the origin at MIN_ZOOM. */
    method ApplyZoom()
      modifies this
      ensures Valid() && zoom == ClampZoom(old(zoom))
      ensures zoom == MIN_ZOOM ==> scrollLeft == 0.0 && scrollTop == 0.0
      ensures zoom != MIN_ZOOM ==> scrollLeft == old(scrollLeft) && scrollTop == old(scrollTop)
      ensures isDragging == old(isDragging)
      ensures startX == old(startX) && startY == old(startY)
      ensures startScrollLeft == old(startScrollLeft) && startScrollTop == old(startScrollTop)
    {
      zoom := ClampZoom(zoom);
      if zoom == MIN_ZOOM {
        scrollLeft, scrollTop := 0.0, 0.0;
      }
    }

    /** The wheel handler. */
    method Wheel(deltaY: real)
      requires Valid()
      modifies this
      ensures Valid() && zoom == WheelZoom(old(zoom), deltaY)
      ensures zoom == MIN_ZOOM ==> scrollLeft == 0.0 && scrollTop == 0.0
      ensures zoom != MIN_ZOOM ==> scrollLeft == old(scrollLeft) && scrollTop == old(scrollTop)
      ensures isDragging == old(isDragging)
      ensures startX == old(startX) && startY == old(startY)
      ensures startScrollLeft == old(startScrollLeft) && startScrollTop == old(startScrollTop)
    {
      zoom := zoom + (if deltaY < 0.0 then ZOOM_STEP else -ZOOM_STEP);
      ApplyZoom();
    }

    /** The zoom button: in to BUTTON_ZOOM and centre the view (the centring
        offsets come from the layout), or back to MIN_ZOOM. */
    method ZoomButton(centreLeft: real, centreTop: real)
      requires Valid()
      modifies this
      ensures Valid() && zoom == ToggledZoom(old(zoom))
      ensures old(zoom) == MIN_ZOOM ==> scrollLeft == centreLeft && scrollTop == centreTop
      ensures old(zoom) != MIN_ZOOM ==> scrollLeft == 0.0 && scrollTop == 0.0
      ensures isDragging == old(isDragging)
      ensures startX == old(startX) && startY == old(startY)
      ensures startScrollLeft == old(startScrollLeft) && startScrollTop == old(startScrollTop)
    {
      if zoom == MIN_ZOOM {
        zoom := BUTTON_ZOOM;
        ApplyZoom();
        scrollLeft, scrollTop := centreLeft, centreTop;
      } else {
        zoom := MIN_ZOOM;
        ApplyZoom();
      }
    }

    /** mousedown: start a drag when the guard allows, remembering the pointer
        and scroll position; `consumed` is whether the event is stopped. */
    method MouseDown(button: int, onPageEdge: bool, clientX: real, clientY: real)
      returns (consumed: bool)
      requires Valid()
      modifies this
      ensures Valid()
      ensures consumed <==> DragStarts(zoom, button, onPageEdge)
      ensures isDragging == (old(isDragging) || consumed)
      ensures consumed ==> startX == clientX && startY == clientY &&
                           startScrollLeft == scrollLeft && startScrollTop == scrollTop
      ensures !consumed ==> startX == old(startX) && startY == old(startY) &&
                            startScrollLeft == old(startScrollLeft) && startScrollTop == old(startScrollTop)
      ensures zoom == old(zoom) && scrollLeft == old(scrollLeft) && scrollTop == old(scrollTop)
    {
      if zoom <= MIN_ZOOM || button != 0 {
        return false;
      }
      if onPageEdge {
        return false;
      }
      isDragging := true;
      startX, startY := clientX, clientY;
      startScrollLeft, startScrollTop := scrollLeft, scrollTop;
      consumed := true;
    }

    /** mousemove: while dragging, the content follows the pointer. */
    method MouseMove(clientX: real, clientY: real)
      modifies this
      ensures isDragging ==> scrollLeft == startScrollLeft - (clientX - startX) &&
                             scrollTop == startScrollTop - (clientY - startY)
      ensures !isDragging ==> scrollLeft == old(scrollLeft) && scrollTop == old(scrollTop)
      ensures zoom == old(zoom) && isDragging == old(isDragging)
      ensures startX == old(startX) && startY == old(startY)
      ensures startScrollLeft == old(startScrollLeft) && startScrollTop == old(startScrollTop)
    {
      if !isDragging {
        return;
      }
      scrollLeft := startScrollLeft - (clientX - startX);
      scrollTop := startScrollTop - (clientY - startY);
    }

    /** mouseup and mouseleave end a drag. */
    method MouseRelease()
      modifies this
      ensures !isDragging
      ensures zoom == old(zoom) && scrollLeft == old(scrollLeft) && scrollTop == old(scrollTop)
    {
      isDragging := false;
    }

    /** dblclick: leave zoom, never enter it; `consumed` is whether the event
        is stopped. */
    method DoubleClick() returns (consumed: bool)
      requires Valid()
      modifies this
      ensures Valid()
      ensures consumed <==> old(zoom) > MIN_ZOOM
      ensures zoom == MIN_ZOOM || zoom == old(zoom)
      ensures zoom <= old(zoom)
      ensures consumed ==> zoom == MIN_ZOOM && scrollLeft == 0.0 && scrollTop == 0.0
      ensures !consumed ==> scrollLeft == old(scrollLeft) && scrollTop == old(scrollTop)
      ensures isDragging == old(isDragging)
      ensures startX == old(startX) && startY == old(startY)
      ensures startScrollLeft == old(startScrollLeft) && startScrollTop == old(startScrollTop)
    {
      consumed := zoom > MIN_ZOOM;
      if consumed {
        zoom := MIN_ZOOM;
        ApplyZoom();
      }
    }
  }
}
