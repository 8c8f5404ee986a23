/** The demo page that hosts the bottom sheet: it owns the sheet's `isOpen` and
    `snapPoint` props, updates both through one snap-change handler, and wires the
    sheet's close and snap-change callbacks back to that handler. */
module Page {
  import opened SnapPoints
  import opened BottomSheet

  /** When `isOpen` agrees with the snap point, the resting position is the snap point's own. */
  lemma RestingPositionOfAgreeingState(isOpen: bool, snapPoint: SnapPoint)
    requires isOpen <==> snapPoint != Closed
    ensures TargetPosition(isOpen, snapPoint) == Position(snapPoint)
  {
  }

  /** The page state together with the hosted sheet's drag state. */
  class Home {
    var isOpen: bool
    var snapPoint: SnapPoint
    const sheet: Sheet

    /** The page keeps `isOpen` equal to "the snap point is not closed". */
    ghost predicate Valid()
      reads this, sheet
    {
      (isOpen <==> snapPoint != Closed) && sheet.Valid()
    }

    /** The page loads closed, with the sheet at rest. */
    constructor ()
      ensures Valid() && fresh(sheet)
      ensures !isOpen && snapPoint == Closed && sheet.State() == Initial
    {
      isOpen := false;
      snapPoint := Closed;
      sheet := new Sheet();
    }

    /** The page's snap-change handler: the snap point becomes `point`, and the sheet
        is open exactly when that point is not closed. The new state depends on
        `point` alone, so a repeated call changes nothing. */
    method HandleSnapPointChange(point: SnapPoint)
      requires Valid()
      modifies this
      ensures Valid()
      ensures snapPoint == point && isOpen == (point != Closed)
      ensures sheet.State() == old(sheet.State())
    {
      snapPoint := point;
      isOpen := point != Closed;
    }

    /** The sheet's close callback, routed to a snap change to closed. */
    method Close()
      requires Valid()
      modifies this
      ensures Valid()
      ensures !isOpen && snapPoint == Closed
      ensures sheet.State() == old(sheet.State())
    {
      HandleSnapPointChange(Closed);
    }

    /** Press on the sheet's handle: the drag origin is the current snap point's position. */
    method PressHandle(clientY: real)
      requires Valid()
      modifies sheet
      ensures Valid()
      ensures sheet.State() == Start(old(sheet.State()), clientY, Position(snapPoint))
    {
      RestingPositionOfAgreeingState(isOpen, snapPoint);
      sheet.DragStart(clientY, isOpen, snapPoint);
    }

    /** Pointer moved while the page is shown in a viewport `viewportHeight` high. */
    method MovePointer(clientY: real, viewportHeight: real)
      requires Valid() && viewportHeight > 0.0
      modifies sheet
      ensures Valid()
      ensures sheet.State() == Move(old(sheet.State()), clientY, viewportHeight)
    {
      sheet.DragMove(clientY, viewportHeight);
    }

    /** Pointer released: the snap change the sheet emits, if any, goes through the
        page's handler; without a session nothing changes. */
    method ReleasePointer()
      requires Valid()
      modifies this, sheet
      ensures Valid()
      ensures sheet.State() == End(old(sheet.State())).0
      ensures End(old(sheet.State())).1.None? ==> isOpen == old(isOpen) && snapPoint == old(snapPoint)
      ensures End(old(sheet.State())).1.Some? ==>
                snapPoint == End(old(sheet.State())).1.value && isOpen == (snapPoint != Closed)
    {
      var change := sheet.DragEnd();
      if change.Some? {
        HandleSnapPointChange(change.value);
      }
    }

    /** A key press; `closed` tells whether the sheet invoked its close callback.
        Escape on an open sheet closes it; any other key, or Escape on a closed
        sheet, changes nothing. The drag session is never touched. */
    method KeyDown(key: string) returns (closed: bool)
      requires Valid()
      modifies this
      ensures Valid()
      ensures closed <==> key == "Escape" && old(isOpen)
      ensures closed ==> !isOpen && snapPoint == Closed
      ensures !closed ==> isOpen == old(isOpen) && snapPoint == old(snapPoint)
      ensures sheet.State() == old(sheet.State())
    {
      closed := ClosesOnKey(key, isOpen);
      if closed {
        Close();
      }
    }

    /** Whether background scrolling is locked: exactly at the full snap point. */
    function ScrollLocked(): (r: bool)
      reads this, sheet
      requires Valid()
      ensures r <==> snapPoint == Full
      ensures r ==> isOpen
    {
      LocksScroll(isOpen, snapPoint)
    }

    /** The spring's target: the live offset during a drag, otherwise the position of
        the page's snap point. */
    function SpringTarget(): (r: real)
      reads this, sheet
      requires Valid()
      ensures sheet.isDragging ==> r == sheet.currentTranslate
      ensures !sheet.isDragging ==> r == Position(snapPoint)
    {
      RestingPositionOfAgreeingState(isOpen, snapPoint);
      sheet.SpringInput(isOpen, snapPoint)
    }
  }

  /** From a freshly loaded page: open at half, press at `y0`, drag down by 40% of the
      viewport, release. The live offset is 90 and the sheet closes. */
  method DragHalfToClosed(y0: real, viewportHeight: real) returns (live: real, settled: SnapPoint, open: bool)
    requires viewportHeight > 0.0
    ensures live == 90.0 && settled == Closed && !open
  {
    var home := new Home();
    home.HandleSnapPointChange(Half);
    home.PressHandle(y0);
    assert (y0 + 0.4 * viewportHeight - y0) / viewportHeight == 0.4;
    home.MovePointer(y0 + 0.4 * viewportHeight, viewportHeight);
    live := home.sheet.currentTranslate;
    home.ReleasePointer();
    ResolveThresholds(live);
    settled, open := home.snapPoint, home.isOpen;
  }

  /** From a freshly loaded page opened at `point`: Escape fires the close callback
      once if the sheet was open, and a second Escape fires nothing. */
  method EscapeTwice(point: SnapPoint) returns (first: bool, second: bool, settled: SnapPoint)
    ensures first <==> point != Closed
    ensures !second && settled == Closed
  {
    var home := new Home();
    home.HandleSnapPointChange(point);
    first := home.KeyDown("Escape");
    second := home.KeyDown("Escape");
    settled := home.snapPoint;
  }

  /** Reaching any state by `first` and then applying `point` once or twice ends in the
      same page state. */
  method SnapPointChangeTwice(first: SnapPoint, point: SnapPoint) returns (once: (bool, SnapPoint), twice: (bool, SnapPoint))
    ensures once == twice == (point != Closed, point)
  {
    var a := new Home();
    a.HandleSnapPointChange(first);
    a.HandleSnapPointChange(point);
    once := (a.isOpen, a.snapPoint);
    var b := new Home();
    b.HandleSnapPointChange(first);
    b.HandleSnapPointChange(point);
    b.HandleSnapPointChange(point);
    twice := (b.isOpen, b.snapPoint);
  }

  /** From a freshly loaded page opened at half, a press and release of the handle with
      no move in between sends the sheet to full: the release resolves the live offset,
      still at its initial `0`. */
  method TapAfterOpening(clientY: real) returns (settled: SnapPoint)
    ensures settled == Full
  {
    var home := new Home();
    home.HandleSnapPointChange(Half);
    home.PressHandle(clientY);
    home.ReleasePointer();
    TapResolvesStaleOffset(Initial, clientY, Position(Half));
    settled := home.snapPoint;
  }
}
