/** The interaction logic of the bottom sheet component: a drag session kept in
    four pieces of component state (`isDragging`, `dragStartY`, `dragStartTranslate`,
    `currentTranslate`), the handlers that update it, and the three rules the
    component derives from its props (Escape closes, background scroll locks, the
    spring's input). Pointer coordinates and the viewport height are plain reals. */
module BottomSheet {
  import opened SnapPoints

  datatype Option<T> = None | Some(value: T)

  /** The drag session as a value: the four state hooks of the component. */
  datatype DragState = DragState(isDragging: bool, dragStartY: real, dragStartTranslate: real, currentTranslate: real)

  /** Every hook starts at `false` or `0`. */
  const Initial: DragState := DragState(false, 0.0, 0.0, 0.0)

  /** What the drag session may hold: the live offset is on the track or still the
      untouched initial `0`; the origin offset is a snap position (or the initial `0`),
      and a snap position whenever a drag is in progress. */
  predicate Consistent(d: DragState) {
    (d.currentTranslate == 0.0 || OnTrack(d.currentTranslate)) &&
    (d.dragStartTranslate == 0.0 || IsSnapPosition(d.dragStartTranslate)) &&
    (d.isDragging ==> IsSnapPosition(d.dragStartTranslate))
  }

  /** The unclamped offset a pointer at `clientY` asks for: the origin offset plus the
      pointer's travel since the press, in percent of the viewport height. */
  function Requested(d: DragState, clientY: real, viewportHeight: real): (r: real)
    requires viewportHeight > 0.0
    ensures clientY == d.dragStartY ==> r == d.dragStartTranslate
    ensures clientY < d.dragStartY ==> r < d.dragStartTranslate
    ensures clientY > d.dragStartY ==> r > d.dragStartTranslate
  {
    d.dragStartTranslate + (clientY - d.dragStartY) / viewportHeight * 100.0
  }

  /** Pressing the handle: a session starts at the pointer and at the sheet's resting
      position `target`; the live offset keeps whatever value it had. */
  function Start(d: DragState, clientY: real, target: real): (r: DragState)
    ensures r.isDragging && r.dragStartY == clientY && r.dragStartTranslate == target
    ensures r.currentTranslate == d.currentTranslate
    ensures Consistent(d) && IsSnapPosition(target) ==> Consistent(r)
    ensures End(r).1 == Some(Resolve(d.currentTranslate))
  {
    d.(isDragging := true, dragStartY := clientY, dragStartTranslate := target)
  }

  /** Moving the pointer: ignored without a session, otherwise the live offset follows
      the pointer one to one, pinned to the track. */
  function Move(d: DragState, clientY: real, viewportHeight: real): (r: DragState)
    requires viewportHeight > 0.0
    ensures !d.isDragging ==> r == d
    ensures d.isDragging ==> r == d.(currentTranslate := r.currentTranslate) && OnTrack(r.currentTranslate)
    ensures d.isDragging && OnTrack(Requested(d, clientY, viewportHeight)) ==>
              r.currentTranslate == Requested(d, clientY, viewportHeight)
    ensures d.isDragging && Requested(d, clientY, viewportHeight) < MinPosition ==> r.currentTranslate == MinPosition
    ensures d.isDragging && MaxPosition < Requested(d, clientY, viewportHeight) ==> r.currentTranslate == MaxPosition
  {
    if !d.isDragging then d
    else d.(currentTranslate := ClampToTrack(Requested(d, clientY, viewportHeight)))
  }

  /** Releasing the pointer: ignored without a session (no snap change is emitted),
      otherwise the session ends and exactly one snap change is emitted, naming the
      snap point nearest to the live offset. */
  function End(d: DragState): (r: (DragState, Option<SnapPoint>))
    ensures !d.isDragging ==> r == (d, None)
    ensures d.isDragging ==> r.0 == d.(isDragging := false) && r.1 == Some(Resolve(d.currentTranslate))
  {
    if !d.isDragging then (d, None)
    else (d.(isDragging := false), Some(Resolve(d.currentTranslate)))
  }

  /** Each handler keeps the session consistent, starting from the initial state. */
  lemma ConsistentPreserved(d: DragState, clientY: real, viewportHeight: real, isOpen: bool, snapPoint: SnapPoint)
    requires Consistent(d) && viewportHeight > 0.0
    ensures Consistent(Initial)
    ensures Consistent(Start(d, clientY, TargetPosition(isOpen, snapPoint)))
    ensures Consistent(Move(d, clientY, viewportHeight))
    ensures Consistent(End(d).0)
  {
  }

  /** A release emits the snap point nearest to the live offset, the earliest in the
      order closed, half, full among equally near ones. */
  lemma ReleaseSnapsToNearest(d: DragState, q: SnapPoint)
    requires d.isDragging
    ensures End(d).1.Some?
    ensures Distance(d.currentTranslate, Position(End(d).1.value)) <= Distance(d.currentTranslate, Position(q))
    ensures Distance(d.currentTranslate, Position(End(d).1.value)) == Distance(d.currentTranslate, Position(q)) ==>
              Rank(End(d).1.value) <= Rank(q)
  {
    ResolveIsFirstNearest(d.currentTranslate, q);
  }

  /** Dividing by the positive viewport height keeps the order of pointer travels. */
  lemma ScaleMonotone(a: real, b: real, h: real)
    requires a <= b && h > 0.0
    ensures a / h * 100.0 <= b / h * 100.0
  {
    assert b / h - a / h == (b - a) / h;
  }

  /** Moving the pointer further down never moves the sheet up. */
  lemma MoveMonotone(d: DragState, y1: real, y2: real, viewportHeight: real)
    requires d.isDragging && y1 <= y2 && viewportHeight > 0.0
    ensures Move(d, y1, viewportHeight).currentTranslate <= Move(d, y2, viewportHeight).currentTranslate
  {
    ScaleMonotone(y1 - d.dragStartY, y2 - d.dragStartY, viewportHeight);
    ClampMonotone(Requested(d, y1, viewportHeight), Requested(d, y2, viewportHeight));
  }

  /** Bringing the pointer back to where it was pressed puts the sheet back at its origin. */
  lemma MoveBackToOrigin(d: DragState, viewportHeight: real)
    requires Consistent(d) && d.isDragging && viewportHeight > 0.0
    ensures Move(d, d.dragStartY, viewportHeight).currentTranslate == d.dragStartTranslate
  {
    assert Requested(d, d.dragStartY, viewportHeight) == d.dragStartTranslate;
  }

  /** Pointer travel of a whole viewport height or more pins the sheet to an end of the
      track: downwards at the closed position, upwards at the full position. */
  lemma LongDragPinsToEnds(d: DragState, clientY: real, viewportHeight: real)
    requires Consistent(d) && d.isDragging && viewportHeight > 0.0
    ensures clientY - d.dragStartY >= viewportHeight ==> Move(d, clientY, viewportHeight).currentTranslate == MaxPosition
    ensures d.dragStartY - clientY >= viewportHeight ==> Move(d, clientY, viewportHeight).currentTranslate == MinPosition
  {
    var travel := clientY - d.dragStartY;
    if travel >= viewportHeight {
      ScaleMonotone(viewportHeight, travel, viewportHeight);
      assert viewportHeight / viewportHeight == 1.0;
    }
    if -travel >= viewportHeight {
      ScaleMonotone(travel, -viewportHeight, viewportHeight);
      assert -viewportHeight / viewportHeight == -1.0;
    }
  }

  /** A second press without a release in between is not ignored: it replaces the
      origin of the first. */
  lemma SecondStartOverwritesOrigin(d: DragState, y1: real, t1: real, y2: real, t2: real)
    ensures Start(Start(d, y1, t1), y2, t2) == Start(d, y2, t2)
    ensures Start(Start(d, y1, t1), y2, t2).dragStartY == y2
  {
  }

  /** Press and release with no move in between snaps by the live offset left over from
      earlier (the press position and the resting position play no part); on a sheet
      that was never dragged that offset is `0`, which resolves to full. */
  lemma TapResolvesStaleOffset(d: DragState, clientY: real, target: real)
    ensures End(Start(d, clientY, target)).1 == Some(Resolve(d.currentTranslate))
    ensures End(Start(Initial, clientY, target)).1 == Some(Full)
  {
    ResolveThresholds(0.0);
  }

  /** The keydown rule: Escape asks the host to close the sheet, and only while it is open. */
  function ClosesOnKey(key: string, isOpen: bool): (r: bool)
    ensures !isOpen ==> !r
    ensures key != "Escape" ==> !r
    ensures isOpen ==> (r <==> key == "Escape")
  {
    key == "Escape" && isOpen
  }

  /** Background scrolling is locked while the sheet is open at its full snap point,
      that is, exactly while its resting position is the top of the track. */
  function LocksScroll(isOpen: bool, snapPoint: SnapPoint): (r: bool)
    ensures r <==> TargetPosition(isOpen, snapPoint) == MinPosition
    ensures r ==> isOpen
  {
    isOpen && snapPoint == Full
  }

  /** The component's drag state, updated in place by its handlers. */
  class Sheet {
    var isDragging: bool
    var dragStartY: real
    var dragStartTranslate: real
    var currentTranslate: real

    function State(): DragState
      reads this
    {
      DragState(isDragging, dragStartY, dragStartTranslate, currentTranslate)
    }

    ghost predicate Valid()
      reads this
    {
      Consistent(State())
    }

    constructor ()
      ensures Valid() && State() == Initial
    {
      isDragging := false;
      dragStartY := 0.0;
      dragStartTranslate := 0.0;
      currentTranslate := 0.0;
    }

    /** Press on the handle at `clientY`, with the sheet's current props. */
    method DragStart(clientY: real, isOpen: bool, snapPoint: SnapPoint)
      requires Valid()
      modifies this
      ensures Valid()
      ensures State() == Start(old(State()), clientY, TargetPosition(isOpen, snapPoint))
    {
      isDragging := true;
      dragStartY := clientY;
      dragStartTranslate := TargetPosition(isOpen, snapPoint);
    }

    /** Pointer moved to `clientY` in a viewport `viewportHeight` high. */
    method DragMove(clientY: real, viewportHeight: real)
      requires Valid() && viewportHeight > 0.0
      modifies this
      ensures Valid()
      ensures State() == Move(old(State()), clientY, viewportHeight)
    {
      if !isDragging {
        return;
      }
      var deltaY := clientY - dragStartY;
      var deltaPercent := deltaY / viewportHeight * 100.0;
      currentTranslate := ClampToTrack(dragStartTranslate + deltaPercent);
    }

    /** Pointer released; `change` is the snap change emitted to the host, if any. */
    method DragEnd() returns (change: Option<SnapPoint>)
      requires Valid()
      modifies this
      ensures Valid()
      ensures (State(), change) == End(old(State()))
    {
      if !isDragging {
        return None;
      }
      isDragging := false;
      var closest := Closest(currentTranslate, Table);
      change := Some(Table[closest].0);
    }

    /** The target handed to the spring: the live offset while dragging, otherwise the
        resting position of the props. */
    function SpringInput(isOpen: bool, snapPoint: SnapPoint): (r: real)
      reads this
      requires Valid()
      ensures isDragging ==> r == currentTranslate
      ensures !isDragging ==> r == TargetPosition(isOpen, snapPoint) && IsSnapPosition(r)
      ensures r == 0.0 || OnTrack(r)
    {
      if isDragging then currentTranslate else TargetPosition(isOpen, snapPoint)
    }
  }
}
