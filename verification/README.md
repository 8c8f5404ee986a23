# Bottom sheet interaction model

A Dafny model of the interaction logic of a draggable bottom sheet and of the demo page that hosts it.

The sheet rests at one of three snap points: `closed` at offset 100, `half` at 50 and `full` at 10. Offsets are percent of the viewport height, and a larger offset hides more of the sheet. The page owns two props, `isOpen` and `snapPoint`. One handler updates both and keeps `isOpen` equal to "the snap point is not closed". The sheet keeps a drag session in four pieces of state: `isDragging`, `dragStartY`, `dragStartTranslate` and `currentTranslate`.

- Pressing the handle starts a session. Its origin is the pointer position and the sheet's resting position for the current props.
- Moving the pointer sets the live offset. The offset is the origin plus the pointer travel in percent of the viewport height, pinned to `[10, 100]`.
- Releasing ends the session and emits one snap change. That change names the snap point nearest to the live offset. Ties go to the earlier entry in the order closed, half, full.
- Escape closes an open sheet.
- Background scrolling is locked at the full snap point.
- The spring animation follows the live offset during a drag and the resting position otherwise.

Files:

- `snap_points.dfy` (module `SnapPoints`): the snap table, the resting position, the clamp, and the nearest-snap resolver. The resolver is written over any non-empty ordered table and proved "first minimum wins". The three-point table is then an instance, with its two thresholds at 30 and 75.
- `bottom_sheet.dfy` (module `BottomSheet`): the drag session as a value (`DragState`) and the pure transitions `Start`, `Move` and `End`, which serve as its specification. Class `Sheet` holds the four state fields. Its handler methods update those fields in place and are proved against the transitions. This file also holds the Escape and scroll-lock rules.
- `page.dfy` (module `Page`): class `Home` holds `isOpen`, `snapPoint` and the hosted `Sheet`. It has the invariant `isOpen <==> snapPoint != Closed` and wires the sheet's callbacks to the page's handler. The file ends with client scenarios.

Where the code may surprise a reader, the model follows the code:

- A second press without a release is not ignored. It overwrites the session's origin (`SecondStartOverwritesOrigin`).
- Escape does not end a drag in progress (`Home.KeyDown` leaves the sheet's state unchanged).
- The live offset is not reset when a press starts. A press and release with no move therefore snaps by the previous live offset. On a sheet that was never dragged, that offset is the initial `0`, which resolves to `full` (`TapResolvesStaleOffset`, `TapAfterOpening`).
- No pointer velocity is measured, so a flick adds nothing. The spring keeps the velocity it had while chasing the live offset. The spring is not modelled (see Left out).
- The scroll lock tests `isOpen && snapPoint == full`. Under the page invariant this is the same as `snapPoint == full` (`Home.ScrollLocked`).

## Model

| member | source | states |
|---|---|---|
| `SnapPoints.TableEntries` | components/bottom-sheet.tsx:90-94 | the table lists closed, half and full in that order, at positions 100, 50 and 10 |
| `SnapPoints.Rank` | components/bottom-sheet.tsx:90-94 | a snap point's rank is the index of its own entry in the table, so the enumeration order is the table's key order |
| `SnapPoints.TargetPosition` | components/bottom-sheet.tsx:97-100 | the resting position is 100 exactly when the sheet is not open or is closed; an open sheet rests at its snap point's table position; the result is always a snap position on the track |
| `SnapPoints.ClampToTrack` | components/bottom-sheet.tsx:125 | the result is always in `[10, 100]`; an in-range offset is kept exactly; below 10 gives 10; above 100 gives 100 |
| `SnapPoints.ClampMonotone` | components/bottom-sheet.tsx:125 | clamping preserves the order of two offsets |
| `SnapPoints.Distance` | components/bottom-sheet.tsx:141 | the distance is non-negative and zero exactly when the two offsets are equal |
| `SnapPoints.Closest` | components/bottom-sheet.tsx:139-144 | for any non-empty ordered table, the left-to-right strict-`<` fold returns an index whose entry is no farther than any other entry and strictly nearer than every earlier one |
| `SnapPoints.ClosestIsFirstNearest` | components/bottom-sheet.tsx:144 | an index is the fold's choice if and only if it is the first nearest entry, so the choice is uniquely characterised |
| `SnapPoints.Resolve` | components/bottom-sheet.tsx:139-146 | the release resolves to the snap point of the first nearest entry of the three-point table: its rank is the fold's index, it is no farther than any entry and strictly nearer than every earlier one; `ResolveIsFirstNearest` and `ResolveThresholds` characterise it further |
| `SnapPoints.ResolveIsFirstNearest` | components/bottom-sheet.tsx:139-144 | the resolved snap point is at least as near as every snap point; among equally near ones it is the earliest in the order closed, half, full |
| `SnapPoints.ResolveThresholds` | components/bottom-sheet.tsx:139-144 | with the three-point table, offsets below 30 resolve to full, offsets in `[30, 75)` to half, and offsets from 75 up to closed |
| `SnapPoints.ResolveExamples` | components/bottom-sheet.tsx:139-144 | 30 resolves to half and 75 to closed (both ties); 80 and 90 resolve to closed, 55 to half, 0 to full |
| `SnapPoints.ResolvePosition` | components/bottom-sheet.tsx:139-144 | releasing exactly at a snap point's position resolves to that snap point |
| `BottomSheet.Requested` | components/bottom-sheet.tsx:123-125 | the unclamped offset is the origin when the pointer is back at its press position, below the origin when the pointer is above it, and above the origin when the pointer is below it |
| `BottomSheet.Start` | components/bottom-sheet.tsx:109-114 | a press sets the drag flag, the pointer origin and the resting-position origin, and keeps the live offset; from a consistent state with a snap-position origin the result is consistent; an immediate release resolves the previous live offset |
| `BottomSheet.Move` | components/bottom-sheet.tsx:119-128 | with no session the state is unchanged; otherwise only the live offset changes, and it lands in `[10, 100]`; it equals the origin plus the pointer travel in percent when that is in range, else the nearer bound |
| `BottomSheet.End` | components/bottom-sheet.tsx:133-146 | with no session nothing changes and no snap change is emitted; otherwise the session ends, nothing else changes, and exactly one snap change is emitted, naming the resolved snap point |
| `BottomSheet.ConsistentPreserved` | components/bottom-sheet.tsx:84-146 | the initial state and every handler keep the session consistent: the live offset is on the track or still the initial 0, and a drag in progress has a snap position as its origin |
| `BottomSheet.ReleaseSnapsToNearest` | components/bottom-sheet.tsx:133-146 | a release during a session emits a snap point nearest to the live offset, the earliest among ties |
| `BottomSheet.MoveMonotone` | components/bottom-sheet.tsx:123-127 | moving the pointer further down never moves the sheet up |
| `BottomSheet.MoveBackToOrigin` | components/bottom-sheet.tsx:123-125 | a pointer back at its press position puts the sheet back at the drag origin |
| `BottomSheet.LongDragPinsToEnds` | components/bottom-sheet.tsx:123-125 | pointer travel of at least one viewport height pins the sheet at 100 going down and at 10 going up |
| `BottomSheet.SecondStartOverwritesOrigin` | components/bottom-sheet.tsx:109-114 | a second press replaces the first press's origin; no reentrancy guard |
| `BottomSheet.TapResolvesStaleOffset` | components/bottom-sheet.tsx:109-146 | press then release with no move emits the snap point of the earlier live offset; from the initial state that is full |
| `BottomSheet.ClosesOnKey` | components/bottom-sheet.tsx:209 | a sheet that is not open never closes on a key; no key but Escape closes; an open sheet closes on Escape |
| `BottomSheet.LocksScroll` | components/bottom-sheet.tsx:220 | scrolling is locked exactly when the resting position is the top of the track (10), and only while the sheet is open |
| `BottomSheet.Sheet.constructor` | components/bottom-sheet.tsx:84-87 | the four state fields start at `false`, 0, 0, 0 |
| `BottomSheet.Sheet.DragStart` | components/bottom-sheet.tsx:109-114 | the session starts at the pointer and at the props' resting position; the live offset is left untouched; consistency is kept |
| `BottomSheet.Sheet.DragMove` | components/bottom-sheet.tsx:119-128 | the new state is `Move` of the old, so it is a no-op without a session and a clamped update otherwise |
| `BottomSheet.Sheet.DragEnd` | components/bottom-sheet.tsx:133-146 | the new state and the emitted change are `End` of the old state |
| `BottomSheet.Sheet.SpringInput` | components/bottom-sheet.tsx:103 | the spring's input is the live offset while dragging, otherwise the resting position, which is a snap position; it is always on the track or the initial 0 |
| `Page.RestingPositionOfAgreeingState` | components/bottom-sheet.tsx:97-100 | when `isOpen` agrees with the snap point, the resting position is the snap point's own |
| `Page.Home.constructor` | app/page.tsx:10-11 | the page starts not open at `closed`, so the invariant holds initially |
| `Page.Home.HandleSnapPointChange` | app/page.tsx:13-16 | afterwards the snap point is `point` and `isOpen == (point != closed)`; the invariant is preserved; the drag state is untouched |
| `Page.Home.Close` | app/page.tsx:85 | the close callback leaves the page closed and not open |
| `Page.Home.PressHandle` | components/bottom-sheet.tsx:109-114 | under the page invariant, the drag origin is the current snap point's position |
| `Page.Home.MovePointer` | components/bottom-sheet.tsx:119-128 | the hosted sheet moves as `Move` specifies; the page invariant is kept |
| `Page.Home.ReleasePointer` | app/page.tsx:81-86 | a release without a session changes no page state; one with a session routes the emitted snap point through the page handler |
| `Page.Home.KeyDown` | components/bottom-sheet.tsx:208-211 | the close callback fires exactly when the key is Escape and the sheet is open, and then the page is closed; otherwise nothing changes; the drag session is never touched |
| `Page.Home.ScrollLocked` | components/bottom-sheet.tsx:220-224 | under the page invariant, scrolling is locked exactly at the full snap point, and only while open |
| `Page.Home.SpringTarget` | components/bottom-sheet.tsx:103 | the spring follows the live offset during a drag and the page's snap position otherwise |
| `Page.DragHalfToClosed` | components/bottom-sheet.tsx:109-146 | open at half, drag down 40% of the viewport: the live offset is 90, and the release closes the sheet |
| `Page.EscapeTwice` | components/bottom-sheet.tsx:208-211 | the first Escape fires close exactly when the sheet was open; a second Escape fires nothing; the sheet ends closed |
| `Page.SnapPointChangeTwice` | app/page.tsx:13-16 | applying the same snap change twice gives the same page state as applying it once |
| `Page.TapAfterOpening` | components/bottom-sheet.tsx:84-146 | on a freshly loaded page opened at half, a press and release with no move sends the sheet to full |

## Left out

- The spring integrator (components/bottom-sheet.tsx:18-72) is left out. It is floating-point numerics driven by animation-frame timestamps and React re-renders. Only its input is modelled, in `Sheet.SpringInput` and `Home.SpringTarget`.
- Registering and removing the global pointer and key listeners, and cancelling animation frames, are browser plumbing and are left out. Each handler is modelled as a method called directly.
- DOM effects are left out: the `document.body.style.overflow` writes, `preventDefault`, and reading `clientY` from mouse and touch events. Only the scroll-lock condition is modelled, and the handlers take a plain `clientY`.
- JSX rendering is left out: the backdrop, the sheet markup, class names and the page's cards and buttons. The backdrop's click handler and the page buttons call the same `onClose` and snap-change handler that are modelled.
- React batching and re-render timing are left out. Each handler is one atomic state update, and each handler sees the state left by the previous one.
- `BottomSheet.Move`, `BottomSheet.Requested`, `BottomSheet.Sheet.DragMove` and `Page.Home.MovePointer` require a positive viewport height. With a zero height, JavaScript division gives an infinity or NaN, and floating-point rounding is not modelled either; offsets are exact reals.
