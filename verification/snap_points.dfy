/** The snap table of the bottom sheet and the two pure computations built on it:
    the position the sheet rests at for a given (isOpen, snapPoint) state, and the
    choice of the snap point nearest to a free position when a drag is released.
    Positions are vertical offsets in percent of the viewport height; a larger
    offset hides more of the sheet. */
module SnapPoints {

  /** The snap points, declared in the order in which the table enumerates them. */
  datatype SnapPoint = Closed | Half | Full

  /** The table position of each snap point. */
  function Position(p: SnapPoint): real {
    match p
    case Closed => 100.0
    case Half => 50.0
    case Full => 10.0
  }

  /** Enumeration order of the table: the index of `p`'s entry in `Table`, as its
      contract states (closed, half, full). */
  function Rank(p: SnapPoint): (r: nat)
    ensures r < |Table| && Table[r] == (p, Position(p))
  {
    match p
    case Closed => 0
    case Half => 1
    case Full => 2
  }

  /** The lowest offset a drag may reach (the `full` position) and the highest (the `closed` position). */
  const MinPosition: real := 10.0
  const MaxPosition: real := 100.0

  /** The snap table as an ordered list of (id, position) entries, in the key order of its object literal. */
  const Table: seq<(SnapPoint, real)> := [(Closed, Position(Closed)), (Half, Position(Half)), (Full, Position(Full))]

  predicate OnTrack(x: real) {
    MinPosition <= x <= MaxPosition
  }

  predicate IsSnapPosition(x: real) {
    x == Position(Closed) || x == Position(Half) || x == Position(Full)
  }

  /** Every snap point sits at the table entry of its rank, and the table holds nothing else. */
  lemma TableEntries(p: SnapPoint)
    ensures |Table| == 3 && Table[Rank(p)] == (p, Position(p))
    ensures forall i :: 0 <= i < |Table| ==> Rank(Table[i].0) == i && Table[i].1 == Position(Table[i].0)
  {
  }

  /** Where the sheet rests for a given state: fully hidden when it is not open,
      otherwise at the table position of its snap point. */
  function TargetPosition(isOpen: bool, snapPoint: SnapPoint): (r: real)
    ensures r == MaxPosition <==> !isOpen || snapPoint == Closed
    ensures isOpen ==> r == Position(snapPoint)
    ensures OnTrack(r) && IsSnapPosition(r)
  {
    if !isOpen then Position(Closed) else Position(snapPoint)
  }

  /** `Math.max(full, Math.min(closed, x))`: the drag offset pinned to the track. */
  function ClampToTrack(x: real): (r: real)
    ensures OnTrack(r)
    ensures OnTrack(x) ==> r == x
    ensures x < MinPosition ==> r == MinPosition
    ensures MaxPosition < x ==> r == MaxPosition
  {
    var upper := if MaxPosition < x then MaxPosition else x;
    if MinPosition < upper then upper else MinPosition
  }

  /** Clamping never reverses the order of two offsets. */
  lemma ClampMonotone(x: real, y: real)
    requires x <= y
    ensures ClampToTrack(x) <= ClampToTrack(y)
  {
  }

  /** `Math.abs(a - b)`. */
  function Distance(a: real, b: real): (d: real)
    ensures d >= 0.0
    ensures d == 0.0 <==> a == b
  {
    if a < b then b - a else a - b
  }

  /** A position in `table` whose entry is no farther from `v` than any other, and
      strictly nearer than every entry before it. */
  ghost predicate IsFirstNearest<Id>(v: real, table: seq<(Id, real)>, k: int) {
    0 <= k < |table| &&
    (forall j :: 0 <= j < |table| ==> Distance(v, table[k].1) <= Distance(v, table[j].1)) &&
    (forall j :: 0 <= j < k ==> Distance(v, table[k].1) < Distance(v, table[j].1))
  }

  /** The index kept by folding the table from left to right, with its first entry as
      the starting accumulator, where an entry replaces the accumulator only when its
      distance to `v` is strictly smaller. */
  function Closest<Id>(v: real, table: seq<(Id, real)>): (k: nat)
    requires |table| > 0
    ensures k < |table|
    ensures forall j :: 0 <= j < |table| ==> Distance(v, table[k].1) <= Distance(v, table[j].1)
    ensures forall j :: 0 <= j < k ==> Distance(v, table[k].1) < Distance(v, table[j].1)
    decreases |table|
  {
    if |table| == 1 then 0
    else
      var prev := Closest(v, table[..|table| - 1]);
      var last := |table| - 1;
      if Distance(v, table[last].1) < Distance(v, table[prev].1) then last else prev
  }

  /** The fold's choice is the only index that is a first nearest entry. */
  lemma ClosestIsFirstNearest<Id>(v: real, table: seq<(Id, real)>, k: int)
    requires |table| > 0
    ensures IsFirstNearest(v, table, k) <==> k == Closest(v, table)
  {
  }

  /** The snap point the release of a drag at offset `v` resolves to: the id of the
      first nearest entry of the table. */
  function Resolve(v: real): (p: SnapPoint)
    ensures Rank(p) == Closest(v, Table)
    ensures forall j :: 0 <= j < |Table| ==> Distance(v, Position(p)) <= Distance(v, Table[j].1)
    ensures forall j :: 0 <= j < Rank(p) ==> Distance(v, Position(p)) < Distance(v, Table[j].1)
  {
    Table[Closest(v, Table)].0
  }

  /** The resolved snap point is a nearest one, and among equally near snap points it
      is the earliest in the order closed, half, full. */
  lemma ResolveIsFirstNearest(v: real, q: SnapPoint)
    ensures Distance(v, Position(Resolve(v))) <= Distance(v, Position(q))
    ensures Distance(v, Position(Resolve(v))) == Distance(v, Position(q)) ==> Rank(Resolve(v)) <= Rank(q)
  {
    var k := Closest(v, Table);
    TableEntries(q);
    assert Table[Rank(q)] == (q, Position(q));
    assert Rank(Resolve(v)) == k && Table[k].1 == Position(Resolve(v));
  }

  /** The three-point table splits the track at the two midpoints: below 30 the sheet
      goes full, from 30 (the half/full midpoint, a tie won by half) up to 75 it goes
      half, and from 75 (the closed/half midpoint, a tie won by closed) it closes. */
  lemma ResolveThresholds(v: real)
    ensures Resolve(v) == if v < 30.0 then Full else if v < 75.0 then Half else Closed
  {
    assert Table[..1] == [(Closed, 100.0)];
    assert Table[..2] == [(Closed, 100.0), (Half, 50.0)];
    assert Table[..2][..1] == Table[..1];
    var first := Closest(v, Table[..1]);
    var two := Closest(v, Table[..2]);
    assert two == if Distance(v, 50.0) < Distance(v, 100.0) then 1 else 0;
  }

  /** Worked instances, including the ties at 30 and 75. */
  lemma ResolveExamples()
    ensures Resolve(30.0) == Half && Resolve(75.0) == Closed && Resolve(80.0) == Closed
    ensures Resolve(55.0) == Half && Resolve(90.0) == Closed && Resolve(0.0) == Full
  {
    ResolveThresholds(30.0);
    ResolveThresholds(75.0);
    ResolveThresholds(80.0);
    ResolveThresholds(55.0);
    ResolveThresholds(90.0);
    ResolveThresholds(0.0);
  }

  /** Releasing exactly at a snap point's position resolves to that snap point. */
  lemma ResolvePosition(p: SnapPoint)
    ensures Resolve(Position(p)) == p
  {
    ResolveThresholds(Position(p));
  }
}
