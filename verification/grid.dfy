/** The 3x3 zone grid the autonomous mode buckets a face position into.
    Columns and rows are cut with integer division; every zone is a half-open
    rectangle [x1, x2) x [y1, y2); anything outside every rectangle is CENTER. */
module Grid {

  datatype Zone =
    | TopLeft | TopCenter | TopRight
    | CenterLeft | Center | CenterRight
    | BottomLeft | BottomCenter | BottomRight

  /** A zone rectangle (x1, y1, x2, y2) as setup_grid_zones stores it. */
  datatype Rect = Rect(x1: int, y1: int, x2: int, y2: int)

  predicate Contains(r: Rect, x: int, y: int)
  {
    r.x1 <= x < r.x2 && r.y1 <= y < r.y2
  }

  /** The frame every script uses. */
  const FrameWidth: nat := 640
  const FrameHeight: nat := 480

  /** The order in which the zones dict is filled, and so searched. */
  const ZoneOrder: seq<Zone> :=
    [TopLeft, TopCenter, TopRight, CenterLeft, Center, CenterRight, BottomLeft, BottomCenter, BottomRight]

  /** Column index of a zone: 0 left, 1 centre, 2 right. */
  function ColumnOf(z: Zone): (c: nat)
    ensures c <= 2
  {
    match z
    case TopLeft | CenterLeft | BottomLeft => 0
    case TopCenter | Center | BottomCenter => 1
    case TopRight | CenterRight | BottomRight => 2
  }

  /** Row index of a zone: 0 top, 1 middle, 2 bottom. */
  function RowOf(z: Zone): (r: nat)
    ensures r <= 2
  {
    match z
    case TopLeft | TopCenter | TopRight => 0
    case CenterLeft | Center | CenterRight => 1
    case BottomLeft | BottomCenter | BottomRight => 2
  }

  /** The zone at a given row and column. */
  function ZoneAt(row: nat, col: nat): (z: Zone)
    requires row <= 2 && col <= 2
    ensures RowOf(z) == row && ColumnOf(z) == col
  {
    if row == 0 then (if col == 0 then TopLeft else if col == 1 then TopCenter else TopRight)
    else if row == 1 then (if col == 0 then CenterLeft else if col == 1 then Center else CenterRight)
    else (if col == 0 then BottomLeft else if col == 1 then BottomCenter else BottomRight)
  }

  /** The rectangle setup_grid_zones gives a zone in a width x height frame. */
  function ZoneRect(z: Zone, width: nat, height: nat): Rect
  {
    var cw, rh := width / 3, height / 3;
    var xs := [0, cw, cw * 2, width];
    var ys := [0, rh, rh * 2, height];
    Rect(xs[ColumnOf(z)], ys[RowOf(z)], xs[ColumnOf(z) + 1], ys[RowOf(z) + 1])
  }

  predicate InFrame(width: nat, height: nat, x: int, y: int)
  {
    0 <= x < width && 0 <= y < height
  }

  /** Reference classification: the column is found by comparing x against the
      two cut lines width//3 and 2*(width//3), the row likewise; outside the
      frame the answer is CENTER. */
  function Classify(width: nat, height: nat, x: int, y: int): Zone
  {
    if !InFrame(width, height, x, y) then Center
    else
      var cw, rh := width / 3, height / 3;
      var col := if x < cw then 0 else if x < cw * 2 then 1 else 2;
      var row := if y < rh then 0 else if y < rh * 2 then 1 else 2;
      ZoneAt(row, col)
  }

  /** The nine rectangles partition the frame: a point lies in a zone's
      rectangle exactly when it is inside the frame and the reference
      classification picks that zone. */
  lemma ContainsIffClassified(z: Zone, width: nat, height: nat, x: int, y: int)
    ensures Contains(ZoneRect(z, width, height), x, y)
            <==> InFrame(width, height, x, y) && Classify(width, height, x, y) == z
  {
    var cw, rh := width / 3, height / 3;
    assert cw * 2 <= width && rh * 2 <= height;
  }

  /** Two zones never share a point. */
  lemma ZonesDisjoint(z1: Zone, z2: Zone, width: nat, height: nat, x: int, y: int)
    requires Contains(ZoneRect(z1, width, height), x, y)
    requires Contains(ZoneRect(z2, width, height), x, y)
    ensures z1 == z2
  {
    ContainsIffClassified(z1, width, height, x, y);
    ContainsIffClassified(z2, width, height, x, y);
  }

  /** Every point of the frame lies in some zone. */
  lemma ZonesCover(width: nat, height: nat, x: int, y: int)
    requires InFrame(width, height, x, y)
    ensures Contains(ZoneRect(Classify(width, height, x, y), width, height), x, y)
  {
    ContainsIffClassified(Classify(width, height, x, y), width, height, x, y);
  }

  /** get_face_zone: search the zones in dict order and return the first
      rectangle that holds the point; if none does, CENTER. */
  method GetFaceZone(width: nat, height: nat, x: int, y: int) returns (zone: Zone)
    ensures zone == Classify(width, height, x, y)
    ensures Contains(ZoneRect(zone, width, height), x, y)
            || (zone == Center && forall z :: !Contains(ZoneRect(z, width, height), x, y))
  {
    var i := 0;
    while i < |ZoneOrder|
      invariant 0 <= i <= |ZoneOrder|
      invariant forall j :: 0 <= j < i ==> !Contains(ZoneRect(ZoneOrder[j], width, height), x, y)
    {
      var r := ZoneRect(ZoneOrder[i], width, height);
      if r.x1 <= x < r.x2 && r.y1 <= y < r.y2 {
        zone := ZoneOrder[i];
        ContainsIffClassified(zone, width, height, x, y);
        return;
      }
      i := i + 1;
    }
    forall z ensures !Contains(ZoneRect(z, width, height), x, y) {
      assert z == ZoneOrder[ColumnOf(z) + 3 * RowOf(z)];
    }
    if InFrame(width, height, x, y) {
      ZonesCover(width, height, x, y);
    }
    zone := Center;
  }

  /** The cut lines of the 640x480 frame: col_width = 213, row_height = 160;
      (0,0) is TOP_LEFT and the frame centre (320,240) is CENTER. */
  lemma StandardFrameCases()
    ensures Classify(FrameWidth, FrameHeight, 0, 0) == TopLeft
    ensures Classify(FrameWidth, FrameHeight, 320, 240) == Center
    ensures ColumnOf(Classify(FrameWidth, FrameHeight, 212, 0)) == 0
    ensures ColumnOf(Classify(FrameWidth, FrameHeight, 213, 0)) == 1
    ensures ColumnOf(Classify(FrameWidth, FrameHeight, 425, 0)) == 1
    ensures ColumnOf(Classify(FrameWidth, FrameHeight, 426, 0)) == 2
    ensures RowOf(Classify(FrameWidth, FrameHeight, 0, 159)) == 0
    ensures RowOf(Classify(FrameWidth, FrameHeight, 0, 160)) == 1
    ensures RowOf(Classify(FrameWidth, FrameHeight, 0, 319)) == 1
    ensures RowOf(Classify(FrameWidth, FrameHeight, 0, 320)) == 2
    ensures Classify(FrameWidth, FrameHeight, 639, 479) == BottomRight
    ensures Classify(FrameWidth, FrameHeight, 640, 0) == Center
    ensures Classify(FrameWidth, FrameHeight, -1, 0) == Center
    ensures Classify(FrameWidth, FrameHeight, 0, 480) == Center
  {
  }
}
