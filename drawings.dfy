/**
 * The drawing creators of DrawingGenerator with the library calls replaced
 * by the records they would create: each drawing's name, kind, camera,
 * EPset_Drawing properties and its document reference on the sheet.
 */
module Drawings {
  import opened Wrappers
  import opened Text
  import opened Geometry

  datatype Direction = North | South | West | East

  /** The order in which elevations are drawn on a sheet. */
  const ElevationOrder: seq<Direction> := [North, South, West, East]

  function DirectionName(d: Direction): string {
    match d
    case North => "NORTH"
    case South => "SOUTH"
    case West => "WEST"
    case East => "EAST"
  }

  datatype View = PlanView | ElevationView

  datatype Kind = PlanOf(elevation: real) | ElevationOf(direction: Direction) | LocationOf

  /**
   * A camera annotation: its placement (position, optional axis and reference
   * direction) and the x, y, z sizes of the camera's block shape.
   */
  datatype Camera = Camera(position: Point3, axis: Option<Point3>, refDirection: Option<Point3>, dims: Point3)

  /** The varying properties of EPset_Drawing. */
  datatype Pset = Pset(targetView: View, scale: string, humanScale: string, selector: Option<string>)

  /** The SVG document of a drawing and its identification on the sheet. */
  datatype Attachment = Attachment(path: string, reference: string)

  datatype Drawing = Drawing(name: string, kind: Kind, camera: Camera, pset: Pset, attachment: Attachment)

  /** Box sizes with one unit of margin on each side: `max - min + 2`. */
  function Dims(bb: BBox): Point3 {
    Point3(bb.max.x - bb.min.x + 2.0, bb.max.y - bb.min.y + 2.0, bb.max.z - bb.min.z + 2.0)
  }

  function ScaleLabel(scale: int): string {
    "1/" + IntToString(scale)
  }

  function HumanScaleLabel(scale: int): string {
    "1:" + IntToString(scale)
  }

  /** create_drawing_pset, with the target view and selector set afterwards by each creator. */
  function DrawingPset(scale: int, view: View, selector: Option<string>): Pset {
    Pset(view, ScaleLabel(scale), HumanScaleLabel(scale), selector)
  }

  function DrawingPath(name: string): string {
    "drawings/" + name + ".svg"
  }

  /** attach_sheet: the drawing's SVG, placed on the sheet under the drawing id. */
  function AttachSheet(name: string, drawingId: nat): Attachment {
    Attachment(DrawingPath(name), NatToString(drawingId))
  }

  function ElevationInclude(buildingName: string): string {
    "IfcTypeProduct, IfcProduct, location=\"" + buildingName + "\""
  }

  function LocationInclude(buildingName: string): string {
    "IfcSite + IfcRoof, IfcWall, IfcSlab, location=\"" + buildingName + "\""
  }

  /** Plan camera: over the box mid-point, 1.8 above the storey, 10 deep. */
  function PlanCamera(bb: BBox, elevation: real): Camera {
    var dims := Dims(bb);
    Camera(Point3(bb.mid.x, bb.mid.y, elevation + 1.8), None, None, Point3(dims.x, dims.y, 10.0))
  }

  /** Elevation camera: 0.5 outside the face of the box named by the direction. */
  function ElevationCamera(bb: BBox, d: Direction): Camera {
    var dims := Dims(bb);
    match d
    case North =>
      Camera(Point3(bb.mid.x, bb.max.y + 0.5, bb.mid.z), Some(Point3(0.0, 1.0, 0.0)),
             Some(Point3(-1.0, 0.0, 0.0)), Point3(dims.x, dims.z, dims.y - 1.0))
    case South =>
      Camera(Point3(bb.mid.x, bb.min.y - 0.5, bb.mid.z), Some(Point3(0.0, -1.0, 0.0)),
             Some(Point3(1.0, 0.0, 0.0)), Point3(dims.x, dims.z, dims.y - 1.0))
    case West =>
      Camera(Point3(bb.min.x - 0.5, bb.mid.y, bb.mid.z), Some(Point3(-1.0, 0.0, 0.0)),
             Some(Point3(0.0, -1.0, 0.0)), Point3(dims.y, dims.z, dims.x - 1.0))
    case East =>
      Camera(Point3(bb.max.x + 0.5, bb.mid.y, bb.mid.z), Some(Point3(1.0, 0.0, 0.0)),
             Some(Point3(0.0, 1.0, 0.0)), Point3(dims.y, dims.z, dims.x - 1.0))
  }

  /** Location camera: over the mid-point of all buildings, 1 above their top. */
  function LocationCamera(all: BBox): Camera {
    Camera(Point3(all.mid.x, all.mid.y, all.max.z + 1.0), None, None, Dims(all))
  }

  /** create_plan_drawing: the drawing and the next drawing id. */
  function CreatePlanDrawing(storeyName: string, elevation: real, bb: BBox, scale: int, drawingId: nat): (Drawing, nat) {
    (Drawing(storeyName, PlanOf(elevation), PlanCamera(bb, elevation),
             DrawingPset(scale, PlanView, None), AttachSheet(storeyName, drawingId)),
     drawingId + 1)
  }

  /** create_elevation_drawing: the drawing and the next drawing id. */
  function CreateElevationDrawing(buildingName: string, bb: BBox, d: Direction, scale: int, drawingId: nat): (Drawing, nat) {
    var name := buildingName + " " + DirectionName(d);
    (Drawing(name, ElevationOf(d), ElevationCamera(bb, d),
             DrawingPset(scale, ElevationView, Some(ElevationInclude(buildingName))), AttachSheet(name, drawingId)),
     drawingId + 1)
  }

  /** create_location_plan: the drawing and the next drawing id; drawn at ten times the scale. */
  function CreateLocationPlan(buildingName: string, all: BBox, scale: int, drawingId: nat): (Drawing, nat) {
    var name := buildingName + " LOCATION";
    (Drawing(name, LocationOf, LocationCamera(all),
             DrawingPset(10 * scale, PlanView, Some(LocationInclude(buildingName))), AttachSheet(name, drawingId)),
     drawingId + 1)
  }

  /**
   * create_drawing_pset: `Scale` reads "1/n" and `HumanScale` reads "1:n" for
   * the same n, where n carries a minus sign exactly for a negative scale and
   * its digits read back as the scale's magnitude.
   */
  lemma DrawingPsetScale(scale: int, view: View, selector: Option<string>)
    ensures var p := DrawingPset(scale, view, selector);
      && p.targetView == view && p.selector == selector
      && |p.scale| >= 3 && p.scale[..2] == "1/" && p.humanScale[..2] == "1:" && p.scale[2..] == p.humanScale[2..]
      && (p.scale[2] == '-' <==> scale < 0)
      && (scale >= 0 ==> AllDigits(p.scale[2..]) && DigitsValue(p.scale[2..]) == scale)
      && (scale < 0 ==> AllDigits(p.scale[3..]) && DigitsValue(p.scale[3..]) == -scale)
  {
    var p := DrawingPset(scale, view, selector);
    assert p.scale[2..] == IntToString(scale);
    IntToStringRoundTrip(scale);
    if scale < 0 {
      assert p.scale[3..] == IntToString(scale)[1..];
    }
  }

  /**
   * attach_sheet: the sheet reference tells drawings apart exactly by their
   * ids and reads back as the id; the SVG path tells them apart exactly by
   * their names.
   */
  lemma AttachSheetSeparates(name: string, drawingId: nat, other: string, otherId: nat)
    ensures var a, b := AttachSheet(name, drawingId), AttachSheet(other, otherId);
      && AllDigits(a.reference) && DigitsValue(a.reference) == drawingId
      && (a.reference == b.reference <==> drawingId == otherId)
      && (a.path == b.path <==> name == other)
  {
    NatToStringRoundTrip(drawingId);
    if drawingId != otherId {
      NatToStringInjective(drawingId, otherId);
    }
    var a, b := AttachSheet(name, drawingId), AttachSheet(other, otherId);
    if a.path == b.path {
      assert name == a.path[9..|a.path| - 4] == b.path[9..|b.path| - 4] == other;
    }
  }

  /**
   * create_plan_drawing: the plan is named after its storey, placed on the
   * sheet under the given id as `drawings/{name}.svg`, shown as a plan view
   * at the generator's scale from the plan camera; the next id is one more.
   */
  lemma PlanDrawingPlaced(storeyName: string, elevation: real, bb: BBox, scale: int, drawingId: nat)
    ensures var r := CreatePlanDrawing(storeyName, elevation, bb, scale, drawingId); var d := r.0;
      && r.1 == drawingId + 1
      && d.name == storeyName && d.kind == PlanOf(elevation) && d.camera == PlanCamera(bb, elevation)
      && d.attachment.path == "drawings/" + storeyName + ".svg"
      && AllDigits(d.attachment.reference) && DigitsValue(d.attachment.reference) == drawingId
      && d.pset.targetView == PlanView && d.pset.selector.None?
      && (scale >= 0 ==> AllDigits(d.pset.scale[2..]) && DigitsValue(d.pset.scale[2..]) == scale)
  {
    DrawingPsetScale(scale, PlanView, None);
    NatToStringRoundTrip(drawingId);
  }

  /**
   * create_elevation_drawing: the elevation is named "{building} {DIRECTION}",
   * placed under the given id as `drawings/{name}.svg`, shown as an elevation
   * view of the building's products at the generator's scale from the camera
   * for its direction; the next id is one more.
   */
  lemma ElevationDrawingPlaced(buildingName: string, bb: BBox, dir: Direction, scale: int, drawingId: nat)
    ensures var r := CreateElevationDrawing(buildingName, bb, dir, scale, drawingId); var d := r.0;
      && r.1 == drawingId + 1
      && d.name == buildingName + " " + DirectionName(dir) && d.kind == ElevationOf(dir)
      && d.camera == ElevationCamera(bb, dir)
      && d.attachment.path == "drawings/" + d.name + ".svg"
      && AllDigits(d.attachment.reference) && DigitsValue(d.attachment.reference) == drawingId
      && d.pset.targetView == ElevationView && d.pset.selector == Some(ElevationInclude(buildingName))
      && (scale >= 0 ==> AllDigits(d.pset.scale[2..]) && DigitsValue(d.pset.scale[2..]) == scale)
  {
    DrawingPsetScale(scale, ElevationView, Some(ElevationInclude(buildingName)));
    NatToStringRoundTrip(drawingId);
  }

  /**
   * create_location_plan: the location plan is named "{building} LOCATION",
   * placed under the given id as `drawings/{name}.svg`, shown as a plan view
   * of the site and the building's roofs, walls and slabs at ten times the
   * generator's scale from the camera over all buildings; the next id is one
   * more.
   */
  lemma LocationPlanPlaced(buildingName: string, all: BBox, scale: int, drawingId: nat)
    ensures var r := CreateLocationPlan(buildingName, all, scale, drawingId); var d := r.0;
      && r.1 == drawingId + 1
      && d.name == buildingName + " LOCATION" && d.kind == LocationOf && d.camera == LocationCamera(all)
      && d.attachment.path == "drawings/" + d.name + ".svg"
      && AllDigits(d.attachment.reference) && DigitsValue(d.attachment.reference) == drawingId
      && d.pset.targetView == PlanView && d.pset.selector == Some(LocationInclude(buildingName))
      && (scale >= 0 ==> AllDigits(d.pset.scale[2..]) && DigitsValue(d.pset.scale[2..]) == 10 * scale)
  {
    DrawingPsetScale(10 * scale, PlanView, Some(LocationInclude(buildingName)));
    NatToStringRoundTrip(drawingId);
  }

  /** The cross product; `Cross(axis, refDirection)` is a placement's local y axis. */
  function Cross(a: Point3, b: Point3): Point3 {
    Point3(a.y * b.z - a.z * b.y, a.z * b.x - a.x * b.z, a.x * b.y - a.y * b.x)
  }

  /**
   * An elevation camera's block, placed as the camera shape places it
   * (centred on the camera across and in height, reaching back along the
   * axis), spans the box plus one unit on each side across and in height:
   * across is x for NORTH and SOUTH and y for WEST and EAST, and the block's
   * height runs straight up, its local y axis being world z.
   */
  lemma ElevationCameraFrame(bb: BBox, dir: Direction)
    requires bb.mid.x == (bb.min.x + bb.max.x) / 2.0 && bb.mid.y == (bb.min.y + bb.max.y) / 2.0
    requires bb.mid.z == (bb.min.z + bb.max.z) / 2.0
    ensures var c := ElevationCamera(bb, dir);
      && c.axis.Some? && c.refDirection.Some?
      && Cross(c.axis.value, c.refDirection.value) == Point3(0.0, 0.0, 1.0)
      && c.position.z - c.dims.y / 2.0 == bb.min.z - 1.0 && c.position.z + c.dims.y / 2.0 == bb.max.z + 1.0
      && ((dir == North || dir == South) ==>
            c.position.x - c.dims.x / 2.0 == bb.min.x - 1.0 && c.position.x + c.dims.x / 2.0 == bb.max.x + 1.0)
      && ((dir == West || dir == East) ==>
            c.position.y - c.dims.x / 2.0 == bb.min.y - 1.0 && c.position.y + c.dims.x / 2.0 == bb.max.y + 1.0)
  {
    match dir
    case North =>
      assert Cross(Point3(0.0, 1.0, 0.0), Point3(-1.0, 0.0, 0.0)) == Point3(0.0, 0.0, 1.0);
    case South =>
      assert Cross(Point3(0.0, -1.0, 0.0), Point3(1.0, 0.0, 0.0)) == Point3(0.0, 0.0, 1.0);
    case West =>
      assert Cross(Point3(-1.0, 0.0, 0.0), Point3(0.0, -1.0, 0.0)) == Point3(0.0, 0.0, 1.0);
    case East =>
      assert Cross(Point3(1.0, 0.0, 0.0), Point3(0.0, 1.0, 0.0)) == Point3(0.0, 0.0, 1.0);
  }

  /**
   * The depth of each elevation camera reaches exactly to where the opposite
   * camera stands, so the view spans the whole box along its axis.
   */
  lemma OppositeCamerasMeet(bb: BBox)
    ensures ElevationCamera(bb, North).position.y - ElevationCamera(bb, North).dims.z
            == ElevationCamera(bb, South).position.y
    ensures ElevationCamera(bb, South).position.y + ElevationCamera(bb, South).dims.z
            == ElevationCamera(bb, North).position.y
    ensures ElevationCamera(bb, West).position.x + ElevationCamera(bb, West).dims.z
            == ElevationCamera(bb, East).position.x
    ensures ElevationCamera(bb, East).position.x - ElevationCamera(bb, East).dims.z
            == ElevationCamera(bb, West).position.x
  {
  }

  /**
   * Every elevation camera's reference direction is horizontal and
   * perpendicular to its horizontal axis; the axis points from the box centre
   * towards the camera (so the camera looks back at the box) exactly when the
   * camera's block has a positive depth.
   */
  lemma ElevationCamerasFaceBox(bb: BBox, dir: Direction)
    requires bb.mid.x == (bb.min.x + bb.max.x) / 2.0 && bb.mid.y == (bb.min.y + bb.max.y) / 2.0
    ensures var c := ElevationCamera(bb, dir);
      && c.axis.Some? && c.refDirection.Some?
      && (c.axis.value.x * (c.position.x - bb.mid.x) + c.axis.value.y * (c.position.y - bb.mid.y) > 0.0
          <==> c.dims.z > 0.0)
      && c.axis.value.x * c.refDirection.value.x + c.axis.value.y * c.refDirection.value.y == 0.0
      && c.axis.value.z == 0.0 && c.refDirection.value.z == 0.0
  {
  }

  /**
   * For the box get_bbox returns when the first accepted point lies north-east
   * of the second, the NORTH camera stands south of the box centre, looking
   * away from it, and its block has a negative depth.
   */
  lemma ElevationCameraFacesAway()
    ensures var r := BBoxOfPoints([Point3(10.0, 10.0, 1.0), Point3(1.0, 1.0, 1.0)]);
      && r.Success?
      && var c := ElevationCamera(r.value, North);
         c.axis == Some(Point3(0.0, 1.0, 0.0)) && c.position.y < r.value.mid.y && c.dims.z < 0.0
  {
    TwoPointBox(Point3(10.0, 10.0, 1.0), Point3(1.0, 1.0, 1.0));
  }

  /**
   * The plan camera's block, placed centred below the camera, covers the box
   * plus one unit on every side in plan and reaches 10 down from 1.8 above
   * the storey.
   */
  lemma PlanCameraFrame(bb: BBox, elevation: real)
    requires bb.mid.x == (bb.min.x + bb.max.x) / 2.0 && bb.mid.y == (bb.min.y + bb.max.y) / 2.0
    ensures var c := PlanCamera(bb, elevation);
      && c.position.x - c.dims.x / 2.0 == bb.min.x - 1.0 && c.position.x + c.dims.x / 2.0 == bb.max.x + 1.0
      && c.position.y - c.dims.y / 2.0 == bb.min.y - 1.0 && c.position.y + c.dims.y / 2.0 == bb.max.y + 1.0
      && c.position.z == elevation + 1.8 && c.position.z - c.dims.z == elevation - 8.2
  {
  }

  /** The location camera's block is the box of all buildings grown by one unit on every side. */
  lemma LocationCameraFrame(all: BBox)
    requires all.mid.x == (all.min.x + all.max.x) / 2.0 && all.mid.y == (all.min.y + all.max.y) / 2.0
    ensures var c := LocationCamera(all);
      && c.position.x - c.dims.x / 2.0 == all.min.x - 1.0 && c.position.x + c.dims.x / 2.0 == all.max.x + 1.0
      && c.position.y - c.dims.y / 2.0 == all.min.y - 1.0 && c.position.y + c.dims.y / 2.0 == all.max.y + 1.0
      && c.position.z - c.dims.z == all.min.z - 1.0 && c.position.z == all.max.z + 1.0
  {
  }
}
