# endrawing: the drawing planner, modelled in Dafny

`endrawing.py` adds drawing sheets to an IFC building model. It does the following:

- It computes a bounding box over the element placements of all buildings, and then one box per building.
- It gives each building a sheet named `A001`, `A002`, … .
- It fills each sheet with drawings, in this order:
  - one plan per storey elevation, lowest first;
  - the NORTH, SOUTH, WEST and EAST elevations;
  - a location plan, but only when the model has more than one building.

Each drawing gets the following:

- a camera block placed from the box;
- an `EPset_Drawing` property set carrying its scale;
- an SVG path, `drawings/{name}.svg`;
- a reference on its sheet, which is its drawing id (0, 1, 2, … within the sheet).

This project models that planning layer. Calls into the IFC library are replaced by the records they would create, and the element queries are replaced by their results. So a building is its name, the origin points of its elements, and its storeys as (name, elevation) pairs.

Modules:

- `Wrappers`: `Option` and `Result`.
- `Text`: Python `str` of an integer, `str.zfill`, and a decimal reader used to state round trips.
- `Geometry`: `GeometryUtils.get_bbox`.
  - `GetBBox` is an imperative method. It keeps the two lists `bbox_min` and `bbox_max` and updates them in nested loops.
  - It is proved equal to a left fold, `Scan`, over the element points.
  - `get_bbox` raises `IndexError` when fewer than two points are accepted. The model represents that as `Failure(IndexError)`.
- `Storeys`: the `storeys` dict keyed by elevation, and `sorted` over its keys.
- `Drawings`: the creators and the values they compute:
  - `create_plan_drawing`, `create_elevation_drawing` and `create_location_plan`;
  - `create_drawing_pset` and `attach_sheet`;
  - cameras, scale labels, names and paths.
- `Generation`: `DrawingGenerator.__init__` (`NewGenerator`) and `generate_drawings` (`GenerateDrawings`), with its loops over storeys and directions.
  - `generate_drawings` is proved equal to `Generated`, a fold over one `Step` per building.
  - The lemmas about `Generated` state what the sheets hold, and what is emitted when a building's box fails.

Coordinates are Dafny `real`s, so every sum, difference and halving is exact; see "## Left out" for what that means for the lemmas about mid-points and camera blocks.

## Model

| member | source | states |
|---|---|---|
| Geometry.GetBBox | endrawing.py:82-136 | The in-place loop over spatial elements and their element points returns exactly the left fold `BBoxOf` of the flattened points: the same skip, seeding and min/max updates, and `IndexError` from the mid-point computation |
| Geometry.AcceptedMembers | endrawing.py:110-111 | The accepted points are exactly the input points whose x and y are both non-zero |
| Geometry.AcceptedSingleton | endrawing.py:110-111 | A single point is kept exactly when neither its x nor its y is 0 |
| Geometry.AcceptedAppend | endrawing.py:95-111 | The accepted points of a concatenation are those of each part, in order; with AcceptedSingleton this fixes the accepted points as the non-skipped ones in input order |
| Geometry.ScanIgnoresSkipped | endrawing.py:110-111 | The lists after the loop depend only on the accepted points |
| Geometry.SkippedPointIgnored | endrawing.py:110-111 | Inserting a point with x or y equal to 0 anywhere in the input leaves the result of get_bbox unchanged |
| Geometry.BBoxFailsIff | endrawing.py:113-136 | get_bbox fails with IndexError if and only if fewer than two points are accepted |
| Geometry.ExtremesOfCoord | endrawing.py:121-127 | The componentwise min and max folds used to describe the box are lower and upper bounds of every point and are attained by some point |
| Geometry.BBoxSeeding | endrawing.py:113-127 | `min` is the componentwise least over the accepted points without the second one, and `max` the greatest over them without the first; with exactly two accepted points, min and max are those two points verbatim |
| Geometry.BBoxMidpoint | endrawing.py:129-136 | The mid-point lies halfway between min and max in every coordinate |
| Geometry.TwoPointBox | endrawing.py:113-136 | With exactly two accepted points, min is the first and max the second, whichever is lower, and mid is their average |
| Geometry.MinMaxNotOrdered | endrawing.py:113-127 | `min <= max` is not guaranteed: for the points (2,2,2), (1,1,1) the returned min.x exceeds max.x |
| Text.NatToString | endrawing.py:393 | `str(n)` of a natural number is a non-empty string of digits without a leading zero |
| Text.IntToString | endrawing.py:286 | `str(int(scale))` starts with a minus sign exactly when the scale is negative, and the rest is a non-empty digit string |
| Text.IntToStringRoundTrip | endrawing.py:286 | The digits after the optional minus sign read back as the magnitude of the scale |
| Text.ZFill | endrawing.py:730 | `zfill(3)` pads on the left with zeros up to three characters, keeps the digits as suffix and never shortens |
| Text.NatToStringRoundTrip | endrawing.py:393 | Reading back the decimal form of n gives n |
| Text.NatToStringInjective | endrawing.py:393 | Different ids give different references |
| Text.LeadingZerosValue | endrawing.py:730 | Zero padding keeps a digit string's value |
| Text.DecimalWidth | endrawing.py:730 | A number below 10^w has at most w digits, so zfill(3) gives exactly three for sheets up to 999 |
| Storeys.StoreyTable | endrawing.py:739-746 | The dict has one key per elevation occurring among the storeys |
| Storeys.KeyOrder | endrawing.py:739-746 | The dict's keys, in insertion order, are distinct and are exactly its keys |
| Storeys.Sort | endrawing.py:752 | `sorted` keeps the length and the elements |
| Storeys.SortAscending | endrawing.py:752 | Sorting distinct elevations gives them strictly ascending |
| Storeys.LastStoreyWins | endrawing.py:746 | Among storeys sharing an elevation, the dict keeps the last one seen |
| Storeys.SelectedAscending | endrawing.py:752-753 | Plans are drawn in strictly ascending elevation order |
| Storeys.SelectedCoversElevations | endrawing.py:739-753 | A plan is drawn for every elevation occurring among the storeys and for no other |
| Storeys.SelectedLastStorey | endrawing.py:746-753 | Each plan is for the last storey listed at its elevation |
| Drawings.DrawingPsetScale | endrawing.py:276-311 | `create_drawing_pset`: `Scale` is "1/n" and `HumanScale` is "1:n" for the same n, which carries a minus sign exactly for a negative scale and whose digits read back as the scale's magnitude; the target view and selector are the ones the creator sets |
| Drawings.AttachSheetSeparates | endrawing.py:353-397 | `attach_sheet`: the sheet reference reads back as the drawing id and separates drawings exactly by id; the SVG path `drawings/{name}.svg` separates them exactly by name |
| Drawings.PlanDrawingPlaced | endrawing.py:444-510 | `create_plan_drawing`: the plan is named after its storey, seen from `PlanCamera`, attached as `drawings/{name}.svg` under a reference reading back as the given id, a PLAN_VIEW at the generator's scale; it returns the id plus one |
| Drawings.ElevationDrawingPlaced | endrawing.py:574-660 | `create_elevation_drawing`: the elevation is named "{building} {DIRECTION}", seen from `ElevationCamera`, attached under a reference reading back as the given id, an ELEVATION_VIEW of the building's products at the generator's scale; it returns the id plus one |
| Drawings.LocationPlanPlaced | endrawing.py:662-721 | `create_location_plan`: the plan is named "{building} LOCATION", seen from `LocationCamera`, attached under a reference reading back as the given id, a PLAN_VIEW of site, roofs, walls and slabs at ten times the generator's scale; it returns the id plus one |
| Drawings.ElevationCameraFrame | endrawing.py:594-645 | `ElevationCamera`: placed as `create_camera_shape` places a block (lines 192-196), each camera's block spans the box plus one unit on each side across (x for NORTH and SOUTH, y for WEST and EAST) and in height, and its height axis (axis × reference direction) points straight up |
| Drawings.OppositeCamerasMeet | endrawing.py:594-630 | Each elevation camera's depth reaches exactly to the opposite camera |
| Drawings.ElevationCamerasFaceBox | endrawing.py:599-630 | For every box whose mid-point is the average of min and max, each elevation camera's reference direction is horizontal and perpendicular to its axis, and the axis points from the box centre towards the camera exactly when the camera block's depth is positive |
| Drawings.ElevationCameraFacesAway | endrawing.py:599-605 | For the box get_bbox returns from (10,10,1) then (1,1,1), the NORTH camera stands south of the centre, looking away from the box, with a negative depth |
| Drawings.PlanCameraFrame | endrawing.py:463-489 | `PlanCamera`: the camera stands 1.8 above the storey over the box mid-point; its block covers the box plus one unit in plan and reaches 10 down |
| Drawings.LocationCameraFrame | endrawing.py:675-696 | `LocationCamera`: the camera's block is the box of all buildings grown by one unit on every side |
| Generation.NewGenerator | endrawing.py:248-274 | Construction fails exactly when fewer than two element points are accepted over all buildings, and otherwise keeps the settings and get_bbox of all buildings |
| Generation.NewDefaultGenerator | endrawing.py:248-258 | Construction with the default scale 100 and titleblock "A2", failing in the same case |
| Generation.CollectStoreys | endrawing.py:739-746 | The dict-filling loop yields the storey table and its key order |
| Generation.DrawPlans | endrawing.py:749-760 | The plan loop draws one plan per selected storey, ascending, with ids 0..P-1, and leaves drawing_id at P |
| Generation.DrawElevations | endrawing.py:765-773 | The direction loop draws NORTH, SOUTH, WEST, EAST with ids first..first+3 and leaves drawing_id at first + 4 |
| Generation.DrawSheet | endrawing.py:748-779 | The drawings of one sheet are the sheet layout of the building's selected storeys |
| Generation.GenerateDrawings | endrawing.py:723-779 | The loop over buildings emits exactly `Generated` over all buildings, stopping after the sheet of the first building whose box fails |
| Generation.GeneratedStep | endrawing.py:729-779 | One iteration from a run without error so far: when the building's box fails, its drawing-less sheet ends the whole run with that error; otherwise its sheet, holding the building's drawings, is appended |
| Generation.GeneratedStopped | endrawing.py:735 | After a failed box, the remaining buildings add nothing |
| Generation.RunStopped | endrawing.py:735 | Once an iteration has failed, later iterations change nothing |
| Generation.RunProgress | endrawing.py:727-779 | `Run`: sheets are emitted one per iteration in order up to the first failure; no error means every iteration succeeded |
| Generation.SheetIdentificationShape | endrawing.py:729-730 | `SheetIdentification`: sheet k's identification is "A" followed by digits whose value is k, four characters for k below 1000 |
| Generation.SheetIdentificationInjective | endrawing.py:729-730 | Different sheets get different identifications |
| Generation.SheetFiles | endrawing.py:399-442 | `create_sheet_info`: different sheets get different `layouts/{id} - {building}.svg` files whatever the building names, and all share the titleblock file and the "General Arrangement" description |
| Generation.PlansInOrder | endrawing.py:752-760 | Plan i is for storey i, named after it, under id i |
| Generation.ElevationsInOrder | endrawing.py:766-773 | Elevation k faces ElevationOrder[k], is named "{building} {DIRECTION}" and sits under id first + k |
| Generation.SheetIds | endrawing.py:749-779 | A sheet with P plans holds P + 4 drawings, plus one exactly when there are several buildings, and drawing i sits under id i |
| Generation.SheetPlans | endrawing.py:752-760 | A sheet starts with its plans, in storey order, named after the storeys |
| Generation.SheetElevations | endrawing.py:766-773 | After the P plans come the four elevations in NORTH, SOUTH, WEST, EAST order |
| Generation.SheetLocation | endrawing.py:776-779 | The last drawing is the "{building} LOCATION" plan with id P + 4 exactly when there is more than one building |
| Generation.SheetReferencesDistinct | endrawing.py:749-779 | The drawings on one sheet have pairwise different references |
| Generation.BuildingStepContents | endrawing.py:729-779 | `BuildingStep`: building k gets sheet k + 1 with its name and the titleblock; its iteration fails exactly when fewer than two of its points are accepted, leaving the sheet empty, and otherwise fills it with the sheet layout of its box |
| Generation.GeneratedSheetAt | endrawing.py:727-731 | `Generated`: sheet k of the output is the sheet of building k |
| Generation.GeneratedCompletes | endrawing.py:727-779 | The run gets through the first n buildings without error exactly when each has at least two accepted points, and then it has emitted n sheets |
| Generation.GeneratedStopsAt | endrawing.py:731-735 | When the run stops, its last sheet belongs to the first building with fewer than two accepted points, and holds no drawings |
| Generation.SinglePointGroup | endrawing.py:735 | get_bbox over the one-building list is the box of that building's points |

## Left out

- IFC entity construction is not modelled. This covers every `ifcopenshell`/`api` call: placements, directions, annotations, `IfcDocumentInformation`/`IfcDocumentReference` records and the `IfcRelAssociatesDocument` links to the project. Only the values those entities carry that the planner decides are kept: names, positions, axes, camera block sizes, scale strings, selectors, paths, references and sheet information.
- The following are not part of this model:
  - `ContextManager.ensure_contexts` (library context lookup and creation);
  - `ShapeCreator.create_camera_shape` and `create_label_shape` (only the three block sizes passed to the camera shape are kept);
  - `create_drawing_group` (a group named after the drawing).
- `create_space_labels` and `GeometryUtils.get_centroid` are not modelled. They depend on library relationships and on tessellated mesh vertices averaged in floating point.
- Element queries are replaced by their results. `filter_elements`, `get_local_placement` and `by_type` are given as inputs: the element origin points and the storeys of each building.
- The `natsorted` order of buildings is not modelled. Buildings arrive in their sheet order.
- `unit_scale_mm` (computed and never used) is left out. So is `main`: host detection, argument handling and reading and writing the model file.
- The constant `EPset_Drawing` properties (underlay, linework, stylesheet and asset paths, shading style) are left out; only the scale strings, target view and `Include` selector are modelled.
- Drawings.LocationPlanPlaced: the scale is an integer, so `int(scale)` truncation of a fractional scale and the float `self.scale * 10.0` of the location plan are not modelled beyond `10 * scale`.
- Text.ZFill: modelled for unsigned digit strings only. Python's handling of a leading sign never arises, because sheet numbers are positive.
- Directions are the four the loop passes. The source's fall-through for any other direction string is unreachable from `generate_drawings` and is not modelled.
- Python's `sorted` on floats with NaN is not modelled: elevations are reals.
- Coordinates are reals, not IEEE doubles. The additions of 2, 0.5 and 1.0 and the halving round in the source, and the lemmas below hold exactly only over reals. For example, with min 0.1 and max 0.7 as doubles, mid - min is 0.29999999999999993 but max - mid is 0.3.
- Geometry.BBoxMidpoint: exact over reals only; with doubles, the mid-point can be off the exact half by a rounding error.
- Drawings.OppositeCamerasMeet: exact over reals only; with doubles, the depth can miss the opposite camera by a rounding error.
- Drawings.PlanCameraFrame: exact over reals only; with doubles, the block's edges can differ from min - 1 and max + 1 by a rounding error.
- Drawings.ElevationCameraFrame: exact over reals only, for the same reason.
- Drawings.LocationCameraFrame: exact over reals only, for the same reason.
