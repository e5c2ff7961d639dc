/**
 * DrawingGenerator: its construction (the bounding box of all buildings) and
 * generate_drawings, which gives every building a sheet and fills it with
 * plans, elevations and, when there are several buildings, a location plan.
 * The entities the library would add to the model are returned as records.
 */
module Generation {
  import opened Wrappers
  import opened Text
  import opened Geometry
  import opened Storeys
  import opened Drawings

  /**
   * A building as the generator sees it: its name, the origin points of the
   * elements located in it, and its storeys in the order the element query
   * returns them.
   */
  datatype Building = Building(name: string, points: seq<Point3>, storeys: seq<Storey>)

  /** The generator's settings after construction; buildings are in sheet order. */
  datatype DrawingGenerator = DrawingGenerator(buildings: seq<Building>, scale: int, titleblock: string, bboxAll: BBox)

  /** The SHEET document information and its two document references. */
  datatype SheetInfo = SheetInfo(identification: string, name: string, description: string,
                                 layoutPath: string, titleblockPath: string)

  datatype Sheet = Sheet(info: SheetInfo, drawings: seq<Drawing>)

  /** The sheets emitted, and the error that stopped the run, if any. */
  datatype Outcome = Outcome(sheets: seq<Sheet>, error: Option<BBoxError>)

  const DefaultScale: int := 100
  const DefaultTitleblock: string := "A2"

  function PointGroups(buildings: seq<Building>): (groups: seq<seq<Point3>>)
    ensures |groups| == |buildings|
  {
    seq(|buildings|, i requires 0 <= i < |buildings| => buildings[i].points)
  }

  /** DrawingGenerator.__init__ with its default scale and titleblock. */
  method NewDefaultGenerator(buildings: seq<Building>) returns (r: Result<DrawingGenerator, BBoxError>)
    ensures r.Failure? <==> |Accepted(Flatten(PointGroups(buildings)))| < 2
    ensures r.Success? ==>
      && r.value.buildings == buildings && r.value.scale == 100 && r.value.titleblock == "A2"
      && BBoxOf(PointGroups(buildings)) == Success(r.value.bboxAll)
  {
    r := NewGenerator(buildings, DefaultScale, DefaultTitleblock);
  }

  /**
   * DrawingGenerator.__init__: the bounding box over all buildings; it fails
   * when fewer than two element points are accepted in all.
   */
  method NewGenerator(buildings: seq<Building>, scale: int, titleblock: string)
    returns (r: Result<DrawingGenerator, BBoxError>)
    ensures r.Failure? <==> |Accepted(Flatten(PointGroups(buildings)))| < 2
    ensures r.Success? ==>
      && r.value.buildings == buildings && r.value.scale == scale && r.value.titleblock == titleblock
      && BBoxOf(PointGroups(buildings)) == Success(r.value.bboxAll)
  {
    var bboxAll := GetBBox(PointGroups(buildings));
    BBoxFailsIff(Flatten(PointGroups(buildings)));
    if bboxAll.Failure? {
      return Failure(bboxAll.error);
    }
    r := Success(DrawingGenerator(buildings, scale, titleblock, bboxAll.value));
  }

  /** Sheet k (from 1) is identified as "A" followed by k zero-padded to three digits. */
  function SheetIdentification(k: nat): string {
    "A" + ZFill(NatToString(k), 3)
  }

  /** create_sheet_info */
  function CreateSheetInfo(identification: string, buildingName: string, titleblock: string): SheetInfo {
    SheetInfo(identification, buildingName, "General Arrangement",
              "layouts/" + identification + " - " + buildingName + ".svg",
              "layouts/titleblocks/" + titleblock + ".svg")
  }

  function PlanDrawings(plans: seq<Storey>, bb: BBox, scale: int): (ds: seq<Drawing>)
    ensures |ds| == |plans|
  {
    seq(|plans|, i requires 0 <= i < |plans| => CreatePlanDrawing(plans[i].name, plans[i].elevation, bb, scale, i).0)
  }

  function ElevationDrawings(buildingName: string, bb: BBox, scale: int, first: nat): (ds: seq<Drawing>)
    ensures |ds| == 4
  {
    seq(4, k requires 0 <= k < 4 => CreateElevationDrawing(buildingName, bb, ElevationOrder[k], scale, first + k).0)
  }

  /** The location plan, placed under id `first`; only drawn when there are several buildings. */
  function LocationPart(buildingName: string, all: BBox, scale: int, first: nat, several: bool): seq<Drawing> {
    if several then [CreateLocationPlan(buildingName, all, scale, first).0] else []
  }

  /**
   * The drawings of the sheet of building `buildingName`, whose box is `bb`,
   * for the storeys `plans`; `all` is the box of all buildings and `several`
   * says whether there is more than one building.
   */
  function SheetLayout(plans: seq<Storey>, buildingName: string, bb: BBox, scale: int, all: BBox, several: bool): seq<Drawing> {
    PlanDrawings(plans, bb, scale)
    + ElevationDrawings(buildingName, bb, scale, |plans|)
    + LocationPart(buildingName, all, scale, |plans| + 4, several)
  }

  /** The drawings placed on the sheet of building `b` whose bounding box is `bb`. */
  function SheetDrawings(g: DrawingGenerator, b: Building, bb: BBox): seq<Drawing> {
    SheetLayout(SelectedStoreys(b.storeys), b.name, bb, g.scale, g.bboxAll, |g.buildings| > 1)
  }

  /**
   * What one iteration of generate_drawings produces: the sheet it emits,
   * and the error that stops the run, if any.
   */
  datatype Step = Step(sheet: Sheet, error: Option<BBoxError>)

  /**
   * The iteration for building k (counted from 0): sheet k + 1, holding the
   * building's drawings when its bounding box exists; when the box fails, the
   * sheet stays without drawings and the run stops with that error.
   */
  function BuildingStep(g: DrawingGenerator, k: nat): Step
    requires k < |g.buildings|
  {
    var b := g.buildings[k];
    var info := CreateSheetInfo(SheetIdentification(k + 1), b.name, g.titleblock);
    match BBoxOfPoints(b.points)
    case Failure(e) => Step(Sheet(info, []), Some(e))
    case Success(bb) => Step(Sheet(info, SheetDrawings(g, b, bb)), None)
  }

  function Steps(g: DrawingGenerator): (steps: seq<Step>)
    ensures |steps| == |g.buildings|
  {
    seq(|g.buildings|, k requires 0 <= k < |g.buildings| => BuildingStep(g, k))
  }

  /** The outcome of running the iterations `steps` in order, stopping after the first error. */
  function Run(steps: seq<Step>): Outcome {
    if steps == [] then Outcome([], None)
    else
      var prev := Run(steps[..|steps| - 1]);
      if prev.error.Some? then prev
      else Outcome(prev.sheets + [steps[|steps| - 1].sheet], steps[|steps| - 1].error)
  }

  /** What generate_drawings has emitted after the first `n` buildings. */
  function Generated(g: DrawingGenerator, n: nat): Outcome
    requires n <= |g.buildings|
  {
    Run(Steps(g)[..n])
  }

  /** The loop that fills the `storeys` dict, keyed by elevation; `keys` is the dict's key order. */
  method CollectStoreys(ss: seq<Storey>) returns (storeys: map<real, string>, keys: seq<real>)
    ensures storeys == StoreyTable(ss) && keys == KeyOrder(ss)
  {
    storeys := map[];
    keys := [];
    for j := 0 to |ss|
      invariant storeys == StoreyTable(ss[..j])
      invariant keys == KeyOrder(ss[..j])
    {
      assert ss[..j + 1][..j] == ss[..j];
      var storey := ss[j];
      if storey.elevation !in storeys {
        keys := keys + [storey.elevation];
      }
      storeys := storeys[storey.elevation := storey.name];
    }
    assert ss[..|ss|] == ss;
  }

  /** The body of the loop over buildings once the sheet and the bounding box exist. */
  method DrawSheet(g: DrawingGenerator, b: Building, bb: BBox) returns (drawings: seq<Drawing>)
    ensures drawings == SheetDrawings(g, b, bb)
  {
    var plans, drawingId := DrawPlans(b.storeys, bb, g.scale);
    var elevations;
    elevations, drawingId := DrawElevations(b.name, bb, g.scale, drawingId);
    drawings := plans + elevations;
    if |g.buildings| > 1 {
      var created := CreateLocationPlan(b.name, g.bboxAll, g.scale, drawingId);
      drawings := drawings + [created.0];
      drawingId := created.1;
    }
  }

  /**
   * The loop over the storeys of a building, lowest first: one plan per
   * distinct elevation, numbered from 0; `drawingId` is the next free id.
   */
  method DrawPlans(ss: seq<Storey>, bb: BBox, scale: int) returns (drawings: seq<Drawing>, drawingId: nat)
    ensures drawings == PlanDrawings(SelectedStoreys(ss), bb, scale)
    ensures drawingId == |drawings|
  {
    var storeys, keys := CollectStoreys(ss);
    var elevations := Sort(keys);
    drawingId := 0;
    drawings := [];
    for i := 0 to |elevations|
      invariant drawingId == i
      invariant drawings == PlanDrawings(SelectedStoreys(ss), bb, scale)[..i]
    {
      var elevation := elevations[i];
      PlanStep(ss, bb, scale, i);
      var created := CreatePlanDrawing(storeys[elevation], elevation, bb, scale, drawingId);
      drawings := drawings + [created.0];
      drawingId := created.1;
    }
  }

  /**
   * The loop over the four directions: the NORTH, SOUTH, WEST and EAST
   * elevations, numbered from `first`; `drawingId` is the next free id.
   */
  method DrawElevations(buildingName: string, bb: BBox, scale: int, first: nat)
    returns (drawings: seq<Drawing>, drawingId: nat)
    ensures drawings == ElevationDrawings(buildingName, bb, scale, first)
    ensures drawingId == first + 4
  {
    drawingId := first;
    drawings := [];
    for k := 0 to |ElevationOrder|
      invariant drawingId == first + k
      invariant drawings == ElevationDrawings(buildingName, bb, scale, first)[..k]
    {
      var created := CreateElevationDrawing(buildingName, bb, ElevationOrder[k], scale, drawingId);
      ElevationPrefix(buildingName, bb, scale, first, k);
      drawings := drawings + [created.0];
      drawingId := created.1;
    }
    assert ElevationDrawings(buildingName, bb, scale, first)[..4] == ElevationDrawings(buildingName, bb, scale, first);
  }

  /** One iteration of the plan loop: the plan for the i-th lowest elevation. */
  lemma PlanStep(ss: seq<Storey>, bb: BBox, scale: int, i: nat)
    requires i < |KeyOrder(ss)|
    ensures var es := Sort(KeyOrder(ss)); var ds := PlanDrawings(SelectedStoreys(ss), bb, scale);
      && es[i] in StoreyTable(ss)
      && ds[..i + 1] == ds[..i] + [CreatePlanDrawing(StoreyTable(ss)[es[i]], es[i], bb, scale, i).0]
  {
    SelectedAt(ss, i);
    PlanPrefix(SelectedStoreys(ss), bb, scale, i);
  }

  lemma SelectedAt(ss: seq<Storey>, i: nat)
    requires i < |KeyOrder(ss)|
    ensures var es := Sort(KeyOrder(ss));
      es[i] in StoreyTable(ss) && SelectedStoreys(ss)[i] == Storey(StoreyTable(ss)[es[i]], es[i])
  {
  }

  lemma PlanPrefix(plans: seq<Storey>, bb: BBox, scale: int, i: nat)
    requires i < |plans|
    ensures PlanDrawings(plans, bb, scale)[..i + 1]
         == PlanDrawings(plans, bb, scale)[..i] + [CreatePlanDrawing(plans[i].name, plans[i].elevation, bb, scale, i).0]
  {
  }

  lemma ElevationPrefix(buildingName: string, bb: BBox, scale: int, first: nat, k: nat)
    requires k < 4
    ensures ElevationDrawings(buildingName, bb, scale, first)[..k + 1]
         == ElevationDrawings(buildingName, bb, scale, first)[..k]
            + [CreateElevationDrawing(buildingName, bb, ElevationOrder[k], scale, first + k).0]
  {
  }

  /** DrawingGenerator.generate_drawings */
  method GenerateDrawings(g: DrawingGenerator) returns (o: Outcome)
    ensures o == Generated(g, |g.buildings|)
  {
    var sheetId: nat := 0;
    var sheets: seq<Sheet> := [];
    for n := 0 to |g.buildings|
      invariant sheetId == n
      invariant Generated(g, n) == Outcome(sheets, None)
    {
      var building := g.buildings[n];
      sheetId := sheetId + 1;
      var identification := SheetIdentification(sheetId);
      var sheetInfo := CreateSheetInfo(identification, building.name, g.titleblock);
      var buildingBBox := GetBBox([building.points]);
      GeneratedStep(g, n, sheets, buildingBBox);
      if buildingBBox.Failure? {
        o := Outcome(sheets + [Sheet(sheetInfo, [])], Some(buildingBBox.error));
        return;
      }
      var drawings := DrawSheet(g, building, buildingBBox.value);
      sheets := sheets + [Sheet(sheetInfo, drawings)];
    }
    o := Outcome(sheets, None);
  }

  /**
   * One iteration of the loop over buildings, from a run without error so
   * far: when the building's box fails, its drawing-less sheet is the last
   * one of the whole run; otherwise its sheet holds the building's drawings.
   */
  lemma GeneratedStep(g: DrawingGenerator, n: nat, sheets: seq<Sheet>, box: Result<BBox, BBoxError>)
    requires n < |g.buildings| && Generated(g, n) == Outcome(sheets, None)
    requires box == BBoxOf([g.buildings[n].points])
    ensures var b := g.buildings[n];
            var info := CreateSheetInfo(SheetIdentification(n + 1), b.name, g.titleblock);
      match box
      case Failure(e) => Generated(g, |g.buildings|) == Outcome(sheets + [Sheet(info, [])], Some(e))
      case Success(bb) => Generated(g, n + 1) == Outcome(sheets + [Sheet(info, SheetDrawings(g, b, bb))], None)
  {
    SinglePointGroup(g.buildings[n].points);
    GeneratedNext(g, n);
    if box.Failure? {
      GeneratedStopped(g, n + 1);
    }
  }

  /** generate_drawings after one more building. */
  lemma GeneratedNext(g: DrawingGenerator, n: nat)
    requires n < |g.buildings|
    ensures var prev := Generated(g, n); var step := BuildingStep(g, n);
      Generated(g, n + 1)
      == if prev.error.Some? then prev else Outcome(prev.sheets + [step.sheet], step.error)
  {
    RunNext(Steps(g), n);
  }

  /** Once a building's box has failed, the buildings after it add nothing. */
  lemma GeneratedStopped(g: DrawingGenerator, n: nat)
    requires n <= |g.buildings| && Generated(g, n).error.Some?
    ensures Generated(g, |g.buildings|) == Generated(g, n)
  {
    RunStoppedPrefix(Steps(g), n);
  }

  /** Running one more iteration after the first n. */
  lemma RunNext(steps: seq<Step>, n: nat)
    requires n < |steps|
    ensures var prev := Run(steps[..n]);
      Run(steps[..n + 1])
      == if prev.error.Some? then prev else Outcome(prev.sheets + [steps[n].sheet], steps[n].error)
  {
    assert steps[..n + 1][..n] == steps[..n];
  }

  /** A run that has failed within its first n iterations ends as it was after them. */
  lemma RunStoppedPrefix(steps: seq<Step>, n: nat)
    requires n <= |steps| && Run(steps[..n]).error.Some?
    ensures Run(steps[..|steps|]) == Run(steps[..n])
  {
    RunStopped(steps[..n], steps[n..]);
    assert steps[..n] + steps[n..] == steps[..|steps|];
  }

  /** Once an iteration has failed, the iterations after it produce nothing. */
  lemma {:induction false} RunStopped(steps: seq<Step>, rest: seq<Step>)
    requires Run(steps).error.Some?
    ensures Run(steps + rest) == Run(steps)
  {
    if rest == [] {
      assert steps + rest == steps;
    } else {
      var all := steps + rest;
      RunStopped(steps, rest[..|rest| - 1]);
      assert all[..|all| - 1] == steps + rest[..|rest| - 1];
      assert Run(all) == Run(all[..|all| - 1]);
    }
  }

  /**
   * Sheet k reads "A" followed by digits whose value is k; for the first 999
   * sheets the identification is exactly four characters long.
   */
  lemma SheetIdentificationShape(k: nat)
    ensures var id := SheetIdentification(k);
      && |id| >= 4 && id[0] == 'A' && AllDigits(id[1..]) && DigitsValue(id[1..]) == k
      && (k < 1000 ==> |id| == 4)
  {
    var digits := NatToString(k);
    var id := SheetIdentification(k);
    assert id[1..] == ZFill(digits, 3);
    NatToStringRoundTrip(k);
    if |digits| < 3 {
      assert ZFill(digits, 3) == Zeros(3 - |digits|) + digits;
      LeadingZerosValue(3 - |digits|, digits);
    }
    if k < 1000 {
      DecimalWidth(k, 3);
    }
  }

  /** Different sheets get different identifications. */
  lemma SheetIdentificationInjective(j: nat, k: nat)
    requires j != k
    ensures SheetIdentification(j) != SheetIdentification(k)
  {
    SheetIdentificationShape(j);
    SheetIdentificationShape(k);
  }

  /**
   * create_sheet_info: different sheets get different layout files, whatever
   * their buildings are called (the identification's digits end where " - "
   * begins), and all sheets share the generator's titleblock file.
   */
  lemma SheetFiles(j: nat, k: nat, nameJ: string, nameK: string, titleblock: string)
    requires j != k
    ensures var a := CreateSheetInfo(SheetIdentification(j), nameJ, titleblock);
            var b := CreateSheetInfo(SheetIdentification(k), nameK, titleblock);
      && a.layoutPath != b.layoutPath
      && a.titleblockPath == b.titleblockPath == "layouts/titleblocks/" + titleblock + ".svg"
      && a.description == b.description == "General Arrangement"
  {
    SheetIdentificationShape(j);
    SheetIdentificationShape(k);
    SheetIdentificationInjective(j, k);
    LayoutPathsSeparate(SheetIdentification(j), SheetIdentification(k), nameJ, nameK);
  }

  /** Two identifications made of a letter and digits give different layout paths when they differ. */
  lemma LayoutPathsSeparate(a: string, b: string, nameA: string, nameB: string)
    requires 1 <= |a| && 1 <= |b| && AllDigits(a[1..]) && AllDigits(b[1..]) && a != b
    ensures "layouts/" + a + " - " + nameA + ".svg" != "layouts/" + b + " - " + nameB + ".svg"
  {
    if |a| < |b| {
      ShorterSeparates(a, b, nameA, nameB);
    } else if |b| < |a| {
      ShorterSeparates(b, a, nameB, nameA);
    } else {
      var pa := "layouts/" + a + " - " + nameA + ".svg";
      assert pa[8..8 + |a|] == a;
    }
  }

  /** Where the shorter identification is followed by " - ", the longer one still has a digit. */
  lemma ShorterSeparates(a: string, b: string, nameA: string, nameB: string)
    requires 1 <= |a| < |b| && AllDigits(b[1..])
    ensures "layouts/" + a + " - " + nameA + ".svg" != "layouts/" + b + " - " + nameB + ".svg"
  {
    var pb := "layouts/" + b + " - " + nameB + ".svg";
    assert pb[8 + |a|] == b[1..][|a| - 1];
  }

  /** The plans, in storey order, each named after its storey and placed under its own index. */
  lemma PlansInOrder(plans: seq<Storey>, bb: BBox, scale: int)
    ensures var ds := PlanDrawings(plans, bb, scale);
      && Numbered(ds, 0)
      && forall i :: 0 <= i < |ds| ==> ds[i].kind == PlanOf(plans[i].elevation) && ds[i].name == plans[i].name
  {
  }

  /** The four elevations in ElevationOrder, named after the building and placed from `first` on. */
  lemma ElevationsInOrder(buildingName: string, bb: BBox, scale: int, first: nat)
    ensures var es := ElevationDrawings(buildingName, bb, scale, first);
      && Numbered(es, first)
      && forall k :: 0 <= k < 4 ==>
           es[k].kind == ElevationOf(ElevationOrder[k])
           && es[k].name == buildingName + " " + DirectionName(ElevationOrder[k])
  {
  }

  lemma ConcatParts<T>(a: seq<T>, b: seq<T>, c: seq<T>)
    ensures forall i :: 0 <= i < |a| ==> (a + b + c)[i] == a[i]
    ensures forall k :: 0 <= k < |b| ==> (a + b + c)[|a| + k] == b[k]
    ensures forall k :: 0 <= k < |c| ==> (a + b + c)[|a| + |b| + k] == c[k]
  {
  }

  /** Drawing i of `ds` is placed on the sheet under id first + i, as `drawings/{name}.svg`. */
  ghost predicate Numbered(ds: seq<Drawing>, first: nat) {
    forall i :: 0 <= i < |ds| ==> ds[i].attachment == AttachSheet(ds[i].name, first + i)
  }

  lemma NumberedConcat(a: seq<Drawing>, b: seq<Drawing>, first: nat)
    requires Numbered(a, first) && Numbered(b, first + |a|)
    ensures Numbered(a + b, first)
  {
    forall i | 0 <= i < |a + b|
      ensures (a + b)[i].attachment == AttachSheet((a + b)[i].name, first + i)
    {
      if i >= |a| {
        assert (a + b)[i] == b[i - |a|];
      }
    }
  }

  /**
   * A sheet with P storey plans holds P + 4 drawings, plus one exactly when
   * there are several buildings; the i-th is placed on the sheet under id i,
   * as `drawings/{name}.svg`.
   */
  lemma SheetIds(plans: seq<Storey>, buildingName: string, bb: BBox, scale: int, all: BBox, several: bool)
    ensures var ds := SheetLayout(plans, buildingName, bb, scale, all, several);
      && |ds| == |plans| + 4 + (if several then 1 else 0)
      && Numbered(ds, 0)
  {
    var ps := PlanDrawings(plans, bb, scale);
    var es := ElevationDrawings(buildingName, bb, scale, |plans|);
    PlansInOrder(plans, bb, scale);
    ElevationsInOrder(buildingName, bb, scale, |plans|);
    NumberedConcat(ps, es, 0);
    NumberedConcat(ps + es, LocationPart(buildingName, all, scale, |plans| + 4, several), 0);
  }

  /** A sheet starts with the plans of its storeys, in order, each named after its storey. */
  lemma SheetPlans(plans: seq<Storey>, buildingName: string, bb: BBox, scale: int, all: BBox, several: bool)
    ensures var ds := SheetLayout(plans, buildingName, bb, scale, all, several);
      && |ds| >= |plans|
      && forall i :: 0 <= i < |plans| ==> ds[i].kind == PlanOf(plans[i].elevation) && ds[i].name == plans[i].name
  {
    ConcatParts(PlanDrawings(plans, bb, scale), ElevationDrawings(buildingName, bb, scale, |plans|),
                LocationPart(buildingName, all, scale, |plans| + 4, several));
    PlansInOrder(plans, bb, scale);
  }

  /** After the plans come the NORTH, SOUTH, WEST and EAST elevations, named after the building. */
  lemma SheetElevations(plans: seq<Storey>, buildingName: string, bb: BBox, scale: int, all: BBox, several: bool)
    ensures var ds := SheetLayout(plans, buildingName, bb, scale, all, several); var p := |plans|;
      && |ds| >= p + 4
      && forall k :: 0 <= k < 4 ==>
           ds[p + k].kind == ElevationOf(ElevationOrder[k])
           && ds[p + k].name == buildingName + " " + DirectionName(ElevationOrder[k])
  {
    ConcatParts(PlanDrawings(plans, bb, scale), ElevationDrawings(buildingName, bb, scale, |plans|),
                LocationPart(buildingName, all, scale, |plans| + 4, several));
    ElevationsInOrder(buildingName, bb, scale, |plans|);
  }

  /** The last drawing is the building's location plan exactly when there are several buildings. */
  lemma SheetLocation(plans: seq<Storey>, buildingName: string, bb: BBox, scale: int, all: BBox, several: bool)
    ensures var ds := SheetLayout(plans, buildingName, bb, scale, all, several); var p := |plans|;
      && (|ds| > p + 4 <==> several)
      && (several ==> |ds| == p + 5 && ds[p + 4].kind == LocationOf && ds[p + 4].name == buildingName + " LOCATION")
  {
    ConcatParts(PlanDrawings(plans, bb, scale), ElevationDrawings(buildingName, bb, scale, |plans|),
                LocationPart(buildingName, all, scale, |plans| + 4, several));
  }

  /** Drawings numbered consecutively are placed under pairwise different ids. */
  lemma NumberedDistinct(ds: seq<Drawing>, first: nat)
    requires Numbered(ds, first)
    ensures forall i, j :: 0 <= i < j < |ds| ==> ds[i].attachment.reference != ds[j].attachment.reference
  {
    forall i, j | 0 <= i < j < |ds|
      ensures ds[i].attachment.reference != ds[j].attachment.reference
    {
      NatToStringInjective(first + i, first + j);
    }
  }

  /** The drawings of one sheet are placed under pairwise different ids. */
  lemma SheetReferencesDistinct(plans: seq<Storey>, buildingName: string, bb: BBox, scale: int, all: BBox, several: bool)
    ensures var ds := SheetLayout(plans, buildingName, bb, scale, all, several);
      forall i, j :: 0 <= i < j < |ds| ==> ds[i].attachment.reference != ds[j].attachment.reference
  {
    SheetIds(plans, buildingName, bb, scale, all, several);
    NumberedDistinct(SheetLayout(plans, buildingName, bb, scale, all, several), 0);
  }

  /** Every one of the first n buildings has at least two accepted element points. */
  ghost predicate AllBoxed(bs: seq<Building>, n: nat)
    requires n <= |bs|
  {
    forall k :: 0 <= k < n ==> |Accepted(bs[k].points)| >= 2
  }

  /**
   * A run emits one sheet per iteration, in order, up to and including the
   * first iteration that fails: with no error, every iteration has emitted
   * its sheet and none failed; with an error, it is the error of the last
   * iteration that emitted a sheet, and none before it failed.
   */
  lemma {:induction false} RunProgress(steps: seq<Step>)
    ensures var o := Run(steps);
      && |o.sheets| <= |steps|
      && (forall k :: 0 <= k < |o.sheets| ==> o.sheets[k] == steps[k].sheet)
      && (o.error.None? ==> |o.sheets| == |steps| && forall k :: 0 <= k < |steps| ==> steps[k].error.None?)
      && (o.error.Some? ==>
            && 0 < |o.sheets|
            && o.error == steps[|o.sheets| - 1].error
            && forall k :: 0 <= k < |o.sheets| - 1 ==> steps[k].error.None?)
  {
    if steps != [] {
      var init := steps[..|steps| - 1];
      RunProgress(init);
      assert forall k :: 0 <= k < |init| ==> init[k] == steps[k];
    }
  }

  /**
   * The iteration for building k emits sheet k + 1 with the building's name
   * and layout and the generator's titleblock. It fails exactly when fewer
   * than two of the building's element points are accepted; the sheet then
   * holds no drawings, and otherwise the drawings SheetDrawings lists for the
   * building's box.
   */
  lemma BuildingStepContents(g: DrawingGenerator, k: nat)
    requires k < |g.buildings|
    ensures var b := g.buildings[k]; var s := BuildingStep(g, k);
      && s.sheet.info == CreateSheetInfo(SheetIdentification(k + 1), b.name, g.titleblock)
      && (s.error.Some? <==> |Accepted(b.points)| < 2)
      && (s.error.Some? ==> s.sheet.drawings == [])
      && (s.error.None? ==>
            BBoxOfPoints(b.points).Success?
            && s.sheet.drawings == SheetDrawings(g, b, BBoxOfPoints(b.points).value))
  {
    BBoxFailsIff(g.buildings[k].points);
  }

  /** Sheet k of generate_drawings is the sheet of building k. */
  lemma GeneratedSheetAt(g: DrawingGenerator, n: nat, k: nat)
    requires n <= |g.buildings| && k < |Generated(g, n).sheets|
    ensures k < n && Generated(g, n).sheets[k] == BuildingStep(g, k).sheet
  {
    RunProgress(Steps(g)[..n]);
  }

  /**
   * Iteration k fails exactly when fewer than two element points of building
   * k are accepted, and the sheet of a failed iteration holds no drawings.
   */
  ghost predicate Matches(steps: seq<Step>, bs: seq<Building>) {
    && |steps| <= |bs|
    && forall k :: 0 <= k < |steps| ==>
         && (steps[k].error.Some? <==> |Accepted(bs[k].points)| < 2)
         && (steps[k].error.Some? ==> steps[k].sheet.drawings == [])
  }

  /** The iterations of generate_drawings match the buildings' element points. */
  lemma StepsMatch(g: DrawingGenerator)
    ensures Matches(Steps(g), g.buildings)
  {
    forall k | 0 <= k < |g.buildings|
      ensures Steps(g)[k].error.Some? <==> |Accepted(g.buildings[k].points)| < 2
      ensures Steps(g)[k].error.Some? ==> Steps(g)[k].sheet.drawings == []
    {
      BuildingStepContents(g, k);
    }
  }

  lemma MatchesPrefix(steps: seq<Step>, bs: seq<Building>, n: nat)
    requires Matches(steps, bs) && n <= |steps|
    ensures Matches(steps[..n], bs)
  {
  }

  /**
   * A run whose iterations match the buildings `bs` completes exactly when
   * each of its buildings has at least two accepted element points, and then
   * emits one sheet per iteration.
   */
  lemma RunCompletes(steps: seq<Step>, bs: seq<Building>)
    requires Matches(steps, bs)
    ensures Run(steps).error.None? <==> AllBoxed(bs, |steps|)
    ensures Run(steps).error.None? ==> |Run(steps).sheets| == |steps|
  {
    RunProgress(steps);
  }

  /**
   * A run that matches `bs` and stops with an error ends with the sheet of
   * the first building with fewer than two accepted element points, and that
   * sheet holds no drawings.
   */
  lemma RunStopsAt(steps: seq<Step>, bs: seq<Building>)
    requires Matches(steps, bs) && Run(steps).error.Some?
    ensures var o := Run(steps); var m := |o.sheets|;
      && 0 < m <= |steps|
      && o.sheets[m - 1].drawings == []
      && |Accepted(bs[m - 1].points)| < 2
      && AllBoxed(bs, m - 1)
  {
    RunProgress(steps);
  }

  /** The iterations for the first n buildings match the buildings' element points. */
  lemma GeneratedMatches(g: DrawingGenerator, n: nat)
    requires n <= |g.buildings|
    ensures Matches(Steps(g)[..n], g.buildings)
  {
    StepsMatch(g);
    MatchesPrefix(Steps(g), g.buildings, n);
  }

  /**
   * generate_drawings gets through the first n buildings without an error
   * exactly when each of them has at least two accepted element points, and
   * then it has emitted one sheet per building.
   */
  lemma GeneratedCompletes(g: DrawingGenerator, n: nat)
    requires n <= |g.buildings|
    ensures Generated(g, n).error.None? <==> AllBoxed(g.buildings, n)
    ensures Generated(g, n).error.None? ==> |Generated(g, n).sheets| == n
  {
    GeneratedMatches(g, n);
    RunCompletes(Steps(g)[..n], g.buildings);
  }

  /**
   * When generate_drawings stops with an error, its last sheet belongs to the
   * first building with fewer than two accepted element points, and that
   * sheet holds no drawings.
   */
  lemma GeneratedStopsAt(g: DrawingGenerator, n: nat)
    requires n <= |g.buildings| && Generated(g, n).error.Some?
    ensures var o := Generated(g, n); var m := |o.sheets|;
      && 0 < m <= n
      && o.sheets[m - 1].drawings == []
      && |Accepted(g.buildings[m - 1].points)| < 2
      && AllBoxed(g.buildings, m - 1)
  {
    GeneratedMatches(g, n);
    RunStopsAt(Steps(g)[..n], g.buildings);
  }

  /** The bounding box of one building is get_bbox over a one-element list. */
  lemma SinglePointGroup(points: seq<Point3>)
    ensures BBoxOf([points]) == BBoxOfPoints(points)
  {
    assert [points][..0] == [];
    assert Flatten([points]) == points;
  }
}
