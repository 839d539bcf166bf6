// The cutter lists of the exterior walls (CustomizableHouse.AddOuterDoors,
// AddWindows, AddGableWindows, AddStoreWindows): for wall i, every opening on
// that wall moves a shared cutter template to its place and records a cut
// there, and asks for the opening's details (frame, sprite, shutters, ...).
//
// Each adder is a method that appends to the cut list and the detail list,
// specified by a function that folds the same step over the openings; the
// lemmas say which openings produce cuts and details, and where.

module Openings {
  import opened HouseTypes
  import opened Layout
  import opened PBUtility

  /// A request for an opening's details, with the position it was placed at.
  /// Gable windows carry the type their details are drawn with.
  datatype Detail =
    | DoorDetail(at: Vec3, door: OuterDoorSpec)
    | WindowDetail(at: Vec3, window: WindowSpec)
    | GableDetail(at: Vec3, gable: GableWindowSpec, drawn: GableWindowType)
    | StoreDetail(at: Vec3, store: StoreWindowSpec)

  /// The cuts and detail requests of one step.
  datatype Parts = Parts(cuts: seq<Cutout>, details: seq<Detail>)
  {
    function Then(o: Parts): Parts { Parts(cuts + o.cuts, details + o.details) }
  }

  const NoParts := Parts([], [])

  // ------------------------------------------------------------------- doors

  function DoorPart(t: Template, door: OuterDoorSpec, i: int, d: Dims, ao: AdvancedOptions, wallLength: real): Parts
  {
    if door.wall.Index() == i then
      var at := DoorOffset(d, ao, wallLength, door.placement);
      Parts([Cutout(t, at)], [DoorDetail(at, door)])
    else NoParts
  }

  function DoorParts(t: Template, doors: seq<OuterDoorSpec>, i: int, d: Dims, ao: AdvancedOptions, wallLength: real): Parts
  {
    if |doors| == 0 then NoParts
    else DoorParts(t, doors[..|doors| - 1], i, d, ao, wallLength).Then(DoorPart(t, doors[|doors| - 1], i, d, ao, wallLength))
  }

  /// The doors on wall i, in order.
  function DoorsOn(doors: seq<OuterDoorSpec>, i: int): seq<OuterDoorSpec>
  {
    if |doors| == 0 then []
    else DoorsOn(doors[..|doors| - 1], i) + (if doors[|doors| - 1].wall.Index() == i then [doors[|doors| - 1]] else [])
  }

  /// Exactly one cut per door on wall i, in door order, at that door's
  /// offset; and one details request at the same place.
  lemma {:induction false} DoorCutsPerDoor(t: Template, doors: seq<OuterDoorSpec>, i: int, d: Dims, ao: AdvancedOptions, wallLength: real)
    ensures var p, on := DoorParts(t, doors, i, d, ao, wallLength), DoorsOn(doors, i);
      |p.cuts| == |on| && |p.details| == |on| &&
      forall k :: 0 <= k < |on| ==>
        p.cuts[k] == Cutout(t, DoorOffset(d, ao, wallLength, on[k].placement)) &&
        p.details[k] == DoorDetail(p.cuts[k].location, on[k])
  {
    if |doors| > 0 {
      DoorCutsPerDoor(t, doors[..|doors| - 1], i, d, ao, wallLength);
    }
  }

  /// Where the foundation edge is cut for the doors `on`: below each door,
  /// at the edge's own height.
  function EdgeCuts(on: seq<OuterDoorSpec>, d: Dims, ao: AdvancedOptions, wallLength: real): seq<Vec3>
  {
    if |on| == 0 then []
    else EdgeCuts(on[..|on| - 1], d, ao, wallLength) + [Vec3(DoorOffset(d, ao, wallLength, on[|on| - 1].placement).x, 0.0, 0.0)]
  }

  /// The mesh `m` cut by the cutter `shape`, turned `turns` quarter turns,
  /// at each of `at` in turn, each cut made into a mesh at once.
  function EdgeAfter(m: Mesh, shape: Shape, turns: int, at: seq<Vec3>, csg: Csg -> Mesh): Mesh
  {
    if |at| == 0 then m
    else csg(Minus(Base(EdgeAfter(m, shape, turns, at[..|at| - 1], csg)), shape, at[|at| - 1], turns))
  }

  /// The foundation edge of wall i after its doors are cut into it.
  function DoorEdge(m: Mesh, shape: Shape, turns: int, doors: seq<OuterDoorSpec>, i: int, d: Dims,
                    ao: AdvancedOptions, wallLength: real, csg: Csg -> Mesh): Mesh
  {
    EdgeAfter(m, shape, turns, EdgeCuts(DoorsOn(doors, i), d, ao, wallLength), csg)
  }

  /// The foundation edge gets one cut per door on wall i, each straight
  /// below that door's cut in the wall, at the edge's own height; with no
  /// door on the wall it is left as it was.
  lemma {:induction false} EdgeBelowDoors(t: Template, doors: seq<OuterDoorSpec>, i: int, d: Dims, ao: AdvancedOptions,
                                          wallLength: real)
    ensures var p, at := DoorParts(t, doors, i, d, ao, wallLength), EdgeCuts(DoorsOn(doors, i), d, ao, wallLength);
      |at| == |p.cuts| &&
      forall k :: 0 <= k < |at| ==> at[k] == Vec3(p.cuts[k].location.x, 0.0, 0.0)
    ensures forall m, csg :: DoorsOn(doors, i) == [] ==> DoorEdge(m, t.shape, t.turns, doors, i, d, ao, wallLength, csg) == m
  {
    DoorCutsPerDoor(t, doors, i, d, ao, wallLength);
    EdgeCutsPerDoor(DoorsOn(doors, i), d, ao, wallLength);
  }

  lemma {:induction false} EdgeCutsPerDoor(on: seq<OuterDoorSpec>, d: Dims, ao: AdvancedOptions, wallLength: real)
    ensures |EdgeCuts(on, d, ao, wallLength)| == |on|
    ensures forall k :: 0 <= k < |on| ==>
      EdgeCuts(on, d, ao, wallLength)[k] == Vec3(DoorOffset(d, ao, wallLength, on[k].placement).x, 0.0, 0.0)
  {
    if |on| > 0 {
      EdgeCutsPerDoor(on[..|on| - 1], d, ao, wallLength);
    }
  }

  /// One more door: the edge is cut below it when it is on wall i.
  lemma DoorEdgeStep(m: Mesh, shape: Shape, turns: int, doors: seq<OuterDoorSpec>, k: int, i: int, d: Dims,
                     ao: AdvancedOptions, wallLength: real, csg: Csg -> Mesh)
    requires 0 <= k < |doors|
    ensures var was := DoorEdge(m, shape, turns, doors[..k], i, d, ao, wallLength, csg);
      DoorEdge(m, shape, turns, doors[..k + 1], i, d, ao, wallLength, csg) ==
      if doors[k].wall.Index() == i
      then csg(Minus(Base(was), shape, Vec3(DoorOffset(d, ao, wallLength, doors[k].placement).x, 0.0, 0.0), turns))
      else was
  {
    var on, door := DoorsOn(doors[..k], i), doors[k];
    assert doors[..k + 1][..k] == doors[..k];
    var at := EdgeCuts(on, d, ao, wallLength);
    if door.wall.Index() == i {
      var v := Vec3(DoorOffset(d, ao, wallLength, door.placement).x, 0.0, 0.0);
      assert DoorsOn(doors[..k + 1], i) == on + [door];
      assert (on + [door])[..|on|] == on;
      assert EdgeCuts(on + [door], d, ao, wallLength) == at + [v];
      assert (at + [v])[..|at|] == at;
    } else {
      assert DoorsOn(doors[..k + 1], i) == on;
    }
  }

  /// CustomizableHouse.AddOuterDoors: each door on wall i places the door
  /// cutter, records a cut there and asks for the door's details; with
  /// foundation edges, the foundation edge of the wall is cut below the door
  /// straight away.
  method AddOuterDoors(i: int, doors: seq<OuterDoorSpec>, od: OuterStyle, d: Dims, ao: AdvancedOptions,
                       wallLength: real, cutout: Template, edge: PbObject, csg: Csg -> Mesh,
                       cuts: seq<Cutout>, details: seq<Detail>)
    returns (cuts': seq<Cutout>, details': seq<Detail>)
    modifies cutout, edge
    ensures cuts' == cuts + DoorParts(cutout, doors, i, d, ao, wallLength).cuts
    ensures details' == details + DoorParts(cutout, doors, i, d, ao, wallLength).details
    ensures !od.foundationEdges ==> unchanged(edge)
    ensures od.foundationEdges ==>
      edge.MeshOf() == DoorEdge(old(edge.MeshOf()), cutout.shape, cutout.turns, doors, i, d, ao, wallLength, csg) &&
      edge.position == old(edge.position) && edge.turns == old(edge.turns)
    ensures cutout.turns == old(cutout.turns)
  {
    cuts', details' := cuts, details;
    var k := 0;
    while k < |doors|
      invariant 0 <= k <= |doors|
      invariant cutout.turns == old(cutout.turns)
      invariant !od.foundationEdges ==> unchanged(edge)
      invariant cuts' == cuts + DoorParts(cutout, doors[..k], i, d, ao, wallLength).cuts
      invariant details' == details + DoorParts(cutout, doors[..k], i, d, ao, wallLength).details
      invariant od.foundationEdges ==>
        edge.MeshOf() == DoorEdge(old(edge.MeshOf()), cutout.shape, cutout.turns, doors[..k], i, d, ao, wallLength, csg) &&
        edge.position == old(edge.position) && edge.turns == old(edge.turns)
    {
      var door := doors[k];
      assert doors[..k + 1][..k] == doors[..k];
      DoorEdgeStep(old(edge.MeshOf()), cutout.shape, cutout.turns, doors, k, i, d, ao, wallLength, csg);
      if door.wall.Index() == i {
        cutout.position := DoorOffset(d, ao, wallLength, door.placement);
        cuts' := cuts' + [CutoutHere(cutout)];
        details' := details' + [DoorDetail(cutout.position, door)];
        if od.foundationEdges {
          CutOutObject(edge, Cutout(cutout, Vec3(cutout.position.x, 0.0, 0.0)), csg);
        }
      }
      k := k + 1;
    }
    assert doors[..|doors|] == doors;
  }

  // ----------------------------------------------------------------- windows

  /// Alpha windows are see-through and need a hole in the wall.
  predicate CutsWindow(t: WindowType) { t == SixteenPaneAlpha || t == TwentyFourPaneAlpha }

  function WindowPlacementPart(t: Template, w: WindowSpec, od: OuterStyle, d: Dims, ao: AdvancedOptions,
                               wallLength: real, placement: real): Parts
    requires d.floors >= 1
  {
    var at := WindowOffset(d, ao, wallLength, w, od, placement);
    var wT := EffectiveWindowType(w, od);
    if CutsWindow(wT) then Parts([Cutout(t, at)], [WindowDetail(at, w)])
    else if wT != NoWindow then Parts([], [WindowDetail(at, w)])
    else NoParts
  }

  function WindowPlacementParts(t: Template, w: WindowSpec, od: OuterStyle, d: Dims, ao: AdvancedOptions,
                                wallLength: real, ps: seq<real>): Parts
    requires d.floors >= 1
  {
    if |ps| == 0 then NoParts
    else WindowPlacementParts(t, w, od, d, ao, wallLength, ps[..|ps| - 1])
           .Then(WindowPlacementPart(t, w, od, d, ao, wallLength, ps[|ps| - 1]))
  }

  function WindowParts(t: Template, ws: seq<WindowSpec>, i: int, od: OuterStyle, d: Dims, ao: AdvancedOptions,
                       wallLength: real): Parts
    requires d.floors >= 1
  {
    if |ws| == 0 then NoParts
    else
      var w := ws[|ws| - 1];
      WindowParts(t, ws[..|ws| - 1], i, od, d, ao, wallLength)
        .Then(if w.wall.Index() == i then WindowPlacementParts(t, w, od, d, ao, wallLength, w.placements) else NoParts)
  }

  /// A window's placements give one cut each when its type is an alpha
  /// type, none otherwise; one details request each unless its type is
  /// none; and every cut lies at the placement's window offset.
  lemma {:induction false} WindowCutsPerPlacement(t: Template, w: WindowSpec, od: OuterStyle, d: Dims, ao: AdvancedOptions,
                                                  wallLength: real, ps: seq<real>)
    requires d.floors >= 1
    ensures var p, wT := WindowPlacementParts(t, w, od, d, ao, wallLength, ps), EffectiveWindowType(w, od);
      |p.cuts| == (if CutsWindow(wT) then |ps| else 0) &&
      |p.details| == (if wT != NoWindow then |ps| else 0) &&
      (CutsWindow(wT) ==> forall k :: 0 <= k < |ps| ==> p.cuts[k] == Cutout(t, WindowOffset(d, ao, wallLength, w, od, ps[k])))
  {
    if |ps| > 0 {
      WindowCutsPerPlacement(t, w, od, d, ao, wallLength, ps[..|ps| - 1]);
    }
  }

  /// CustomizableHouse.AddWindows.
  method AddWindows(i: int, ws: seq<WindowSpec>, od: OuterStyle, d: Dims, ao: AdvancedOptions,
                    wallLength: real, cutout: Template, cuts: seq<Cutout>, details: seq<Detail>)
    returns (cuts': seq<Cutout>, details': seq<Detail>)
    requires d.floors >= 1
    modifies cutout
    ensures cuts' == cuts + WindowParts(cutout, ws, i, od, d, ao, wallLength).cuts
    ensures details' == details + WindowParts(cutout, ws, i, od, d, ao, wallLength).details
    ensures cutout.turns == old(cutout.turns)
  {
    cuts', details' := cuts, details;
    var k := 0;
    while k < |ws|
      invariant 0 <= k <= |ws|
      invariant cutout.turns == old(cutout.turns)
      invariant cuts' == cuts + WindowParts(cutout, ws[..k], i, od, d, ao, wallLength).cuts
      invariant details' == details + WindowParts(cutout, ws[..k], i, od, d, ao, wallLength).details
    {
      var w := ws[k];
      assert ws[..k + 1][..k] == ws[..k];
      if w.wall.Index() == i {
        cuts', details' := AddWindowPlacements(w, od, d, ao, wallLength, cutout, cuts', details');
      }
      k := k + 1;
    }
    assert ws[..|ws|] == ws;
  }

  /// The inner loop of AddWindows, over one window's placements.
  method AddWindowPlacements(w: WindowSpec, od: OuterStyle, d: Dims, ao: AdvancedOptions,
                             wallLength: real, cutout: Template, cuts: seq<Cutout>, details: seq<Detail>)
    returns (cuts': seq<Cutout>, details': seq<Detail>)
    requires d.floors >= 1
    modifies cutout
    ensures cuts' == cuts + WindowPlacementParts(cutout, w, od, d, ao, wallLength, w.placements).cuts
    ensures details' == details + WindowPlacementParts(cutout, w, od, d, ao, wallLength, w.placements).details
    ensures cutout.turns == old(cutout.turns)
  {
    var wT := EffectiveWindowType(w, od);
    cuts', details' := cuts, details;
    var j := 0;
    while j < |w.placements|
      invariant 0 <= j <= |w.placements|
      invariant cutout.turns == old(cutout.turns)
      invariant cuts' == cuts + WindowPlacementParts(cutout, w, od, d, ao, wallLength, w.placements[..j]).cuts
      invariant details' == details + WindowPlacementParts(cutout, w, od, d, ao, wallLength, w.placements[..j]).details
    {
      assert w.placements[..j + 1][..j] == w.placements[..j];
      cutout.position := WindowOffset(d, ao, wallLength, w, od, w.placements[j]);
      if CutsWindow(wT) {
        cuts' := cuts' + [CutoutHere(cutout)];
        details' := details' + [WindowDetail(cutout.position, w)];
      } else if wT != NoWindow {
        details' := details' + [WindowDetail(cutout.position, w)];
      }
      j := j + 1;
    }
    assert w.placements[..|w.placements|] == w.placements;
  }

  // ----------------------------------------------------------- gable windows

  predicate IsRound(t: GableWindowType) { t == RoundAlpha || t == RoundBlack }

  predicate CutsGable(t: GableWindowType) { t == RoundAlpha || t == SemiCircleAlpha }

  /// The type a gable window's details are drawn with (CreateGableWindowDetails).
  function DetailsGableType(gw: GableWindowSpec, od: OuterStyle): GableWindowType
  {
    if !gw.overrideDetails then od.gableWindowType else gw.typeOverride
  }

  /// The details draw one of the four gable window sprites, indexed by the
  /// type's enum value.
  predicate SpriteIndexValid(t: GableWindowType) { 0 <= t.Index() < 4 }

  /// The type AddGableWindows chooses its cutter and its action by, as
  /// written: the override type unless that is none.
  function AsWrittenCutGableType(gw: GableWindowSpec, od: OuterStyle): GableWindowType
  {
    if gw.typeOverride == NoGableWindow then od.gableWindowType else gw.typeOverride
  }

  /// One gable window as the source places it: the type chosen as written
  /// decides the cutter (round or half) and whether it is cut and detailed,
  /// while the details choose their own type.
  function AsWrittenGablePart(full: Template, half: Template, gw: GableWindowSpec, i: int, od: OuterStyle,
                              d: Dims, ao: AdvancedOptions, wallLength: real, height: real): Parts
  {
    var wT := AsWrittenCutGableType(gw, od);
    var at := GableWindowOffset(d, ao, wallLength, height, gw);
    var t := if IsRound(wT) then full else half;
    if gw.wall.Index() != i || !(height > 0.0) || wT == NoGableWindow then NoParts
    else if CutsGable(wT) then Parts([Cutout(t, at)], [GableDetail(at, gw, DetailsGableType(gw, od))])
    else Parts([], [GableDetail(at, gw, DetailsGableType(gw, od))])
  }

  /// The two choices disagree. A window that overrides the details but keeps
  /// the default override type none, on a house whose gable windows are
  /// round see-through ones, is cut round and then asks for its details
  /// with type none, whose sprite index -1 is out of range; and a window
  /// that does not override but holds a stale round override type is cut
  /// round while its details draw the house's half-round window.
  lemma AsWrittenGableMismatch(full: Template, half: Template, d: Dims, ao: AdvancedOptions, wallLength: real)
    requires full != half
    ensures var od := OuterStyle(false, false, false, NoWindow, NoFrame, NoShutter, RoundAlpha, NoPorchRailing);
      var gw := GableWindowSpec(Front, 0.0, 0.0, true, NoGableWindow, NoFrame);
      var p := AsWrittenGablePart(full, half, gw, 0, od, d, ao, wallLength, 1.0);
      |p.cuts| == 1 && p.cuts[0].obj == full &&
      |p.details| == 1 && p.details[0].drawn == NoGableWindow && !SpriteIndexValid(p.details[0].drawn)
    ensures var od := OuterStyle(false, false, false, NoWindow, NoFrame, NoShutter, SemiCircleAlpha, NoPorchRailing);
      var gw := GableWindowSpec(Front, 0.0, 0.0, false, RoundAlpha, NoFrame);
      var p := AsWrittenGablePart(full, half, gw, 0, od, d, ao, wallLength, 1.0);
      |p.cuts| == 1 && p.cuts[0].obj == full &&
      |p.details| == 1 && !IsRound(p.details[0].drawn)
  {
  }

  /// One gable window, with the cutter and the action chosen by the same
  /// type as its details.
  function GablePart(full: Template, half: Template, gw: GableWindowSpec, i: int, od: OuterStyle,
                     d: Dims, ao: AdvancedOptions, wallLength: real, height: real): Parts
  {
    var wT := DetailsGableType(gw, od);
    var at := GableWindowOffset(d, ao, wallLength, height, gw);
    var t := if IsRound(wT) then full else half;
    if gw.wall.Index() != i || !(height > 0.0) || wT == NoGableWindow then NoParts
    else if CutsGable(wT) then Parts([Cutout(t, at)], [GableDetail(at, gw, wT)])
    else Parts([], [GableDetail(at, gw, wT)])
  }

  /// With one choice of type, every details request draws an existing
  /// sprite, a cut is made exactly for the see-through types, and the hole
  /// is round exactly when the drawn window is.
  lemma GableCutsMatchDetails(full: Template, half: Template, gw: GableWindowSpec, i: int, od: OuterStyle,
                              d: Dims, ao: AdvancedOptions, wallLength: real, height: real)
    requires full != half
    ensures var p := GablePart(full, half, gw, i, od, d, ao, wallLength, height);
      (forall k :: 0 <= k < |p.details| ==> p.details[k].GableDetail? && SpriteIndexValid(p.details[k].drawn)) &&
      (|p.details| == 1 <==> gw.wall.Index() == i && height > 0.0 && DetailsGableType(gw, od) != NoGableWindow) &&
      (|p.cuts| == 1 <==> |p.details| == 1 && CutsGable(p.details[0].drawn)) &&
      |p.cuts| <= 1 &&
      (|p.cuts| == 1 ==> (p.cuts[0].obj == full <==> IsRound(p.details[0].drawn)))
  {
  }

  function GableParts(full: Template, half: Template, gws: seq<GableWindowSpec>, i: int, od: OuterStyle,
                      d: Dims, ao: AdvancedOptions, wallLength: real, height: real): Parts
  {
    if |gws| == 0 then NoParts
    else GableParts(full, half, gws[..|gws| - 1], i, od, d, ao, wallLength, height)
           .Then(GablePart(full, half, gws[|gws| - 1], i, od, d, ao, wallLength, height))
  }

  /// CustomizableHouse.AddGableWindows, with the type chosen as the details
  /// choose it.
  method AddGableWindows(i: int, gws: seq<GableWindowSpec>, od: OuterStyle, d: Dims, ao: AdvancedOptions,
                         wallLength: real, height: real, full: Template, half: Template,
                         cuts: seq<Cutout>, details: seq<Detail>)
    returns (cuts': seq<Cutout>, details': seq<Detail>)
    modifies full, half
    ensures cuts' == cuts + GableParts(full, half, gws, i, od, d, ao, wallLength, height).cuts
    ensures details' == details + GableParts(full, half, gws, i, od, d, ao, wallLength, height).details
    ensures full.turns == old(full.turns) && half.turns == old(half.turns)
  {
    cuts', details' := cuts, details;
    var k := 0;
    while k < |gws|
      invariant 0 <= k <= |gws|
      invariant full.turns == old(full.turns) && half.turns == old(half.turns)
      invariant cuts' == cuts + GableParts(full, half, gws[..k], i, od, d, ao, wallLength, height).cuts
      invariant details' == details + GableParts(full, half, gws[..k], i, od, d, ao, wallLength, height).details
    {
      var gw := gws[k];
      assert gws[..k + 1][..k] == gws[..k];
      if gw.wall.Index() == i && height > 0.0 {
        var wT := DetailsGableType(gw, od);
        var cutout := if IsRound(wT) then full else half;
        cutout.position := GableWindowOffset(d, ao, wallLength, height, gw);
        if CutsGable(wT) {
          cuts' := cuts' + [CutoutHere(cutout)];
          details' := details' + [GableDetail(cutout.position, gw, wT)];
        } else if wT != NoGableWindow {
          details' := details' + [GableDetail(cutout.position, gw, wT)];
        }
      }
      k := k + 1;
    }
    assert gws[..|gws|] == gws;
  }

  // ------------------------------------------------------------ store windows

  function StorePlacementPart(cutout: Template, indent: Template, sw: StoreWindowSpec, d: Dims, ao: AdvancedOptions,
                              wallLength: real, nudge: real, placement: real): Parts
  {
    var at := StoreWindowOffset(d, ao, wallLength, placement);
    if sw.indent && CanIndent(ao) then
      var pushed := at.(z := at.z + ao.indentThickness);
      Parts([Cutout(indent, StoreIndentOffset(ao, at, nudge)), Cutout(cutout, pushed)], [StoreDetail(pushed, sw)])
    else Parts([Cutout(cutout, at)], [StoreDetail(at, sw)])
  }

  function StorePlacementParts(cutout: Template, indent: Template, sw: StoreWindowSpec, d: Dims, ao: AdvancedOptions,
                               wallLength: real, nudge: real, ps: seq<real>): Parts
  {
    if |ps| == 0 then NoParts
    else StorePlacementParts(cutout, indent, sw, d, ao, wallLength, nudge, ps[..|ps| - 1])
           .Then(StorePlacementPart(cutout, indent, sw, d, ao, wallLength, nudge, ps[|ps| - 1]))
  }

  function StoreParts(cutout: Template, indent: Template, sws: seq<StoreWindowSpec>, i: int, d: Dims,
                      ao: AdvancedOptions, wallLength: real, nudge: real): Parts
  {
    if |sws| == 0 then NoParts
    else
      var sw := sws[|sws| - 1];
      StoreParts(cutout, indent, sws[..|sws| - 1], i, d, ao, wallLength, nudge)
        .Then(if sw.wall.Index() == i then StorePlacementParts(cutout, indent, sw, d, ao, wallLength, nudge, sw.placements)
              else NoParts)
  }

  /// Every placement of a store window is cut; an indented one is first cut
  /// by the indent cutter and then by the window cutter pushed back by the
  /// indent's thickness, so each placement adds two cuts, indent first.
  lemma {:induction false} StoreCutsPerPlacement(cutout: Template, indent: Template, sw: StoreWindowSpec, d: Dims,
                                                 ao: AdvancedOptions, wallLength: real, nudge: real, ps: seq<real>)
    ensures var p := StorePlacementParts(cutout, indent, sw, d, ao, wallLength, nudge, ps);
      |p.details| == |ps| &&
      (sw.indent && CanIndent(ao) ==>
        |p.cuts| == 2 * |ps| &&
        forall k :: 0 <= k < |ps| ==>
          var at := StoreWindowOffset(d, ao, wallLength, ps[k]);
          p.cuts[2 * k] == Cutout(indent, StoreIndentOffset(ao, at, nudge)) &&
          p.cuts[2 * k + 1] == Cutout(cutout, at.(z := at.z + ao.indentThickness)) &&
          p.details[k] == StoreDetail(p.cuts[2 * k + 1].location, sw)) &&
      (!(sw.indent && CanIndent(ao)) ==>
        |p.cuts| == |ps| &&
        forall k :: 0 <= k < |ps| ==>
          p.cuts[k] == Cutout(cutout, StoreWindowOffset(d, ao, wallLength, ps[k])) &&
          p.details[k] == StoreDetail(p.cuts[k].location, sw))
  {
    if |ps| > 0 {
      var init := ps[..|ps| - 1];
      StoreCutsPerPlacement(cutout, indent, sw, d, ao, wallLength, nudge, init);
      var p0 := StorePlacementParts(cutout, indent, sw, d, ao, wallLength, nudge, init);
      var p := StorePlacementParts(cutout, indent, sw, d, ao, wallLength, nudge, ps);
      var last := StorePlacementPart(cutout, indent, sw, d, ao, wallLength, nudge, ps[|ps| - 1]);
      assert p == p0.Then(last);
      if sw.indent && CanIndent(ao) {
        forall k | 0 <= k < |ps|
          ensures var at := StoreWindowOffset(d, ao, wallLength, ps[k]);
            p.cuts[2 * k] == Cutout(indent, StoreIndentOffset(ao, at, nudge)) &&
            p.cuts[2 * k + 1] == Cutout(cutout, at.(z := at.z + ao.indentThickness)) &&
            p.details[k] == StoreDetail(p.cuts[2 * k + 1].location, sw)
        {
          if k < |init| {
            assert ps[k] == init[k];
          } else {
            assert p.cuts[2 * k] == last.cuts[0] && p.cuts[2 * k + 1] == last.cuts[1];
          }
        }
      } else {
        forall k | 0 <= k < |ps|
          ensures p.cuts[k] == Cutout(cutout, StoreWindowOffset(d, ao, wallLength, ps[k])) &&
                  p.details[k] == StoreDetail(p.cuts[k].location, sw)
        {
          if k < |init| {
            assert ps[k] == init[k];
          }
        }
      }
    }
  }

  /// CustomizableHouse.AddStoreWindows.
  method AddStoreWindows(i: int, sws: seq<StoreWindowSpec>, d: Dims, ao: AdvancedOptions, wallLength: real,
                         nudge: real, cutout: Template, indent: Template, cuts: seq<Cutout>, details: seq<Detail>)
    returns (cuts': seq<Cutout>, details': seq<Detail>)
    requires cutout != indent
    modifies cutout, indent
    ensures cuts' == cuts + StoreParts(cutout, indent, sws, i, d, ao, wallLength, nudge).cuts
    ensures details' == details + StoreParts(cutout, indent, sws, i, d, ao, wallLength, nudge).details
    ensures cutout.turns == old(cutout.turns) && indent.turns == old(indent.turns)
  {
    cuts', details' := cuts, details;
    var k := 0;
    while k < |sws|
      invariant 0 <= k <= |sws|
      invariant cutout.turns == old(cutout.turns) && indent.turns == old(indent.turns)
      invariant cuts' == cuts + StoreParts(cutout, indent, sws[..k], i, d, ao, wallLength, nudge).cuts
      invariant details' == details + StoreParts(cutout, indent, sws[..k], i, d, ao, wallLength, nudge).details
    {
      var sw := sws[k];
      assert sws[..k + 1][..k] == sws[..k];
      if sw.wall.Index() == i {
        cuts', details' := AddStorePlacements(sw, d, ao, wallLength, nudge, cutout, indent, cuts', details');
      }
      k := k + 1;
    }
    assert sws[..|sws|] == sws;
  }

  /// The inner loop of AddStoreWindows, over one store window's placements.
  method AddStorePlacements(sw: StoreWindowSpec, d: Dims, ao: AdvancedOptions, wallLength: real, nudge: real,
                            cutout: Template, indent: Template, cuts: seq<Cutout>, details: seq<Detail>)
    returns (cuts': seq<Cutout>, details': seq<Detail>)
    requires cutout != indent
    modifies cutout, indent
    ensures cuts' == cuts + StorePlacementParts(cutout, indent, sw, d, ao, wallLength, nudge, sw.placements).cuts
    ensures details' == details + StorePlacementParts(cutout, indent, sw, d, ao, wallLength, nudge, sw.placements).details
    ensures cutout.turns == old(cutout.turns) && indent.turns == old(indent.turns)
  {
    cuts', details' := cuts, details;
    var j := 0;
    while j < |sw.placements|
      invariant 0 <= j <= |sw.placements|
      invariant cutout.turns == old(cutout.turns) && indent.turns == old(indent.turns)
      invariant cuts' == cuts + StorePlacementParts(cutout, indent, sw, d, ao, wallLength, nudge, sw.placements[..j]).cuts
      invariant details' ==
        details + StorePlacementParts(cutout, indent, sw, d, ao, wallLength, nudge, sw.placements[..j]).details
    {
      assert sw.placements[..j + 1][..j] == sw.placements[..j];
      cutout.position := StoreWindowOffset(d, ao, wallLength, sw.placements[j]);
      if sw.indent && CanIndent(ao) {
        indent.position := StoreIndentOffset(ao, cutout.position, nudge);
        cuts' := cuts' + [CutoutHere(indent)];
        cutout.position := cutout.position.(z := cutout.position.z + ao.indentThickness);
      }
      cuts' := cuts' + [CutoutHere(cutout)];
      details' := details' + [StoreDetail(cutout.position, sw)];
      j := j + 1;
    }
    assert sw.placements[..|sw.placements|] == sw.placements;
  }
}
