// The wall pass of CustomizableHouse.AddWallDetails: for each exterior wall,
// the openings and the extensions record their cuts in a fixed order
// (doors, windows, gable windows, store windows, extensions), the wall is
// cut once by all of them, and its faces are coalesced: first the faces on
// each of its two sides and two ends, then everything else into one face.

module WallPass {
  import opened HouseTypes
  import opened Layout
  import opened PBUtility
  import opened Openings
  import opened Extensions
  import opened Coalesce

  /// What a house knows about extensions when it cuts a wall: a full house
  /// its own list, an extension the house it is attached to.
  datatype Role =
    | FullHouse(exts: seq<HouseExtension>)
    | AttachedTo(parent: Dims, wall: Wall, position: real)

  function RoleNudge(role: Role): real
  {
    if role.FullHouse? then HouseNudge else ExtensionNudge
  }

  /// The extension cutters of wall i.
  function ExtensionCutters(role: Role, d: Dims, ao: AdvancedOptions, i: int): seq<Cutter>
  {
    match role
    case FullHouse(exts) => HouseCutters(d, ao, exts, i)
    case AttachedTo(f, w, p) =>
      var c := ExtensionCutter(f, d, ao, w, p, i);
      if c.Some? then [c.value] else []
  }

  /// AddExtensionCutouts, as FullHouse or Extension overrides it.
  method ExtensionCutouts(role: Role, i: int, d: Dims, ao: AdvancedOptions, cutouts: seq<Template>, cuts: seq<Cutout>)
    returns (cutouts': seq<Template>, cuts': seq<Cutout>)
    ensures var cs := ExtensionCutters(role, d, ao, i);
      |cutouts'| == |cutouts| + |cs| && cutouts'[..|cutouts|] == cutouts &&
      cuts' == cuts + Placed(cutouts'[|cutouts|..], cs) &&
      forall x :: x in cutouts'[|cutouts|..] ==> fresh(x) && x.turns == 0
  {
    match role {
      case FullHouse(exts) =>
        cutouts', cuts' := AddHouseCutouts(i, d, ao, exts, cutouts, cuts);
      case AttachedTo(f, w, p) =>
        cutouts', cuts' := AddExtensionCutouts(i, f, d, ao, w, p, cutouts, cuts);
        if ExtensionCutter(f, d, ao, w, p, i).Some? {
          assert cutouts'[|cutouts|..] == [cutouts'[|cutouts|]];
        }
    }
  }

  // --------------------------------------------------------------- the cuts

  /// The six shared cutter templates.
  datatype Templates = Templates(door: Template, window: Template, gableFull: Template, gableHalf: Template,
                                 store: Template, indent: Template)
  {
    function Objects(): set<Template> { {door, window, gableFull, gableHalf, store, indent} }
  }

  /// The openings of the house (CustomizableHouse.OuterDetails' lists).
  datatype WallOpenings = WallOpenings(doors: seq<OuterDoorSpec>, windows: seq<WindowSpec>,
                                       gables: seq<GableWindowSpec>, stores: seq<StoreWindowSpec>)

  /// The cuts and details of the openings on wall i, in the pass's order.
  function OpeningParts(t: Templates, i: int, o: WallOpenings, od: OuterStyle, d: Dims, ao: AdvancedOptions,
                        wallLength: real, gableHeight: real, nudge: real): Parts
    requires d.floors >= 1
  {
    DoorParts(t.door, o.doors, i, d, ao, wallLength)
      .Then(WindowParts(t.window, o.windows, i, od, d, ao, wallLength))
      .Then(GableParts(t.gableFull, t.gableHalf, o.gables, i, od, d, ao, wallLength, gableHeight))
      .Then(StoreParts(t.store, t.indent, o.stores, i, d, ao, wallLength, nudge))
  }

  predicate CutsWith(cuts: seq<Cutout>, objs: set<Template>)
  {
    forall k :: 0 <= k < |cuts| ==> cuts[k].obj in objs
  }

  /// Every opening cut is made by one of the templates.
  lemma {:induction false} OpeningCutsUseTemplates(t: Templates, i: int, o: WallOpenings, od: OuterStyle, d: Dims,
                                                   ao: AdvancedOptions, wallLength: real, gableHeight: real, nudge: real)
    requires d.floors >= 1
    ensures CutsWith(OpeningParts(t, i, o, od, d, ao, wallLength, gableHeight, nudge).cuts, t.Objects())
  {
    DoorCutsWith(t.door, o.doors, i, d, ao, wallLength);
    WindowCutsWith(t.window, o.windows, i, od, d, ao, wallLength);
    GableCutsWith(t.gableFull, t.gableHalf, o.gables, i, od, d, ao, wallLength, gableHeight);
    StoreCutsWith(t.store, t.indent, o.stores, i, d, ao, wallLength, nudge);
  }

  lemma {:induction false} DoorCutsWith(c: Template, doors: seq<OuterDoorSpec>, i: int, d: Dims, ao: AdvancedOptions, wallLength: real)
    ensures CutsWith(DoorParts(c, doors, i, d, ao, wallLength).cuts, {c})
  {
    if |doors| > 0 { DoorCutsWith(c, doors[..|doors| - 1], i, d, ao, wallLength); }
  }

  lemma {:induction false} WindowCutsWith(c: Template, ws: seq<WindowSpec>, i: int, od: OuterStyle, d: Dims,
                                          ao: AdvancedOptions, wallLength: real)
    requires d.floors >= 1
    ensures CutsWith(WindowParts(c, ws, i, od, d, ao, wallLength).cuts, {c})
  {
    if |ws| > 0 {
      var w := ws[|ws| - 1];
      WindowCutsWith(c, ws[..|ws| - 1], i, od, d, ao, wallLength);
      WindowPlacementCutsWith(c, w, od, d, ao, wallLength, w.placements);
    }
  }

  lemma {:induction false} WindowPlacementCutsWith(c: Template, w: WindowSpec, od: OuterStyle, d: Dims, ao: AdvancedOptions,
                                                   wallLength: real, ps: seq<real>)
    requires d.floors >= 1
    ensures CutsWith(WindowPlacementParts(c, w, od, d, ao, wallLength, ps).cuts, {c})
  {
    if |ps| > 0 { WindowPlacementCutsWith(c, w, od, d, ao, wallLength, ps[..|ps| - 1]); }
  }

  lemma {:induction false} GableCutsWith(full: Template, half: Template, gws: seq<GableWindowSpec>, i: int, od: OuterStyle,
                                         d: Dims, ao: AdvancedOptions, wallLength: real, height: real)
    ensures CutsWith(GableParts(full, half, gws, i, od, d, ao, wallLength, height).cuts, {full, half})
  {
    if |gws| > 0 { GableCutsWith(full, half, gws[..|gws| - 1], i, od, d, ao, wallLength, height); }
  }

  lemma {:induction false} StoreCutsWith(c: Template, indent: Template, sws: seq<StoreWindowSpec>, i: int, d: Dims,
                                         ao: AdvancedOptions, wallLength: real, nudge: real)
    ensures CutsWith(StoreParts(c, indent, sws, i, d, ao, wallLength, nudge).cuts, {c, indent})
  {
    if |sws| > 0 {
      var sw := sws[|sws| - 1];
      StoreCutsWith(c, indent, sws[..|sws| - 1], i, d, ao, wallLength, nudge);
      StorePlacementCutsWith(c, indent, sw, d, ao, wallLength, nudge, sw.placements);
    }
  }

  lemma {:induction false} StorePlacementCutsWith(c: Template, indent: Template, sw: StoreWindowSpec, d: Dims,
                                                  ao: AdvancedOptions, wallLength: real, nudge: real, ps: seq<real>)
    ensures CutsWith(StorePlacementParts(c, indent, sw, d, ao, wallLength, nudge, ps).cuts, {c, indent})
  {
    if |ps| > 0 { StorePlacementCutsWith(c, indent, sw, d, ao, wallLength, nudge, ps[..|ps| - 1]); }
  }

  /// CSG keeps meshes well formed.
  ghost predicate CsgValid(csg: Csg -> Mesh)
  {
    forall c :: FacesValid(csg(c).vertices, csg(c).faces)
  }

  // --------------------------------------------------------------- one wall

  /// The opening cuts of wall i: doors, windows, gable windows, store
  /// windows, each placed by its own template.
  method OpeningCuts(i: int, edge: PbObject, t: Templates, o: WallOpenings, od: OuterStyle, d: Dims,
                     ao: AdvancedOptions, csg: Csg -> Mesh, wallLength: real, gableHeight: real, nudge: real)
    returns (cuts: seq<Cutout>, details: seq<Detail>)
    requires d.floors >= 1
    requires t.store != t.indent
    modifies edge, t.Objects()
    ensures var p := OpeningParts(t, i, o, od, d, ao, wallLength, gableHeight, nudge);
      cuts == p.cuts && details == p.details
    ensures forall x :: x in t.Objects() ==> x.turns == old(x.turns)
    ensures !od.foundationEdges ==> unchanged(edge)
    ensures od.foundationEdges ==>
      edge.MeshOf() == DoorEdge(old(edge.MeshOf()), t.door.shape, t.door.turns, o.doors, i, d, ao, wallLength, csg) &&
      edge.position == old(edge.position) && edge.turns == old(edge.turns)
  {
    ghost var pd := DoorParts(t.door, o.doors, i, d, ao, wallLength);
    ghost var pw := WindowParts(t.window, o.windows, i, od, d, ao, wallLength);
    ghost var pg := GableParts(t.gableFull, t.gableHalf, o.gables, i, od, d, ao, wallLength, gableHeight);
    ghost var ps := StoreParts(t.store, t.indent, o.stores, i, d, ao, wallLength, nudge);
    cuts, details := AddOuterDoors(i, o.doors, od, d, ao, wallLength, t.door, edge, csg, [], []);
    assert cuts == pd.cuts && details == pd.details;
    cuts, details := AddWindows(i, o.windows, od, d, ao, wallLength, t.window, cuts, details);
    assert cuts == pd.cuts + pw.cuts && details == pd.details + pw.details;
    cuts, details := AddGableWindows(i, o.gables, od, d, ao, wallLength, gableHeight, t.gableFull, t.gableHalf, cuts, details);
    assert cuts == pd.cuts + pw.cuts + pg.cuts && details == pd.details + pw.details + pg.details;
    cuts, details := AddStoreWindows(i, o.stores, d, ao, wallLength, nudge, t.store, t.indent, cuts, details);
    assert pd.Then(pw).Then(pg).Then(ps) == OpeningParts(t, i, o, od, d, ao, wallLength, gableHeight, nudge);
  }

  /// Every cut made either by a template or by a newly placed extension
  /// cutter is made by one of them.
  lemma CuttersOfCollected(a: seq<Cutout>, objs: set<Template>, created: seq<Template>, cs: seq<Cutter>)
    requires |created| == |cs| && CutsWith(a, objs)
    ensures forall c :: c in Cutters(a + Placed(created, cs)) ==> c in objs || c in created
  {
    var all := a + Placed(created, cs);
    forall c | c in Cutters(all) ensures c in objs || c in created {
      var k :| 0 <= k < |all| && all[k].obj == c;
      if k >= |a| {
        assert all[k] == Placed(created, cs)[k - |a|];
      }
    }
  }

  /// The cuts of wall i in the pass's order, with the details they ask for.
  method CollectCuts(i: int, edge: PbObject, t: Templates, role: Role, o: WallOpenings, od: OuterStyle,
                     d: Dims, ao: AdvancedOptions, csg: Csg -> Mesh, wallLength: real, gableHeight: real,
                     extensionCutouts: seq<Template>)
    returns (cuts: seq<Cutout>, details: seq<Detail>, extensionCutouts': seq<Template>)
    requires d.floors >= 1
    requires t.store != t.indent
    requires forall x :: x in t.Objects() ==> x.turns == 0
    modifies edge, t.Objects()
    ensures var p := OpeningParts(t, i, o, od, d, ao, wallLength, gableHeight, RoleNudge(role));
      var cs := ExtensionCutters(role, d, ao, i);
      |extensionCutouts'| == |extensionCutouts| + |cs| && extensionCutouts'[..|extensionCutouts|] == extensionCutouts &&
      cuts == p.cuts + Placed(extensionCutouts'[|extensionCutouts|..], cs) &&
      details == p.details
    ensures forall c :: c in Cutters(cuts) ==> c.turns == 0 && (c in t.Objects() || fresh(c))
    ensures forall x :: x in t.Objects() ==> x.turns == old(x.turns)
    ensures !od.foundationEdges ==> unchanged(edge)
    ensures od.foundationEdges ==>
      edge.MeshOf() == DoorEdge(old(edge.MeshOf()), t.door.shape, 0, o.doors, i, d, ao, wallLength, csg) &&
      edge.position == old(edge.position) && edge.turns == old(edge.turns)
  {
    var openingCuts;
    openingCuts, details := OpeningCuts(i, edge, t, o, od, d, ao, csg, wallLength, gableHeight, RoleNudge(role));
    OpeningCutsUseTemplates(t, i, o, od, d, ao, wallLength, gableHeight, RoleNudge(role));
    extensionCutouts', cuts := ExtensionCutouts(role, i, d, ao, extensionCutouts, openingCuts);
    CuttersOfCollected(openingCuts, t.Objects(), extensionCutouts'[|extensionCutouts|..], ExtensionCutters(role, d, ao, i));
  }

  /// The foundation edge of wall k after the pass, given its mesh before and
  /// the wall's rotation: cut below each of the wall's doors when the style
  /// has foundation edges, otherwise as it was.
  function EdgeAfterPass(m: Mesh, k: int, wallTurns: int, t: Templates, o: WallOpenings, od: OuterStyle,
                         d: Dims, ao: AdvancedOptions, csg: Csg -> Mesh): Mesh
  {
    if od.foundationEdges then DoorEdge(m, t.door.shape, 0, o.doors, k, d, ao, OpeningWallLength(d, ao, wallTurns), csg)
    else m
  }

  /// One iteration of AddWallDetails' loop, for exterior wall i.
  method DetailWall(i: int, wall: PbObject, edge: PbObject, t: Templates, role: Role, o: WallOpenings,
                    od: OuterStyle, d: Dims, ao: AdvancedOptions, csg: Csg -> Mesh, extensionCutouts: seq<Template>)
    returns (cuts: seq<Cutout>, details: seq<Detail>, extensionCutouts': seq<Template>, ok: bool)
    requires d.floors >= 1 && 0 <= i
    requires t.store != t.indent && wall != edge
    requires CsgValid(csg)
    requires forall x :: x in t.Objects() ==> x.turns == 0
    requires |extensionCutouts| == ExtensionCount(role, d, ao, i)
    modifies wall, edge, t.Objects()
    ensures |extensionCutouts'| == ExtensionCount(role, d, ao, i + 1)
    ensures extensionCutouts'[..|extensionCutouts|] == extensionCutouts
    ensures Planned(t, role, i, o, od, d, ao, extensionCutouts', old(wall.turns), cuts, details)
    ensures WallDone(wall.MeshOf(), wall.turns, old(wall.MeshOf()), old(wall.turns), cuts, ok, d, ao, csg)
    ensures wall.position == old(wall.position)
    ensures forall x :: x in t.Objects() ==> x.turns == old(x.turns)
    ensures !od.foundationEdges ==> unchanged(edge)
    ensures edge.MeshOf() == EdgeAfterPass(old(edge.MeshOf()), i, old(wall.turns), t, o, od, d, ao, csg)
    ensures edge.position == old(edge.position) && edge.turns == old(edge.turns)
  {
    var turns := wall.turns;
    var wallLength := OpeningWallLength(d, ao, turns);
    cuts, details, extensionCutouts' :=
      CollectCuts(i, edge, t, role, o, od, d, ao, csg, wallLength, FacingGableHeight(d, turns), extensionCutouts);
    WallCutsOfCollected(t, role, i, o, od, d, ao, turns, extensionCutouts, extensionCutouts');
    ok := CutAndCoalesce(wall, cuts, csg, d, ao, t.Objects());
  }

  /// The wall cut by all its cutters, then its faces coalesced.
  method CutAndCoalesce(wall: PbObject, cuts: seq<Cutout>, csg: Csg -> Mesh, d: Dims, ao: AdvancedOptions,
                        ghost keep: set<Template>)
    returns (ok: bool)
    requires CsgValid(csg)
    requires forall x :: x in Cutters(cuts) ==> x.turns == 0
    modifies wall, Cutters(cuts)
    ensures WallDone(wall.MeshOf(), wall.turns, old(wall.MeshOf()), old(wall.turns), cuts, ok, d, ao, csg)
    ensures wall.position == old(wall.position)
    ensures forall x :: x in keep ==> x.turns == old(x.turns)
  {
    CutWall(wall, cuts, csg);
    ok := CoalesceFaces(wall, ao.wallThickness, WallEndSide(d, ao, wall.turns));
  }

  /// The wall, turned back to the identity rotation, cut by all its
  /// cutters at once, then turned back.
  method CutWall(wall: PbObject, cuts: seq<Cutout>, csg: Csg -> Mesh)
    requires CsgValid(csg)
    requires forall x :: x in Cutters(cuts) ==> x.turns == 0
    modifies wall, Cutters(cuts)
    ensures wall.Valid()
    ensures wall.MeshOf() == csg(CutTree(Base(old(wall.MeshOf())), cuts))
    ensures wall.position == old(wall.position) && wall.turns == old(wall.turns)
    ensures forall x :: x in Cutters(cuts) ==> x.turns == old(x.turns)
  {
    var turns := wall.turns;
    wall.turns := 0;
    CutOutObjects(wall, cuts, csg);
    wall.turns := turns;
    UnturnedCuts(Base(old(wall.MeshOf())), cuts);
  }

  /// The subtractions of `cuts` when no cutter is turned, which is how the
  /// pass leaves its templates and extension cutters.
  function CutTree(base: Csg, cuts: seq<Cutout>): Csg
  {
    if |cuts| == 0 then base
    else Minus(CutTree(base, cuts[..|cuts| - 1]), cuts[|cuts| - 1].obj.shape, cuts[|cuts| - 1].location, 0)
  }

  lemma {:induction false} UnturnedCuts(base: Csg, cuts: seq<Cutout>)
    requires forall x :: x in Cutters(cuts) ==> x.turns == 0
    ensures Subtractions(base, cuts) == CutTree(base, cuts)
  {
    if |cuts| > 0 {
      var init := cuts[..|cuts| - 1];
      assert Cutters(init) <= Cutters(cuts);
      UnturnedCuts(base, init);
      assert cuts[|cuts| - 1].obj in Cutters(cuts);
    }
  }

  // ------------------------------------------------------------- every wall

  /// The six cutter templates AddWallDetails creates, at the origin.
  method MakeTemplates(ao: AdvancedOptions) returns (t: Templates)
    ensures fresh(t.door) && fresh(t.window) && fresh(t.gableFull) && fresh(t.gableHalf) && fresh(t.store) && fresh(t.indent)
    ensures t.door.shape == Cube(ao.doorDimensions) && t.window.shape == Cube(ao.windowDimensions)
    ensures t.gableFull.shape == Arch(360, ao.gableWindowDiameter) && t.gableHalf.shape == Arch(180, ao.gableWindowDiameter)
    ensures t.store.shape == Cube(ao.storeWindowDimensions) && t.indent.shape == Cube(StoreIndentSize(ao))
    ensures t.store != t.indent
    ensures forall x :: x in t.Objects() ==> x.turns == 0
  {
    var door := new Template(Cube(ao.doorDimensions), Origin, 0);
    var window := new Template(Cube(ao.windowDimensions), Origin, 0);
    var full := new Template(Arch(360, ao.gableWindowDiameter), Origin, 0);
    var half := new Template(Arch(180, ao.gableWindowDiameter), Origin, 0);
    var store := new Template(Cube(ao.storeWindowDimensions), Origin, 0);
    var indent := new Template(Cube(StoreIndentSize(ao)), Origin, 0);
    t := Templates(door, window, full, half, store, indent);
  }

  /// How many extension cutters walls 0 to n-1 place between them.
  function ExtensionCount(role: Role, d: Dims, ao: AdvancedOptions, n: int): (c: nat)
    ensures n <= 0 ==> c == 0
    decreases n
  {
    if n <= 0 then 0 else ExtensionCount(role, d, ao, n - 1) + |ExtensionCutters(role, d, ao, n - 1)|
  }

  lemma {:induction false} ExtensionCountGrows(role: Role, d: Dims, ao: AdvancedOptions, m: int, n: int)
    requires m <= n
    ensures ExtensionCount(role, d, ao, m) <= ExtensionCount(role, d, ao, n)
    decreases n - m
  {
    if m < n {
      ExtensionCountGrows(role, d, ao, m, n - 1);
    }
  }

  /// What wall k looks like once the pass is done with it: its mesh is the
  /// old one cut by `cuts`, then coalesced, and `ok` says whether
  /// coalescing could run.
  ghost predicate WallDone(now: Mesh, nowTurns: int, mesh: Mesh, turns: int, cuts: seq<Cutout>, ok: bool,
                           d: Dims, ao: AdvancedOptions, csg: Csg -> Mesh)
    requires CsgValid(csg)
  {
    var cut := csg(CutTree(Base(mesh), cuts));
    var fin := FinishedFaces(cut.vertices, cut.faces, WallSides(ao.wallThickness, WallEndSide(d, ao, turns)));
    now.vertices == cut.vertices && ok == fin.Some? && (ok ==> now.faces == fin.value) && nowTurns == turns
  }

  /// The cuts of wall k, given the templates and the extension cutters the
  /// pass placed.
  function WallCuts(t: Templates, role: Role, k: int, o: WallOpenings, od: OuterStyle, d: Dims, ao: AdvancedOptions,
                    turns: int, extensionCutouts: seq<Template>): seq<Cutout>
    requires d.floors >= 1 && 0 <= k
    requires ExtensionCount(role, d, ao, k + 1) <= |extensionCutouts|
  {
    var lo, hi := ExtensionCount(role, d, ao, k), ExtensionCount(role, d, ao, k + 1);
    OpeningParts(t, k, o, od, d, ao, OpeningWallLength(d, ao, turns), FacingGableHeight(d, turns), RoleNudge(role)).cuts +
    Placed(extensionCutouts[lo..hi], ExtensionCutters(role, d, ao, k))
  }

  lemma WallCutsOfCollected(t: Templates, role: Role, i: int, o: WallOpenings, od: OuterStyle, d: Dims,
                            ao: AdvancedOptions, turns: int, e: seq<Template>, e': seq<Template>)
    requires d.floors >= 1 && 0 <= i
    requires |e| == ExtensionCount(role, d, ao, i) && |e'| == |e| + |ExtensionCutters(role, d, ao, i)|
    ensures |e'| == ExtensionCount(role, d, ao, i + 1)
    ensures WallCuts(t, role, i, o, od, d, ao, turns, e') ==
      OpeningParts(t, i, o, od, d, ao, OpeningWallLength(d, ao, turns), FacingGableHeight(d, turns), RoleNudge(role)).cuts +
      Placed(e'[|e|..], ExtensionCutters(role, d, ao, i))
  {
    assert e'[ExtensionCount(role, d, ao, i)..ExtensionCount(role, d, ao, i + 1)] == e'[|e|..];
  }

  /// Placing more extension cutters later leaves the cuts of an earlier wall
  /// as they were.
  lemma WallCutsPrefix(t: Templates, role: Role, k: int, o: WallOpenings, od: OuterStyle, d: Dims,
                       ao: AdvancedOptions, turns: int, e: seq<Template>, e': seq<Template>)
    requires d.floors >= 1 && 0 <= k
    requires ExtensionCount(role, d, ao, k + 1) <= |e| <= |e'| && e'[..|e|] == e
    ensures WallCuts(t, role, k, o, od, d, ao, turns, e) == WallCuts(t, role, k, o, od, d, ao, turns, e')
  {
    var lo, hi := ExtensionCount(role, d, ao, k), ExtensionCount(role, d, ao, k + 1);
    ExtensionCountGrows(role, d, ao, k, k + 1);
    assert e[lo..hi] == e'[lo..hi];
  }

  /// What the pass records for wall k: its cuts and its details.
  predicate Planned(t: Templates, role: Role, k: int, o: WallOpenings, od: OuterStyle, d: Dims,
                    ao: AdvancedOptions, e: seq<Template>, turns: int, cuts: seq<Cutout>, details: seq<Detail>)
    requires d.floors >= 1 && 0 <= k
  {
    ExtensionCount(role, d, ao, k + 1) <= |e| &&
    cuts == WallCuts(t, role, k, o, od, d, ao, turns, e) &&
    details == OpeningParts(t, k, o, od, d, ao, OpeningWallLength(d, ao, turns), FacingGableHeight(d, turns),
                            RoleNudge(role)).details
  }

  /// The meshes of the given objects.
  function Meshes(ws: seq<PbObject>): (r: seq<Mesh>)
    reads ws
    ensures |r| == |ws| && forall k :: 0 <= k < |ws| ==> r[k] == ws[k].MeshOf()
  {
    if |ws| == 0 then [] else Meshes(ws[..|ws| - 1]) + [ws[|ws| - 1].MeshOf()]
  }

  /// The rotations of the given objects, in quarter turns.
  function Turns(ws: seq<PbObject>): (r: seq<int>)
    reads ws
    ensures |r| == |ws| && forall k :: 0 <= k < |ws| ==> r[k] == ws[k].turns
  {
    if |ws| == 0 then [] else Turns(ws[..|ws| - 1]) + [ws[|ws| - 1].turns]
  }

  /// What the pass has done for walls 0 to n-1: wall k had mesh meshes[k]
  /// and rotation turns[k], was given cuts[k] and details[k], and ended up
  /// with mesh after[k] and rotation afterTurns[k].
  ghost predicate PassDone(t: Templates, role: Role, o: WallOpenings, od: OuterStyle, d: Dims, ao: AdvancedOptions,
                           csg: Csg -> Mesh, e: seq<Template>, meshes: seq<Mesh>, turns: seq<int>,
                           after: seq<Mesh>, afterTurns: seq<int>, cuts: seq<seq<Cutout>>,
                           details: seq<seq<Detail>>, ok: seq<bool>)
  {
    d.floors >= 1 && CsgValid(csg) &&
    |after| == |afterTurns| == |cuts| == |details| == |ok| <= |meshes| == |turns| &&
    forall k {:trigger WallDone(after[k], afterTurns[k], meshes[k], turns[k], cuts[k], ok[k], d, ao, csg)} ::
      0 <= k < |after| ==>
      Planned(t, role, k, o, od, d, ao, e, turns[k], cuts[k], details[k]) &&
      WallDone(after[k], afterTurns[k], meshes[k], turns[k], cuts[k], ok[k], d, ao, csg)
  }

  /// One more wall done keeps the record of the earlier ones, even though
  /// more extension cutters have been placed.
  lemma PassStep(t: Templates, role: Role, o: WallOpenings, od: OuterStyle, d: Dims, ao: AdvancedOptions,
                 csg: Csg -> Mesh, e: seq<Template>, e': seq<Template>, meshes: seq<Mesh>, turns: seq<int>,
                 after: seq<Mesh>, afterTurns: seq<int>, cuts: seq<seq<Cutout>>, details: seq<seq<Detail>>,
                 ok: seq<bool>, a: Mesh, aTurns: int, c: seq<Cutout>, ds: seq<Detail>, done: bool)
    requires PassDone(t, role, o, od, d, ao, csg, e, meshes, turns, after, afterTurns, cuts, details, ok)
    requires |after| < |meshes|
    requires |e| <= |e'| && e'[..|e|] == e
    requires Planned(t, role, |after|, o, od, d, ao, e', turns[|after|], c, ds)
    requires WallDone(a, aTurns, meshes[|after|], turns[|after|], c, done, d, ao, csg)
    ensures PassDone(t, role, o, od, d, ao, csg, e', meshes, turns, after + [a], afterTurns + [aTurns],
                     cuts + [c], details + [ds], ok + [done])
  {
    var n := |after|;
    var after', afterTurns', cuts', details', ok' := after + [a], afterTurns + [aTurns], cuts + [c], details + [ds], ok + [done];
    forall k | 0 <= k < n + 1
      ensures Planned(t, role, k, o, od, d, ao, e', turns[k], cuts'[k], details'[k])
      ensures WallDone(after'[k], afterTurns'[k], meshes[k], turns[k], cuts'[k], ok'[k], d, ao, csg)
    {
      if k < n {
        assert after'[k] == after[k] && afterTurns'[k] == afterTurns[k];
        assert cuts'[k] == cuts[k] && details'[k] == details[k] && ok'[k] == ok[k];
        assert WallDone(after[k], afterTurns[k], meshes[k], turns[k], cuts[k], ok[k], d, ao, csg);
        WallCutsPrefix(t, role, k, o, od, d, ao, turns[k], e, e');
      }
    }
  }

  /// Walls before i are at `after`, the others still at `meshes`.
  ghost predicate WallsAt(walls: seq<PbObject>, i: int, meshes: seq<Mesh>, turns: seq<int>, after: seq<Mesh>,
                          afterTurns: seq<int>)
    reads set w | w in walls
  {
    0 <= i <= |walls| == |meshes| == |turns| && |after| == |afterTurns| == i &&
    (forall k :: i <= k < |walls| ==> walls[k].MeshOf() == meshes[k] && walls[k].turns == turns[k]) &&
    (forall k :: 0 <= k < i ==> walls[k].MeshOf() == after[k] && walls[k].turns == afterTurns[k])
  }

  /// The foundation edges, now at `now`, are as the pass leaves them before
  /// i, given the meshes they had and their walls' rotations; the others
  /// are still at `meshes`.
  ghost predicate EdgesAt(now: seq<Mesh>, i: int, meshes: seq<Mesh>, wallTurns: seq<int>, t: Templates,
                          o: WallOpenings, od: OuterStyle, d: Dims, ao: AdvancedOptions, csg: Csg -> Mesh)
  {
    0 <= i <= |now| == |meshes| == |wallTurns| &&
    (forall k :: i <= k < |now| ==> now[k] == meshes[k]) &&
    (forall k :: 0 <= k < i ==> now[k] == EdgeAfterPass(meshes[k], k, wallTurns[k], t, o, od, d, ao, csg))
  }

  /// Edge i done, the others as they were: the record grows by one edge.
  lemma EdgesStep(now: seq<Mesh>, i: int, m: Mesh, meshes: seq<Mesh>, wallTurns: seq<int>, t: Templates,
                  o: WallOpenings, od: OuterStyle, d: Dims, ao: AdvancedOptions, csg: Csg -> Mesh)
    requires EdgesAt(now, i, meshes, wallTurns, t, o, od, d, ao, csg) && i < |now|
    requires m == EdgeAfterPass(meshes[i], i, wallTurns[i], t, o, od, d, ao, csg)
    ensures EdgesAt(now[i := m], i + 1, meshes, wallTurns, t, o, od, d, ao, csg)
  {
  }

  /// One turn of AddWallDetails' loop: wall i is detailed, the record of
  /// the pass grows by that wall, and no other wall changes.
  method DetailNext(i: int, walls: seq<PbObject>, edges: seq<PbObject>, t: Templates, role: Role, o: WallOpenings,
                    od: OuterStyle, d: Dims, ao: AdvancedOptions, csg: Csg -> Mesh, e: seq<Template>,
                    ghost meshes: seq<Mesh>, ghost turns: seq<int>, ghost after: seq<Mesh>, ghost afterTurns: seq<int>,
                    ghost edgeMeshes: seq<Mesh>, cuts: seq<seq<Cutout>>, details: seq<seq<Detail>>, ok: seq<bool>)
    returns (c: seq<Cutout>, ds: seq<Detail>, e': seq<Template>, done: bool)
    requires 0 <= i < |walls| == |edges| && |after| == i
    requires forall k :: 0 <= k < |walls| && k != i ==> walls[k] != walls[i] && edges[k] != edges[i]
    requires forall k :: 0 <= k < |walls| ==> walls[k] != edges[i] && edges[k] != walls[i]
    requires t.store != t.indent && forall x :: x in t.Objects() ==> x.turns == 0
    requires |e| == ExtensionCount(role, d, ao, i)
    requires PassDone(t, role, o, od, d, ao, csg, e, meshes, turns, after, afterTurns, cuts, details, ok)
    requires WallsAt(walls, i, meshes, turns, after, afterTurns)
    requires EdgesAt(Meshes(edges), i, edgeMeshes, turns, t, o, od, d, ao, csg)
    modifies walls[i], edges[i], t.Objects()
    ensures forall x :: x in t.Objects() ==> x.turns == 0
    ensures |e'| == ExtensionCount(role, d, ao, i + 1)
    ensures PassDone(t, role, o, od, d, ao, csg, e', meshes, turns, after + [walls[i].MeshOf()],
                     afterTurns + [walls[i].turns], cuts + [c], details + [ds], ok + [done])
    ensures WallsAt(walls, i + 1, meshes, turns, after + [walls[i].MeshOf()], afterTurns + [walls[i].turns])
    ensures EdgesAt(Meshes(edges), i + 1, edgeMeshes, turns, t, o, od, d, ao, csg)
  {
    ghost var before := Meshes(edges);
    c, ds, e', done := DetailWall(i, walls[i], edges[i], t, role, o, od, d, ao, csg, e);
    PassStep(t, role, o, od, d, ao, csg, e, e', meshes, turns, after, afterTurns, cuts, details, ok,
             walls[i].MeshOf(), walls[i].turns, c, ds, done);
    forall k | 0 <= k < |edges| && k != i ensures Meshes(edges)[k] == before[k] {
      assert edges[k] != walls[i] && edges[k] != edges[i];
    }
    assert Meshes(edges) == before[i := edges[i].MeshOf()];
    EdgesStep(before, i, edges[i].MeshOf(), edgeMeshes, turns, t, o, od, d, ao, csg);
  }

  /// CustomizableHouse.AddWallDetails: every exterior wall in turn gets its
  /// cuts, is cut, and has its faces coalesced; the templates and the
  /// extension cutters are returned rather than destroyed.
  method AddWallDetails(walls: seq<PbObject>, edges: seq<PbObject>, role: Role, o: WallOpenings, od: OuterStyle,
                        d: Dims, ao: AdvancedOptions, csg: Csg -> Mesh)
    returns (t: Templates, extensionCutouts: seq<Template>, cuts: seq<seq<Cutout>>, details: seq<seq<Detail>>,
             ok: seq<bool>)
    requires d.floors >= 1 && CsgValid(csg)
    requires |edges| == |walls|
    requires forall j, k :: 0 <= j < k < |walls| ==> walls[j] != walls[k]
    requires forall j, k :: 0 <= j < k < |edges| ==> edges[j] != edges[k]
    requires forall j, k :: 0 <= j < |walls| && 0 <= k < |edges| ==> walls[j] != edges[k]
    modifies set w | w in walls, set e | e in edges
    ensures t.store != t.indent
    ensures |extensionCutouts| == ExtensionCount(role, d, ao, |walls|)
    ensures |cuts| == |details| == |ok| == |walls|
    ensures PassDone(t, role, o, od, d, ao, csg, extensionCutouts, old(Meshes(walls)), old(Turns(walls)),
                     Meshes(walls), Turns(walls), cuts, details, ok)
    ensures forall k :: 0 <= k < |edges| ==>
      Meshes(edges)[k] == EdgeAfterPass(old(Meshes(edges))[k], k, old(Turns(walls))[k], t, o, od, d, ao, csg)
  {
    t := MakeTemplates(ao);
    extensionCutouts, cuts, details, ok := DetailWalls(walls, edges, t, role, o, od, d, ao, csg);
  }

  /// The loop of AddWallDetails over the exterior walls, with the templates
  /// already made.
  method DetailWalls(walls: seq<PbObject>, edges: seq<PbObject>, t: Templates, role: Role, o: WallOpenings,
                     od: OuterStyle, d: Dims, ao: AdvancedOptions, csg: Csg -> Mesh)
    returns (extensionCutouts: seq<Template>, cuts: seq<seq<Cutout>>, details: seq<seq<Detail>>, ok: seq<bool>)
    requires d.floors >= 1 && CsgValid(csg)
    requires |edges| == |walls|
    requires forall j, k :: 0 <= j < k < |walls| ==> walls[j] != walls[k]
    requires forall j, k :: 0 <= j < k < |edges| ==> edges[j] != edges[k]
    requires forall j, k :: 0 <= j < |walls| && 0 <= k < |edges| ==> walls[j] != edges[k]
    requires t.store != t.indent && forall x :: x in t.Objects() ==> x.turns == 0
    modifies (set w | w in walls), (set e | e in edges), t.Objects()
    ensures |extensionCutouts| == ExtensionCount(role, d, ao, |walls|)
    ensures |cuts| == |details| == |ok| == |walls|
    ensures PassDone(t, role, o, od, d, ao, csg, extensionCutouts, old(Meshes(walls)), old(Turns(walls)),
                     Meshes(walls), Turns(walls), cuts, details, ok)
    ensures forall k :: 0 <= k < |edges| ==>
      Meshes(edges)[k] == EdgeAfterPass(old(Meshes(edges))[k], k, old(Turns(walls))[k], t, o, od, d, ao, csg)
  {
    ghost var meshes, turns, edgeMeshes := Meshes(walls), Turns(walls), Meshes(edges);
    ghost var after: seq<Mesh>, afterTurns: seq<int> := [], [];
    extensionCutouts, cuts, details, ok := [], [], [], [];
    var i := 0;
    while i < |walls|
      invariant 0 <= i <= |walls| && |after| == |afterTurns| == i
      invariant forall x :: x in t.Objects() ==> x.turns == 0
      invariant |extensionCutouts| == ExtensionCount(role, d, ao, i)
      invariant WallsAt(walls, i, meshes, turns, after, afterTurns)
      invariant EdgesAt(Meshes(edges), i, edgeMeshes, turns, t, o, od, d, ao, csg)
      invariant PassDone(t, role, o, od, d, ao, csg, extensionCutouts, meshes, turns, after, afterTurns,
                         cuts, details, ok)
    {
      var c, ds, e, done := DetailNext(i, walls, edges, t, role, o, od, d, ao, csg, extensionCutouts,
                                       meshes, turns, after, afterTurns, edgeMeshes, cuts, details, ok);
      after, afterTurns := after + [walls[i].MeshOf()], afterTurns + [walls[i].turns];
      extensionCutouts := e;
      cuts, details, ok := cuts + [c], details + [ds], ok + [done];
      i := i + 1;
    }
    assert after == Meshes(walls) && afterTurns == Turns(walls);
    assert forall k :: 0 <= k < |edges| ==>
      Meshes(edges)[k] == EdgeAfterPass(edgeMeshes[k], k, turns[k], t, o, od, d, ao, csg);
  }
}
