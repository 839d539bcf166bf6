// House extensions (FullHouse.cs, Extension.cs and the extension helpers of
// CustomizableHouse.cs): a full house owns a list of extensions, each a
// smaller house attached to one of its walls at a normalised position.
// Where they meet, the house cuts its wall where the extension stands and
// the extension cuts its facing wall where the house stands; an extension
// may also stretch its own two roofs so that they reach into the house's
// roof.

module Extensions {
  import opened HouseTypes
  import opened Layout
  import opened PBUtility
  import Settings

  /// CustomizableHouse.HouseExtension: the extension's dimensions, the wall
  /// of the house it is attached to, and its position along that wall.
  datatype HouseExtension = HouseExtension(extent: Dims, wall: Wall, position: real)

  /// NUDGE, the offset against z-fighting: the house's and the extension's
  /// override.
  const HouseNudge := 0.001
  const ExtensionNudge := 0.002

  /// A cube cutter: its size and the position it is placed at.
  datatype Cutter = Cutter(size: Vec3, at: Vec3)

  // ---------------------------------------------------------- world geometry

  /// A vector in a wall's coordinates turned into the house's by the wall's
  /// quarter turns about the vertical (a turn maps x to -z).
  function RotateY(v: Vec3, turns: int): Vec3
  {
    var t := turns % 4;
    if t == 0 then v
    else if t == 1 then Vec3(v.z, v.y, -v.x)
    else if t == 2 then Vec3(-v.x, v.y, -v.z)
    else Vec3(-v.z, v.y, v.x)
  }

  /// The house coordinate that runs along wall w.
  function Along(v: Vec3, w: Wall): real
  {
    if w == Front || w == Back then v.x else v.z
  }

  // -------------------------------------------------------- FullHouse cutters

  /// FullHouse.AddExtensionCutouts: the sign for wall index i.
  function HouseSign(i: int): int
  {
    if i == 3 then -1 else if i == 2 then 1 else if i == 1 then -1 else 1
  }

  /// The cutter the house puts in wall i for extension e.
  function HouseCutter(d: Dims, ao: AdvancedOptions, e: HouseExtension, i: int): Cutter
  {
    var m := Min(e.extent.height, d.height);
    Cutter(Vec3(WallLength(e.extent, e.wall) - (ao.foundationSeparation + ao.wallThickness) * 2.0,
                m - ao.ceilingThickness, ao.wallThickness + HouseNudge),
           Vec3((WallLength(d, e.wall) + WallLength(e.extent, e.wall) - ao.foundationSeparation * 4.0)
                  * e.position / 2.0 * HouseSign(i) as real,
                (m - (ao.ceilingThickness + d.height)) / 2.0, 0.0))
  }

  /// The extensions attached to wall i, in order.
  function ExtensionsOn(exts: seq<HouseExtension>, i: int): seq<HouseExtension>
  {
    if |exts| == 0 then []
    else ExtensionsOn(exts[..|exts| - 1], i) + (if exts[|exts| - 1].wall.Index() == i then [exts[|exts| - 1]] else [])
  }

  /// The cutters for wall i, extension by extension.
  function HouseCutters(d: Dims, ao: AdvancedOptions, exts: seq<HouseExtension>, i: int): seq<Cutter>
  {
    if |exts| == 0 then []
    else
      var e := exts[|exts| - 1];
      HouseCutters(d, ao, exts[..|exts| - 1], i) + (if e.wall.Index() == i then [HouseCutter(d, ao, e, i)] else [])
  }

  /// One cutter per extension on wall i, in list order, and none for any
  /// other extension.
  lemma {:induction false} HouseCuttersPerExtension(d: Dims, ao: AdvancedOptions, exts: seq<HouseExtension>, i: int)
    ensures var cs, on := HouseCutters(d, ao, exts, i), ExtensionsOn(exts, i);
      |cs| == |on| &&
      (forall k :: 0 <= k < |on| ==> on[k].wall.Index() == i && cs[k] == HouseCutter(d, ao, on[k], i)) &&
      (forall e :: e in on <==> e in exts && e.wall.Index() == i)
  {
    if |exts| > 0 {
      HouseCuttersPerExtension(d, ao, exts[..|exts| - 1], i);
      assert exts == exts[..|exts| - 1] + [exts[|exts| - 1]];
    }
  }

  /// The recorded cuts of freshly placed cutters.
  function Placed(ts: seq<Template>, cs: seq<Cutter>): (r: seq<Cutout>)
    requires |ts| == |cs|
    ensures |r| == |ts|
    ensures forall k :: 0 <= k < |r| ==> r[k] == Cutout(ts[k], cs[k].at)
  {
    if |ts| == 0 then [] else Placed(ts[..|ts| - 1], cs[..|cs| - 1]) + [Cutout(ts[|ts| - 1], cs[|cs| - 1].at)]
  }

  /// FullHouse.AddExtensionCutouts: for every extension on wall i, a new cube
  /// cutter is placed and appended both to the cutters to destroy later and
  /// to the wall's cuts.
  method AddHouseCutouts(i: int, d: Dims, ao: AdvancedOptions, exts: seq<HouseExtension>,
                         cutouts: seq<Template>, cuts: seq<Cutout>)
    returns (cutouts': seq<Template>, cuts': seq<Cutout>)
    ensures var cs := HouseCutters(d, ao, exts, i);
      |cutouts'| == |cutouts| + |cs| && cutouts'[..|cutouts|] == cutouts &&
      cuts' == cuts + Placed(cutouts'[|cutouts|..], cs) &&
      forall k :: 0 <= k < |cs| ==>
        var t := cutouts'[|cutouts| + k];
        fresh(t) && t.shape == Cube(cs[k].size) && t.position == cs[k].at && t.turns == 0
  {
    var created: seq<Template> := [];
    var n := 0;
    while n < |exts|
      invariant 0 <= n <= |exts|
      invariant var cs := HouseCutters(d, ao, exts[..n], i);
        |created| == |cs| &&
        forall k :: 0 <= k < |cs| ==>
          fresh(created[k]) && created[k].shape == Cube(cs[k].size) && created[k].position == cs[k].at && created[k].turns == 0
    {
      var e := exts[n];
      ghost var cs := HouseCutters(d, ao, exts[..n], i);
      assert exts[..n + 1][..n] == exts[..n];
      assert HouseCutters(d, ao, exts[..n + 1], i) == cs + (if e.wall.Index() == i then [HouseCutter(d, ao, e, i)] else []);
      if e.wall.Index() == i {
        var c := HouseCutter(d, ao, e, i);
        var t := new Template(Cube(c.size), c.at, 0);
        created := created + [t];
      }
      n := n + 1;
    }
    assert exts[..|exts|] == exts;
    cutouts' := cutouts + created;
    assert cutouts'[|cutouts|..] == created;
    cuts' := cuts + Placed(created, HouseCutters(d, ao, exts, i));
  }

  // -------------------------------------------------------- Extension cutters

  /// Extension.AddExtensionCutouts: the wall of the house that the
  /// extension's wall i faces when the extension is attached there.
  function FacedWall(i: int): Wall
  {
    if i == 3 then Right else if i == 2 then Left else if i == 1 then Front else Back
  }

  /// Extension.AddExtensionCutouts: the sign for the extension's wall i.
  function ExtensionSign(i: int): int
  {
    if i == 3 then 1 else if i == 2 then -1 else if i == 1 then 1 else -1
  }

  /// The cutter an extension of dimensions d, attached to wall `attached` of
  /// a house of dimensions f, puts in its own wall i; the extension shares
  /// the house's options.
  function ExtensionCutter(f: Dims, d: Dims, ao: AdvancedOptions, attached: Wall, position: real, i: int): Option<Cutter>
  {
    var w := FacedWall(i);
    if w == attached then
      var m := Min(f.height, d.height);
      Some(Cutter(Vec3(WallLength(f, w) - (ao.foundationSeparation + ao.wallThickness) * 2.0,
                       m - ao.ceilingThickness, ao.wallThickness + ExtensionNudge),
                  Vec3((WallLength(f, w) + WallLength(d, w) - ao.foundationSeparation * 4.0)
                         * position / 2.0 * ExtensionSign(i) as real,
                       (m - (ao.ceilingThickness + d.height)) / 2.0, 0.0)))
    else None
  }

  /// The extension's wall i faces the house wall opposite to it; so, of the
  /// extension's four walls, exactly the one opposite to the house wall it
  /// is attached to gets a cutter. Its sign is the house's sign for the
  /// wall it faces.
  lemma FacedWallPairing(i: int, attached: Wall)
    requires 0 <= i < 4
    ensures WallOfIndex(i) == Some(FacedWall(i).Opposite())
    ensures FacedWall(i) == attached <==> i == attached.Opposite().Index()
    ensures ExtensionSign(i) == HouseSign(FacedWall(i).Index())
  {
  }

  /// Extension.AddExtensionCutouts: a new cube cutter in wall i when that
  /// wall faces the house.
  method AddExtensionCutouts(i: int, f: Dims, d: Dims, ao: AdvancedOptions, attached: Wall, position: real,
                             cutouts: seq<Template>, cuts: seq<Cutout>)
    returns (cutouts': seq<Template>, cuts': seq<Cutout>)
    ensures ExtensionCutter(f, d, ao, attached, position, i).None? ==> cutouts' == cutouts && cuts' == cuts
    ensures ExtensionCutter(f, d, ao, attached, position, i).Some? ==>
      var c := ExtensionCutter(f, d, ao, attached, position, i).value;
      |cutouts'| == |cutouts| + 1 && cutouts'[..|cutouts|] == cutouts &&
      var t := cutouts'[|cutouts|];
      fresh(t) && t.shape == Cube(c.size) && t.position == c.at && t.turns == 0 &&
      cuts' == cuts + [Cutout(t, c.at)]
  {
    cutouts', cuts' := cutouts, cuts;
    var c := ExtensionCutter(f, d, ao, attached, position, i);
    if c.Some? {
      var t := new Template(Cube(c.value.size), c.value.at, 0);
      cutouts' := cutouts' + [t];
      cuts' := cuts' + [CutoutHere(t)];
    }
  }

  /// The two cuts meet. In house coordinates, the house's cutter on wall w
  /// is centred (along the wall) on the extension, and the extension's
  /// cutter on its facing wall is centred on the house. Each is as wide as
  /// the other building's interior along that wall, and, measured from the
  /// foot of its own wall, both reach from the foot up to the lower of the
  /// two heights less the ceiling thickness.
  lemma CuttersMeet(d: Dims, ext: Dims, ao: AdvancedOptions, w: Wall, position: real)
    ensures var e := HouseExtension(ext, w, position);
      var hc := HouseCutter(d, ao, e, w.Index());
      var ec := ExtensionCutter(d, ext, ao, w, position, w.Opposite().Index());
      var at := ExtensionOffset(d, ext, ao, w, position, HouseNudge);
      var top := Min(d.height, ext.height) - ao.ceilingThickness;
      ec.Some? &&
      Along(RotateY(hc.at, w.Turns()), w) == Along(at, w) &&
      Along(at.Plus(RotateY(ec.value.at, w.Opposite().Turns())), w) == 0.0 &&
      hc.size.x == (if w == Front || w == Back then InnerWidth(ext, ao) else InnerDepth(ext, ao)) &&
      ec.value.size.x == (if w == Front || w == Back then InnerWidth(d, ao) else InnerDepth(d, ao)) &&
      hc.at.y - hc.size.y / 2.0 == -d.height / 2.0 &&
      ec.value.at.y - ec.value.size.y / 2.0 == -ext.height / 2.0 &&
      hc.at.y + hc.size.y / 2.0 + d.height / 2.0 == top &&
      ec.value.at.y + ec.value.size.y / 2.0 + ext.height / 2.0 == top
  {
    CuttersCentred(d, ext, ao, w, position);
    CutterSpans(d, ext, ao, w, position);
  }

  /// The centring half of CuttersMeet.
  lemma CuttersCentred(d: Dims, ext: Dims, ao: AdvancedOptions, w: Wall, position: real)
    ensures var e := HouseExtension(ext, w, position);
      var hc := HouseCutter(d, ao, e, w.Index());
      var ec := ExtensionCutter(d, ext, ao, w, position, w.Opposite().Index());
      var at := ExtensionOffset(d, ext, ao, w, position, HouseNudge);
      ec.Some? &&
      Along(RotateY(hc.at, w.Turns()), w) == Along(at, w) &&
      Along(at.Plus(RotateY(ec.value.at, w.Opposite().Turns())), w) == 0.0
  {
    var e := HouseExtension(ext, w, position);
    var pos := (WallLength(d, w) + WallLength(ext, w) - ao.foundationSeparation * 4.0) * position / 2.0;
    var hc := HouseCutter(d, ao, e, w.Index());
    var ec := ExtensionCutter(d, ext, ao, w, position, w.Opposite().Index());
    assert FacedWall(w.Opposite().Index()) == w;
    assert hc.at.x == pos * HouseSign(w.Index()) as real;
    assert ec.value.at.x == pos * ExtensionSign(w.Opposite().Index()) as real;
  }

  /// The size half of CuttersMeet.
  lemma CutterSpans(d: Dims, ext: Dims, ao: AdvancedOptions, w: Wall, position: real)
    ensures var e := HouseExtension(ext, w, position);
      var hc := HouseCutter(d, ao, e, w.Index());
      var ec := ExtensionCutter(d, ext, ao, w, position, w.Opposite().Index());
      var top := Min(d.height, ext.height) - ao.ceilingThickness;
      ec.Some? &&
      hc.size.x == (if w == Front || w == Back then InnerWidth(ext, ao) else InnerDepth(ext, ao)) &&
      ec.value.size.x == (if w == Front || w == Back then InnerWidth(d, ao) else InnerDepth(d, ao)) &&
      hc.at.y - hc.size.y / 2.0 == -d.height / 2.0 &&
      ec.value.at.y - ec.value.size.y / 2.0 == -ext.height / 2.0 &&
      hc.at.y + hc.size.y / 2.0 + d.height / 2.0 == top &&
      ec.value.at.y + ec.value.size.y / 2.0 + ext.height / 2.0 == top
  {
    assert FacedWall(w.Opposite().Index()) == w;
  }

  // ------------------------------------------------------------ roof extension

  /// A vertical-plane shift of some vertices of one of the two roofs.
  datatype RoofMove = RoofMove(roof: int, vertices: seq<int>, dz: real)

  const Triangles1: seq<int> := [1, 3]
  const Triangles2: seq<int> := [5, 7]
  const Triangles3: seq<int> := [0, 2]
  const Triangles4: seq<int> := [9, 11]

  /// The house gable the extension's roof is compared with: the side gable
  /// for extensions at the front or back, the front gable otherwise.
  function ParentGable(parent: Dims, w: Wall): real
  {
    if w == Front || w == Back then parent.sideGableHeight else parent.frontGableHeight
  }

  /// Extension.ExtendRoofs: how far the roofs are stretched, and the fixed
  /// correction. The ratio divides by the house's gable; with a zero gable
  /// float division makes the distance infinite or NaN, which here is None.
  function RoofDistance(d: Dims, parent: Dims, ao: AdvancedOptions, w: Wall): Option<real>
  {
    if ParentGable(parent, w) == 0.0 then None
    else if w == Front || w == Back then
      var ratio := d.frontGableHeight / parent.sideGableHeight;
      Some(parent.depth * ratio / 2.0 - (ao.roofOverhangFront / 2.0 + ao.foundationSeparation + ao.wallThickness)
        + ao.roofHeight * (1.0 - ratio))
    else
      var ratio := d.sideGableHeight / parent.frontGableHeight;
      Some(parent.width * ratio / 2.0 - (ao.roofOverhangFront / 2.0 + ao.foundationSeparation)
        + ao.roofHeight * (1.0 - ratio))
  }

  function RoofFix(ao: AdvancedOptions, w: Wall): real
  {
    if w == Front || w == Back then ao.foundationSeparation + ao.wallThickness else ao.foundationSeparation
  }

  /// The four shifts: roof 0 is stretched by the distance and roof 1 pulled
  /// back, or, with `swapped`, the other way round.
  function Stretch(swapped: bool, dist: real, fix: real): seq<RoofMove>
  {
    if !swapped then
      [RoofMove(0, Triangles1, dist), RoofMove(0, Triangles3, -fix),
       RoofMove(1, Triangles2, -dist), RoofMove(1, Triangles4, fix)]
    else
      [RoofMove(0, Triangles2, -dist), RoofMove(0, Triangles4, fix),
       RoofMove(1, Triangles1, dist), RoofMove(1, Triangles3, -fix)]
  }

  /// Extension.ExtendRoofs, as the list of vertex shifts it makes; None when
  /// the stretch distance is not finite.
  function RoofMoves(d: Dims, parent: Dims, ao: AdvancedOptions, w: Wall, extendRoof: bool, extendable: bool): Option<seq<RoofMove>>
  {
    if !(extendRoof && extendable) then Some([])
    else match RoofDistance(d, parent, ao, w)
      case None => None
      case Some(dist) => Some(Stretch(!(w == Front || w == Right), dist, RoofFix(ao, w)))
  }

  /// The shifts applied to roof r, in order.
  function MovesOn(ms: seq<RoofMove>, r: int): seq<RoofMove>
  {
    if |ms| == 0 then []
    else MovesOn(ms[..|ms| - 1], r) + (if ms[|ms| - 1].roof == r then [ms[|ms| - 1]] else [])
  }

  /// Each roof gets one stretch by the distance and one correction the
  /// other way by the fixed amount.
  lemma StretchPerRoof(swapped: bool, dist: real, fix: real, r: int)
    requires 0 <= r < 2
    ensures var on := MovesOn(Stretch(swapped, dist, fix), r);
      |on| == 2 &&
      ((on[0].vertices == Triangles1 && on[0].dz == dist && on[1].vertices == Triangles3 && on[1].dz == -fix) ||
       (on[0].vertices == Triangles2 && on[0].dz == -dist && on[1].vertices == Triangles4 && on[1].dz == fix))
  {
    MovesOnFour(Stretch(swapped, dist, fix));
  }

  /// Swapping exchanges the shifts of the two roofs.
  lemma StretchSwap(swapped: bool, dist: real, fix: real)
    ensures var ms, other := Stretch(swapped, dist, fix), Stretch(!swapped, dist, fix);
      MovesOn(other, 0) == Reassign(MovesOn(ms, 1), 0) && MovesOn(other, 1) == Reassign(MovesOn(ms, 0), 1)
  {
    var ms, other := Stretch(swapped, dist, fix), Stretch(!swapped, dist, fix);
    MovesOnFour(ms);
    MovesOnFour(other);
    assert ms[2..] == [ms[2], ms[3]] && ms[..2] == [ms[0], ms[1]];
    assert other[..2] == [other[0], other[1]] && other[2..] == [other[2], other[3]];
    ReassignPair(ms[2], ms[3], 0);
    ReassignPair(ms[0], ms[1], 1);
  }

  lemma ReassignPair(a: RoofMove, b: RoofMove, r: int)
    ensures Reassign([a, b], r) == [a.(roof := r), b.(roof := r)]
  {
  }

  /// MovesOn of a list of four shifts, two per roof, roof 0 first.
  lemma MovesOnFour(ms: seq<RoofMove>)
    requires |ms| == 4 && ms[0].roof == 0 && ms[1].roof == 0 && ms[2].roof == 1 && ms[3].roof == 1
    ensures MovesOn(ms, 0) == ms[..2] && MovesOn(ms, 1) == ms[2..]
  {
    MovesOnPrefixes(ms, 0);
    MovesOnPrefixes(ms, 1);
    assert ms[..2] == [ms[0], ms[1]] && ms[2..] == [ms[2], ms[3]];
  }

  lemma MovesOnPrefixes(ms: seq<RoofMove>, r: int)
    requires |ms| == 4
    ensures MovesOn(ms, r) ==
      (if ms[0].roof == r then [ms[0]] else []) + (if ms[1].roof == r then [ms[1]] else []) +
      (if ms[2].roof == r then [ms[2]] else []) + (if ms[3].roof == r then [ms[3]] else [])
  {
    assert ms[..1] == [] + [ms[0]];
    assert ms[..2] == ms[..1] + [ms[1]];
    assert ms[..3] == ms[..2] + [ms[2]];
    assert ms == ms[..3] + [ms[3]];
    MovesOnStep([], ms[0], r);
    MovesOnStep(ms[..1], ms[1], r);
    MovesOnStep(ms[..2], ms[2], r);
    MovesOnStep(ms[..3], ms[3], r);
  }

  /// Nothing moves unless the extension extends the roof and can. Then the
  /// stretch is finite exactly when the house has the gable it is compared
  /// with, and the two roofs swap roles between the front and back walls,
  /// and between the right and left walls, whose distances agree.
  lemma RoofMovesByWall(d: Dims, parent: Dims, ao: AdvancedOptions, w: Wall, extendRoof: bool, extendable: bool)
    ensures var ms := RoofMoves(d, parent, ao, w, extendRoof, extendable);
      (ms == Some([]) <==> !(extendRoof && extendable)) &&
      (ms.None? <==> extendRoof && extendable && ParentGable(parent, w) == 0.0) &&
      ParentGable(parent, w.Opposite()) == ParentGable(parent, w) &&
      (ms.Some? && ms != Some([]) ==>
        var dist := RoofDistance(d, parent, ao, w).value;
        var other := RoofMoves(d, parent, ao, w.Opposite(), extendRoof, extendable);
        ms == Some(Stretch(!(w == Front || w == Right), dist, RoofFix(ao, w))) &&
        other == Some(Stretch(w == Front || w == Right, dist, RoofFix(ao, w))))
  {
    if extendRoof && extendable && ParentGable(parent, w) != 0.0 {
      assert RoofDistance(d, parent, ao, w.Opposite()) == RoofDistance(d, parent, ao, w);
    }
  }

  /// The stretch of an extension that extends the roof is finite exactly
  /// when the house's gable facing it is not the active one: front and back
  /// extensions need a side gable, right and left ones a front gable. The
  /// house as first created has only a front gable, so a front or back
  /// extension's stretch is not finite there, and a right or left one's is.
  lemma StretchNeedsGable(d: Dims, parent: Dims, ao: AdvancedOptions, w: Wall)
    ensures RoofMoves(d, parent, ao, w, true, true).None? <==>
      if w == Front || w == Back then parent.FrontGableActive() else parent.SideGableActive()
    ensures RoofMoves(d, Settings.DefaultDims(), ao, w, true, true).None? <==> w == Front || w == Back
  {
    var p := Settings.DefaultDims();
    assert p.sideGableHeight == 0.0 && p.frontGableHeight == 5.0;
  }

  /// The same shifts, applied to roof r.
  function Reassign(ms: seq<RoofMove>, r: int): (rs: seq<RoofMove>)
    ensures |rs| == |ms|
    ensures forall k :: 0 <= k < |ms| ==> rs[k] == ms[k].(roof := r)
  {
    if |ms| == 0 then [] else Reassign(ms[..|ms| - 1], r) + [ms[|ms| - 1].(roof := r)]
  }

  /// The shifts applied one after the other, each by ProBuilder's vertex
  /// translation.
  function Shifted(vs: seq<Vec3>, ms: seq<RoofMove>, translate: (seq<Vec3>, seq<int>, Vec3) -> seq<Vec3>): seq<Vec3>
  {
    if |ms| == 0 then vs
    else translate(Shifted(vs, ms[..|ms| - 1], translate), ms[|ms| - 1].vertices, Vec3(0.0, 0.0, ms[|ms| - 1].dz))
  }

  lemma MovesOnStep(ms: seq<RoofMove>, m: RoofMove, r: int)
    ensures MovesOn(ms + [m], r) == MovesOn(ms, r) + (if m.roof == r then [m] else [])
  {
    assert (ms + [m])[..|ms|] == ms;
  }

  lemma ShiftedStep(vs: seq<Vec3>, ms: seq<RoofMove>, m: RoofMove, translate: (seq<Vec3>, seq<int>, Vec3) -> seq<Vec3>)
    ensures Shifted(vs, ms + [m], translate) == translate(Shifted(vs, ms, translate), m.vertices, Vec3(0.0, 0.0, m.dz))
  {
    assert (ms + [m])[..|ms|] == ms;
  }

  /// One shift of a roof's vertices, by ProBuilder's translation.
  method TranslateVertices(roof: PbObject, m: RoofMove, translate: (seq<Vec3>, seq<int>, Vec3) -> seq<Vec3>)
    modifies roof
    ensures roof.vertices == translate(old(roof.vertices), m.vertices, Vec3(0.0, 0.0, m.dz))
    ensures roof.faces == old(roof.faces) && roof.position == old(roof.position) && roof.turns == old(roof.turns)
  {
    roof.vertices := translate(roof.vertices, m.vertices, Vec3(0.0, 0.0, m.dz));
  }

  /// One shift, applied to the roof it names; `done` are the shifts already applied.
  method ApplyMove(m: RoofMove, roof0: PbObject, roof1: PbObject, translate: (seq<Vec3>, seq<int>, Vec3) -> seq<Vec3>,
                   ghost v0: seq<Vec3>, ghost v1: seq<Vec3>, ghost done: seq<RoofMove>)
    requires roof0 != roof1
    requires roof0.vertices == Shifted(v0, MovesOn(done, 0), translate)
    requires roof1.vertices == Shifted(v1, MovesOn(done, 1), translate)
    modifies roof0, roof1
    ensures roof0.vertices == Shifted(v0, MovesOn(done + [m], 0), translate)
    ensures roof1.vertices == Shifted(v1, MovesOn(done + [m], 1), translate)
    ensures roof0.faces == old(roof0.faces) && roof1.faces == old(roof1.faces)
    ensures roof0.position == old(roof0.position) && roof1.position == old(roof1.position)
    ensures roof0.turns == old(roof0.turns) && roof1.turns == old(roof1.turns)
  {
    MovesOnStep(done, m, 0);
    MovesOnStep(done, m, 1);
    assert m.roof != 0 ==> MovesOn(done + [m], 0) == MovesOn(done, 0);
    assert m.roof != 1 ==> MovesOn(done + [m], 1) == MovesOn(done, 1);
    if m.roof == 0 {
      ShiftedStep(v0, MovesOn(done, 0), m, translate);
      TranslateVertices(roof0, m, translate);
    } else if m.roof == 1 {
      ShiftedStep(v1, MovesOn(done, 1), m, translate);
      TranslateVertices(roof1, m, translate);
    }
  }

  /// The shifts applied in order, each to the roof it names.
  method ApplyMoves(ms: seq<RoofMove>, roof0: PbObject, roof1: PbObject, translate: (seq<Vec3>, seq<int>, Vec3) -> seq<Vec3>)
    requires roof0 != roof1
    modifies roof0, roof1
    ensures roof0.vertices == Shifted(old(roof0.vertices), MovesOn(ms, 0), translate)
    ensures roof1.vertices == Shifted(old(roof1.vertices), MovesOn(ms, 1), translate)
    ensures roof0.faces == old(roof0.faces) && roof1.faces == old(roof1.faces)
    ensures roof0.position == old(roof0.position) && roof1.position == old(roof1.position)
    ensures roof0.turns == old(roof0.turns) && roof1.turns == old(roof1.turns)
  {
    ghost var v0, v1 := roof0.vertices, roof1.vertices;
    var k := 0;
    while k < |ms|
      invariant 0 <= k <= |ms|
      invariant roof0.vertices == Shifted(v0, MovesOn(ms[..k], 0), translate)
      invariant roof1.vertices == Shifted(v1, MovesOn(ms[..k], 1), translate)
      invariant roof0.faces == old(roof0.faces)
      invariant roof1.faces == old(roof1.faces)
      invariant roof0.position == old(roof0.position)
      invariant roof1.position == old(roof1.position)
      invariant roof0.turns == old(roof0.turns)
      invariant roof1.turns == old(roof1.turns)
    {
      ApplyMove(ms[k], roof0, roof1, translate, v0, v1, ms[..k]);
      assert ms[..k + 1] == ms[..k] + [ms[k]];
      k := k + 1;
    }
    assert ms[..|ms|] == ms;
  }

  /// Extension.ExtendRoofs, the extension's override, on the two roofs its
  /// caller passes (the extension's own, which reach into the house's roof);
  /// the distances come from the extension's dimensions and options and the
  /// house's. `finite` is false when the stretch distance is not finite; the
  /// roofs are then left as they were.
  method ExtendRoofs(d: Dims, parent: Dims, ao: AdvancedOptions, w: Wall, extendRoof: bool, extendable: bool,
                     roof0: PbObject, roof1: PbObject, translate: (seq<Vec3>, seq<int>, Vec3) -> seq<Vec3>)
    returns (finite: bool)
    requires roof0 != roof1
    modifies roof0, roof1
    ensures finite <==> RoofMoves(d, parent, ao, w, extendRoof, extendable).Some?
    ensures var ms := RoofMoves(d, parent, ao, w, extendRoof, extendable);
      var shifts := if ms.Some? then ms.value else [];
      roof0.vertices == Shifted(old(roof0.vertices), MovesOn(shifts, 0), translate) &&
      roof1.vertices == Shifted(old(roof1.vertices), MovesOn(shifts, 1), translate)
    ensures roof0.faces == old(roof0.faces) && roof1.faces == old(roof1.faces)
    ensures roof0.position == old(roof0.position) && roof1.position == old(roof1.position)
    ensures roof0.turns == old(roof0.turns) && roof1.turns == old(roof1.turns)
  {
    finite := true;
    if extendRoof && extendable {
      var ms := RoofMoves(d, parent, ao, w, extendRoof, extendable);
      if ms.Some? {
        ApplyMoves(ms.value, roof0, roof1, translate);
      } else {
        finite := false;
      }
    }
  }

  // ------------------------------------------------- creating the extensions

  /// What setting up the extensions does, in order.
  datatype Step = SetUpExtensions | SetUpExtension(e: HouseExtension) | GenerateHouse(e: HouseExtension)

  function SetUps(exts: seq<HouseExtension>): (r: seq<Step>)
    ensures |r| == |exts|
    ensures forall k :: 0 <= k < |exts| ==> r[k] == SetUpExtension(exts[k])
  {
    if |exts| == 0 then [] else SetUps(exts[..|exts| - 1]) + [SetUpExtension(exts[|exts| - 1])]
  }

  function SetUpsAndGenerations(exts: seq<HouseExtension>): seq<Step>
  {
    if |exts| == 0 then []
    else SetUpsAndGenerations(exts[..|exts| - 1]) + [SetUpExtension(exts[|exts| - 1]), GenerateHouse(exts[|exts| - 1])]
  }

  /// Every extension, in list order, is set up and then generated right away.
  lemma {:induction false} SetUpThenGenerate(exts: seq<HouseExtension>)
    ensures var s := SetUpsAndGenerations(exts);
      |s| == 2 * |exts| &&
      forall k :: 0 <= k < |exts| ==> s[2 * k] == SetUpExtension(exts[k]) && s[2 * k + 1] == GenerateHouse(exts[k])
  {
    if |exts| > 0 {
      SetUpThenGenerate(exts[..|exts| - 1]);
    }
  }

  /// A house or an extension, as far as its extensions go.
  class Building {
    /// Extension, as opposed to FullHouse.
    const isExtension: bool
    /// FullHouse.extensions.
    var extensions: seq<HouseExtension>
    /// Whether extensionsObj is set.
    var hasExtensionsObj: bool
    /// What has been set up and generated so far.
    var steps: seq<Step>

    constructor (ext: bool)
      ensures isExtension == ext && extensions == [] && !hasExtensionsObj && steps == []
    {
      isExtension, extensions, hasExtensionsObj, steps := ext, [], false, [];
    }

    /// The EX getter: an extension always answers a new empty list.
    function EX(): seq<HouseExtension>
      reads this
    {
      if isExtension then [] else extensions
    }

    /// The EX setter: an extension discards what it is given.
    method SetEX(v: seq<HouseExtension>)
      modifies this
      ensures EX() == (if isExtension then [] else v)
      ensures isExtension ==> unchanged(this)
      ensures hasExtensionsObj == old(hasExtensionsObj) && steps == old(steps)
    {
      if !isExtension {
        extensions := v;
      }
    }

    function Nudge(): real
      reads this
    {
      if isExtension then ExtensionNudge else HouseNudge
    }

    /// CreateExtensions: a house sets up the extensions root, then sets up
    /// and generates each extension; an extension does nothing.
    method CreateExtensions()
      modifies this
      ensures isExtension ==> unchanged(this)
      ensures !isExtension ==> hasExtensionsObj && steps == old(steps) + [SetUpExtensions] + SetUpsAndGenerations(EX())
      ensures extensions == old(extensions)
    {
      if isExtension {
        return;
      }
      hasExtensionsObj := true;
      steps := steps + [SetUpExtensions];
      ghost var start := steps;
      var exts := EX();
      var k := 0;
      while k < |exts|
        invariant 0 <= k <= |exts|
        invariant extensions == old(extensions) && hasExtensionsObj
        invariant steps == start + SetUpsAndGenerations(exts[..k])
      {
        assert exts[..k + 1][..k] == exts[..k];
        steps := steps + [SetUpExtension(exts[k]), GenerateHouse(exts[k])];
        k := k + 1;
      }
      assert exts[..|exts|] == exts;
    }

    /// RemakeExtensions: a house without its extensions root sets it up and
    /// sets up each extension (without generating it); otherwise nothing.
    method RemakeExtensions()
      modifies this
      ensures isExtension || old(hasExtensionsObj) ==> unchanged(this)
      ensures !isExtension && !old(hasExtensionsObj) ==>
        hasExtensionsObj && steps == old(steps) + [SetUpExtensions] + SetUps(EX())
      ensures extensions == old(extensions)
    {
      if isExtension || hasExtensionsObj {
        return;
      }
      hasExtensionsObj := true;
      steps := steps + [SetUpExtensions];
      ghost var start := steps;
      var exts := EX();
      var k := 0;
      while k < |exts|
        invariant 0 <= k <= |exts|
        invariant extensions == old(extensions) && hasExtensionsObj
        invariant steps == start + SetUps(exts[..k])
      {
        assert exts[..k + 1][..k] == exts[..k];
        steps := steps + [SetUpExtension(exts[k])];
        k := k + 1;
      }
      assert exts[..|exts|] == exts;
    }
  }
}
