// The placement arithmetic of CustomizableHouse: wall measures, the offsets
// that turn a normalised placement in [-1, 1] into a position on a wall, the
// repetition counts of the generators, and the lemmas that say where the
// generated parts end up.
//
// Positions are local to the object the source parents them to: a wall's
// openings are relative to the wall's centre (its base is at -height/2), a
// beam is relative to its ceiling, a porch column to the porch's column row.

module Layout {
  import opened HouseTypes

  /// A solid the generators create: its size, the position of its centre and
  /// its rotation about the y axis in quarter turns.
  datatype Box = Box(size: Vec3, center: Vec3, turns: int)
  {
    /// Half of the box's extent along the world x axis (a quarter turn swaps x and z).
    function HalfX(): real { if turns % 2 == 0 then size.x / 2.0 else size.z / 2.0 }

    /// Half of the box's extent along the world z axis.
    function HalfZ(): real { if turns % 2 == 0 then size.z / 2.0 else size.x / 2.0 }
  }

  // ---------------------------------------------------------------- walls

  /// The length of the wall facing a rotation of `turns` quarter turns:
  /// a rotation that is a multiple of 180 degrees faces along the width.
  function FacingLength(d: Dims, turns: int): real
  {
    if turns % 2 == 0 then d.width else d.depth
  }

  /// The gable height of the walls facing a rotation: front and back walls
  /// carry the front gable, the side walls the side gable.
  function FacingGableHeight(d: Dims, turns: int): real
  {
    if turns % 2 == 0 then d.frontGableHeight else d.sideGableHeight
  }

  function WallLength(d: Dims, w: Wall): real
  {
    match w
    case Front => d.width
    case Back => d.width
    case _ => d.depth
  }

  function WallDepth(d: Dims, w: Wall): real
  {
    match w
    case Front => d.depth / 2.0
    case Back => d.depth / 2.0
    case _ => d.width / 2.0
  }

  /// The enum-based measures agree with the rotation-based ones the wall loop
  /// uses: a wall's length is the house's extent along it, the same for the
  /// opposite wall, and its depth is half of the other extent.
  lemma WallMeasures(d: Dims, w: Wall)
    ensures WallLength(d, w) == FacingLength(d, w.Turns())
    ensures WallLength(d, w.Opposite()) == WallLength(d, w)
    ensures WallDepth(d, w.Opposite()) == WallDepth(d, w)
    ensures 2.0 * WallDepth(d, w) == FacingLength(d, w.Turns() + 1)
    ensures WallLength(d, w) + 2.0 * WallDepth(d, w) == d.width + d.depth
  {
  }

  function InnerWidth(d: Dims, ao: AdvancedOptions): real
  {
    d.width - (ao.foundationSeparation + ao.wallThickness) * 2.0
  }

  function InnerDepth(d: Dims, ao: AdvancedOptions): real
  {
    d.depth - (ao.foundationSeparation + ao.wallThickness) * 2.0
  }

  /// The box of an exterior wall, before its gable and its cuts.
  function ExteriorWallBox(d: Dims, ao: AdvancedOptions, w: Wall): Box
  {
    var y := (d.height + ao.foundationHeight) / 2.0;
    var fs, wt := ao.foundationSeparation, ao.wallThickness;
    match w
    case Front => Box(Vec3(d.width - fs * 2.0, d.height, wt), Vec3(0.0, y, -d.depth / 2.0 + (fs + wt / 2.0)), 0)
    case Back => Box(Vec3(d.width - fs * 2.0, d.height, wt), Vec3(0.0, y, d.depth / 2.0 - (fs + wt / 2.0)), 2)
    case Right => Box(Vec3(d.depth - (fs + wt) * 2.0, d.height, wt), Vec3(d.width / 2.0 - (fs + wt / 2.0), y, 0.0), 3)
    case Left => Box(Vec3(d.depth - (fs + wt) * 2.0, d.height, wt), Vec3(-d.width / 2.0 + (fs + wt / 2.0), y, 0.0), 1)
  }

  /// The four exterior walls close the house: each wall's outer face lies
  /// foundationSeparation inside the foundation's edge, its inner face bounds
  /// the inner width and depth, and the front and back walls run the full
  /// usable width while the side walls fit exactly between them.
  lemma ExteriorWallsEnclose(d: Dims, ao: AdvancedOptions, w: Wall)
    ensures var b := ExteriorWallBox(d, ao, w);
      b.turns == w.Turns() &&
      match w
      case Front =>
        b.center.z - b.HalfZ() == -(d.depth / 2.0 - ao.foundationSeparation) &&
        b.center.z + b.HalfZ() == -InnerDepth(d, ao) / 2.0 &&
        b.center.x - b.HalfX() == -(d.width / 2.0 - ao.foundationSeparation) &&
        b.center.x + b.HalfX() == d.width / 2.0 - ao.foundationSeparation
      case Back =>
        b.center.z + b.HalfZ() == d.depth / 2.0 - ao.foundationSeparation &&
        b.center.z - b.HalfZ() == InnerDepth(d, ao) / 2.0 &&
        b.center.x - b.HalfX() == -(d.width / 2.0 - ao.foundationSeparation) &&
        b.center.x + b.HalfX() == d.width / 2.0 - ao.foundationSeparation
      case Right =>
        b.center.x + b.HalfX() == d.width / 2.0 - ao.foundationSeparation &&
        b.center.x - b.HalfX() == InnerWidth(d, ao) / 2.0 &&
        b.center.z - b.HalfZ() == -InnerDepth(d, ao) / 2.0 &&
        b.center.z + b.HalfZ() == InnerDepth(d, ao) / 2.0
      case Left =>
        b.center.x - b.HalfX() == -(d.width / 2.0 - ao.foundationSeparation) &&
        b.center.x + b.HalfX() == -InnerWidth(d, ao) / 2.0 &&
        b.center.z - b.HalfZ() == -InnerDepth(d, ao) / 2.0 &&
        b.center.z + b.HalfZ() == InnerDepth(d, ao) / 2.0
  {
  }

  /// The length the openings of a wall turned by `turns` are spread over:
  /// the facing length, less both wall thicknesses on the side walls, which
  /// sit between the front and back walls.
  function OpeningWallLength(d: Dims, ao: AdvancedOptions, turns: int): real
  {
    FacingLength(d, turns) - (if turns % 2 == 0 then 0.0 else ao.wallThickness * 2.0)
  }

  /// The ends of a wall turned by `turns` that the wall pass merges faces on
  /// (at plus and minus this x, in the wall's own coordinates).
  function WallEndSide(d: Dims, ao: AdvancedOptions, turns: int): real
  {
    if turns % 2 == 0 then d.width / 2.0 - ao.foundationSeparation
    else d.depth / 2.0 - ao.foundationSeparation - ao.wallThickness
  }

  /// The opening length less both foundation margins is the wall box's own
  /// length, and the merge sides are exactly the box's faces (z at plus and
  /// minus half the wall thickness) and ends.
  lemma WallPassMatchesWallBox(d: Dims, ao: AdvancedOptions, w: Wall)
    ensures OpeningWallLength(d, ao, w.Turns()) - 2.0 * ao.foundationSeparation == ExteriorWallBox(d, ao, w).size.x
    ensures WallEndSide(d, ao, w.Turns()) == ExteriorWallBox(d, ao, w).size.x / 2.0
    ensures ao.wallThickness / 2.0 == ExteriorWallBox(d, ao, w).size.z / 2.0
  {
  }

  // ------------------------------------------------------------ openings

  /// An opening of width `width` slid along a wall by a placement: the centre
  /// travels over the wall's length less both foundation margins and the
  /// opening's own width.
  function SlideOffset(wallLength: real, fs: real, width: real, placement: real): real
  {
    ((wallLength - (fs * 2.0 + width)) / 2.0) * placement
  }

  /// Placement 0 centres the opening, the offset is odd in the placement, a
  /// placement in [-1, 1] keeps the opening inside the usable length of the
  /// wall, and placement 1 (or -1) puts it flush with that length's end.
  lemma SlideWithinWall(wallLength: real, fs: real, width: real, placement: real)
    requires -1.0 <= placement <= 1.0
    requires fs * 2.0 + width <= wallLength
    ensures SlideOffset(wallLength, fs, width, 0.0) == 0.0
    ensures SlideOffset(wallLength, fs, width, -placement) == -SlideOffset(wallLength, fs, width, placement)
    ensures Abs(SlideOffset(wallLength, fs, width, placement)) + width / 2.0 <= wallLength / 2.0 - fs
    ensures placement == 1.0 ==> SlideOffset(wallLength, fs, width, placement) + width / 2.0 == wallLength / 2.0 - fs
    ensures placement == -1.0 ==> SlideOffset(wallLength, fs, width, placement) - width / 2.0 == -(wallLength / 2.0 - fs)
  {
    var a := (wallLength - (fs * 2.0 + width)) / 2.0;
    assert a >= 0.0;
    assert SlideOffset(wallLength, fs, width, placement) == a * placement;
    assert a + width / 2.0 == wallLength / 2.0 - fs;
    if placement >= 0.0 {
      assert 0.0 <= a * placement <= a * 1.0;
    } else {
      assert a * -1.0 <= a * placement <= 0.0;
    }
  }

  /// The position of an outer door's cutter on its wall: slid by the door's
  /// placement with the door and its frame as the opening, resting on the
  /// wall's base.
  function DoorOffset(d: Dims, ao: AdvancedOptions, wallLength: real, placement: real): (r: Vec3)
    ensures r.y - ao.doorDimensions.y / 2.0 == -d.height / 2.0
    ensures r.z == 0.0
    ensures r.x == SlideOffset(wallLength, ao.foundationSeparation, ao.doorDimensions.x + ao.frameWidth, placement)
  {
    var doorArea := wallLength - (ao.foundationSeparation * 2.0 + ao.doorDimensions.x + ao.frameWidth);
    Vec3((doorArea / 2.0) * placement, ao.doorDimensions.y / 2.0 - d.height / 2.0, 0.0)
  }

  /// The window type a window is drawn with: its own override or the house's.
  function EffectiveWindowType(w: WindowSpec, od: OuterStyle): WindowType
  {
    if !w.overrideDetails then od.windowType else w.typeOverride
  }

  function EffectiveFrame(w: WindowSpec, od: OuterStyle): FrameType
  {
    if !w.overrideDetails then od.windowFrame else w.frameOverride
  }

  /// Whether the width of a window reserves room for shutters.
  predicate ReservesShutters(w: WindowSpec, od: OuterStyle)
  {
    ((!w.overrideDetails && od.ShowShutter()) || w.ShowShutter()) &&
    (if w.ShowShutter() then w.shutterOverride else od.windowShutter) != NoShutter
  }

  /// The width reserved beside a window's pane when spreading windows along a wall.
  function WindowReservedWidth(w: WindowSpec, od: OuterStyle, ao: AdvancedOptions): real
  {
    var frame := match EffectiveFrame(w, od)
      case Outline => ao.frameWidth
      case OutlineWithInner => ao.frameWidth
      case _ => 0.0;
    var shutters := if ReservesShutters(w, od) then ao.shutterWidth * (ao.windowDimensions.x + 0.1) * 2.0 else 0.0;
    0.1 + frame + shutters
  }

  /// Whether the window details draw shutters (the choice CreateWindowDetails makes).
  predicate DrawsShutters(w: WindowSpec, od: OuterStyle)
  {
    var sT := if !w.overrideDetails then od.windowShutter else w.shutterOverride;
    ((!w.overrideDetails && od.ShowShutter()) || w.ShowShutter()) && sT != NoShutter
  }

  /// The width the wall pass reserves for shutters is there exactly when the
  /// window's details draw shutters, although the two choose the shutter type
  /// by different tests; and outline frames always reserve a frame's width.
  lemma ReservedWidthMatchesDetails(w: WindowSpec, od: OuterStyle, ao: AdvancedOptions)
    requires ao.shutterWidth > 0.0 && ao.windowDimensions.x >= 0.0 && ao.frameWidth >= 0.0
    ensures ReservesShutters(w, od) <==> DrawsShutters(w, od)
    ensures WindowReservedWidth(w, od, ao) > 0.1 + (if EffectiveFrame(w, od) in {Outline, OutlineWithInner} then ao.frameWidth else 0.0)
            <==> DrawsShutters(w, od)
  {
  }

  /// The position of a window's cutter: slid along the wall with the pane and
  /// its reserved width as the opening, raised by whole floors.
  function WindowOffset(d: Dims, ao: AdvancedOptions, wallLength: real, w: WindowSpec, od: OuterStyle,
                        placement: real): (r: Vec3)
    requires d.floors >= 1
    ensures r.x == SlideOffset(wallLength, ao.foundationSeparation,
                               ao.windowDimensions.x + WindowReservedWidth(w, od, ao), placement)
    ensures r.z == 0.0
  {
    var windowArea := wallLength - (ao.foundationSeparation * 2.0 + ao.windowDimensions.x + WindowReservedWidth(w, od, ao));
    Vec3((windowArea / 2.0) * placement,
         ao.windowHeight + (w.floor - 1) as real * d.FloorHeight() +
         (ao.windowDimensions.y + ao.frameWidth - d.height) / 2.0,
         0.0)
  }

  /// A window's sill sits windowHeight plus half a frame above the wall's
  /// base on the first floor, and one floor height higher per floor.
  lemma WindowSill(d: Dims, ao: AdvancedOptions, wallLength: real, w: WindowSpec, od: OuterStyle, placement: real)
    requires d.floors >= 1
    ensures WindowOffset(d, ao, wallLength, w, od, placement).y - ao.windowDimensions.y / 2.0 + d.height / 2.0
            == ao.windowHeight + ao.frameWidth / 2.0 + (w.floor - 1) as real * d.FloorHeight()
    ensures WindowOffset(d, ao, wallLength, w.(floor := w.floor + 1), od, placement).y
            == WindowOffset(d, ao, wallLength, w, od, placement).y + d.FloorHeight()
  {
  }

  /// The position of a gable window's cutter: slid along the wall with the
  /// window's diameter as the opening, and raised by its vertical placement
  /// between the top of the wall and the ridge of the gable.
  function GableWindowOffset(d: Dims, ao: AdvancedOptions, wallLength: real, gableHeight: real,
                             gw: GableWindowSpec): Vec3
  {
    Vec3((((wallLength - ao.gableWindowDiameter) / 2.0) - ao.foundationSeparation) * gw.placementX,
         ((d.height + gableHeight + gableHeight * gw.placementY) / 2.0) - ao.gableWindowDiameter,
         -0.5)
  }

  /// A gable window slides like any opening of its diameter, and one
  /// diameter above its centre lies the top of the wall at placement -1 and
  /// the ridge at placement 1.
  lemma GableWindowSpan(d: Dims, ao: AdvancedOptions, wallLength: real, gableHeight: real, gw: GableWindowSpec)
    ensures GableWindowOffset(d, ao, wallLength, gableHeight, gw).x
            == SlideOffset(wallLength, ao.foundationSeparation, ao.gableWindowDiameter, gw.placementX)
    ensures gw.placementY == -1.0 ==>
      GableWindowOffset(d, ao, wallLength, gableHeight, gw).y + ao.gableWindowDiameter == d.height / 2.0
    ensures gw.placementY == 1.0 ==>
      GableWindowOffset(d, ao, wallLength, gableHeight, gw).y + ao.gableWindowDiameter == d.height / 2.0 + gableHeight
  {
  }

  /// The wall pass can indent store windows only when the indent is thinner
  /// than the wall.
  predicate CanIndent(ao: AdvancedOptions) { ao.wallThickness > ao.indentThickness }

  /// The position of a store window's cutter before any indent.
  function StoreWindowOffset(d: Dims, ao: AdvancedOptions, wallLength: real, placement: real): (r: Vec3)
    ensures r.x == SlideOffset(wallLength, ao.foundationSeparation, ao.storeWindowDimensions.x + 0.1, placement)
  {
    var windowArea := wallLength - (ao.foundationSeparation * 2.0 + ao.storeWindowDimensions.x + 0.1);
    Vec3((windowArea / 2.0) * placement,
         ao.storeWindowHeight + (ao.storeWindowDimensions.y + ao.frameWidth - d.height) / 2.0,
         0.0)
  }

  /// The size of the cutter that indents a store window.
  function StoreIndentSize(ao: AdvancedOptions): Vec3
  {
    Vec3(ao.storeWindowDimensions.x,
         ao.storeWindowDimensions.y + ao.storeWindowHeight + ao.frameWidth / 2.0 + ao.frameWidth / 4.0,
         ao.indentThickness)
  }

  /// Where the indent cutter goes for a store window at `at`.
  function StoreIndentOffset(ao: AdvancedOptions, at: Vec3, nudge: real): Vec3
  {
    Vec3(at.x,
         at.y - (ao.storeWindowHeight + ao.frameWidth / 2.0 - ao.frameWidth / 4.0) / 2.0,
         at.z - (((ao.wallThickness - ao.indentThickness) / 2.0) + nudge))
  }

  /// The indent of a store window reaches from the base of the wall to a
  /// quarter frame above the window, opens nudge beyond the wall's outer face
  /// and, when the wall can be indented and nudge is below the wall thickness
  /// left, stops inside the wall.
  lemma StoreIndentSpan(d: Dims, ao: AdvancedOptions, wallLength: real, placement: real, nudge: real)
    ensures var at := StoreWindowOffset(d, ao, wallLength, placement);
      var c := StoreIndentOffset(ao, at, nudge);
      var s := StoreIndentSize(ao);
      c.y - s.y / 2.0 == -d.height / 2.0 &&
      c.y + s.y / 2.0 == at.y + ao.storeWindowDimensions.y / 2.0 + ao.frameWidth / 4.0 &&
      c.z - s.z / 2.0 == -ao.wallThickness / 2.0 - nudge &&
      (CanIndent(ao) && nudge >= 0.0 ==> c.z + s.z / 2.0 < ao.wallThickness / 2.0)
  {
  }

  // ------------------------------------------------------ awnings, balconets

  function AwningRange(a: AwningType): real
  {
    match a
    case SmallAwning => 1.97
    case LargeAwning => 3.0
    case _ => 0.0
  }

  /// Where an awning goes relative to its window or door; none for NoAwning.
  function AwningOffset(ao: AdvancedOptions, a: AwningType, placement: real): Option<Vec3>
  {
    var p := if a == SingleAwning then 0.0 else placement;
    if a == NoAwning then None
    else Some(Vec3(p * AwningRange(a), 0.85 + ao.awningYOffset, (-0.6 * ao.awningLength) - ao.wallThickness / 2.0))
  }

  /// An awning is created for every type but none; the single awning stays
  /// centred whatever its placement; the others slide over their range, so a
  /// large awning at placement 0.5 sits 1.5 to the side.
  lemma AwningPlacement(ao: AdvancedOptions, a: AwningType, placement: real)
    ensures AwningOffset(ao, a, placement).Some? <==> a != NoAwning
    ensures a == SingleAwning ==> AwningOffset(ao, a, placement).value.x == 0.0
    ensures a.ShowsPlacement() ==> AwningOffset(ao, a, placement).value.x == placement * AwningRange(a)
    ensures AwningOffset(ao, LargeAwning, 0.5).value.x == 1.5
    ensures a.ShowsPlacement() && -1.0 <= placement <= 1.0 ==> Abs(AwningOffset(ao, a, placement).value.x) <= AwningRange(a)
  {
    if a.ShowsPlacement() && -1.0 <= placement <= 1.0 {
      var r := AwningRange(a);
      if placement >= 0.0 { assert placement * r <= 1.0 * r; } else { assert placement * r >= -1.0 * r; }
    }
  }

  /// Where a balconet goes relative to its window; none for NoBalconet.
  /// Only the small balconet slides (over 1.6); the fancy one sits higher.
  function BalconetOffset(ao: AdvancedOptions, b: BalconetType, placement: real): Option<Vec3>
  {
    var z := (-0.24 * ao.windowDimensions.x) - ao.wallThickness / 2.0;
    match b
    case NoBalconet => None
    case SingleBalconet => Some(Vec3(0.0 * 0.0, -0.73 + ao.balconetYOffset, z))
    case FancyBalconet => Some(Vec3(0.0 * 0.0, -0.55 + ao.balconetYOffset, z))
    case SmallBalconet => Some(Vec3(placement * 1.6, -0.73 + ao.balconetYOffset, z))
  }

  lemma BalconetPlacement(ao: AdvancedOptions, b: BalconetType, placement: real)
    ensures BalconetOffset(ao, b, placement).Some? <==> b != NoBalconet
    ensures b != NoBalconet && BalconetOffset(ao, b, placement).value.x != 0.0 ==> b == SmallBalconet
    ensures b == SmallBalconet && -1.0 <= placement <= 1.0 ==> Abs(BalconetOffset(ao, b, placement).value.x) <= 1.6
    ensures BalconetOffset(ao, FancyBalconet, placement).value.y == BalconetOffset(ao, SingleBalconet, placement).value.y + 0.18
  {
  }

  // ---------------------------------------------------------------- frames

  /// Which category list a frame piece is added to.
  datatype FrameList = OuterFrames | InnerFrames | OuterInnerFrames

  datatype FramePiece = FramePiece(list: FrameList, name: string, box: Box)

  /// One ring of a frame (top, right, left and optionally bottom), pushed
  /// out by fDims.z / divider.
  function FrameRing(fDims: Vec3, bottom: bool, list: FrameList, divider: real, n: string,
                     ao: AdvancedOptions, nudge: real): seq<FramePiece>
    requires divider != 0.0
  {
    var z := fDims.z / divider;
    [FramePiece(list, "Top" + n, Box(Vec3(fDims.x + ao.frameWidth, ao.frameWidth, fDims.z), Vec3(0.0, fDims.y / 2.0, z), 0)),
     FramePiece(list, "Right" + n, Box(Vec3(ao.frameWidth, fDims.y, fDims.z - nudge), Vec3(fDims.x / 2.0, 0.0, z), 0)),
     FramePiece(list, "Left" + n, Box(Vec3(ao.frameWidth, fDims.y, fDims.z - nudge), Vec3(fDims.x / -2.0, 0.0, z), 0))] +
    (if bottom then [FramePiece(list, "Bottom" + n, Box(Vec3(fDims.x + ao.frameWidth, ao.frameWidth, fDims.z),
                                                         Vec3(0.0, fDims.y / -2.0, z), 0))] else [])
  }

  /// The pieces of a frame around an opening of size fDims: an outer ring in
  /// front of the wall and, with hasInner, an inner ring behind it.
  function Frame(fDims: Vec3, bottom: bool, hasInner: bool, isInner: bool,
                 ao: AdvancedOptions, nudge: real): seq<FramePiece>
  {
    FrameRing(fDims, bottom, if isInner then InnerFrames else OuterFrames, -2.0, "Outer", ao, nudge) +
    (if hasInner then FrameRing(fDims, bottom, OuterInnerFrames, 2.0, "Inner", ao, nudge) else [])
  }

  /// A frame has three or four pieces per ring; the left and right posts
  /// mirror each other; the inner ring is the outer ring mirrored through the
  /// wall's mid-plane (piece k of the inner ring mirrors piece k of the
  /// outer ring) and goes to the outer-inner list.
  lemma FrameShape(fDims: Vec3, bottom: bool, hasInner: bool, isInner: bool, ao: AdvancedOptions, nudge: real, k: int)
    ensures var f := Frame(fDims, bottom, hasInner, isInner, ao, nudge);
      var ring := if bottom then 4 else 3;
      |f| == (if hasInner then 2 * ring else ring) &&
      f[1].box.center.x == -f[2].box.center.x &&
      f[1].box.size == f[2].box.size &&
      f[0].box.center.z == -fDims.z / 2.0 &&
      f[0].list == (if isInner then InnerFrames else OuterFrames) &&
      (hasInner && 0 <= k < ring ==>
         f[ring + k].list == OuterInnerFrames &&
         f[ring + k].box.size == f[k].box.size &&
         f[ring + k].box.center == f[k].box.center.(z := -f[k].box.center.z))
  {
    var outer := FrameRing(fDims, bottom, if isInner then InnerFrames else OuterFrames, -2.0, "Outer", ao, nudge);
    var ring := if bottom then 4 else 3;
    assert |outer| == ring;
    if hasInner && 0 <= k < ring {
      var inner := FrameRing(fDims, bottom, OuterInnerFrames, 2.0, "Inner", ao, nudge);
      var f := Frame(fDims, bottom, hasInner, isInner, ao, nudge);
      assert f[ring + k] == inner[k] && f[k] == outer[k];
    }
  }

  // --------------------------------------------------- ceilings and rafters

  /// The height of the ceiling above floor i (1-based), within the ceilings' parent.
  function CeilingY(d: Dims, ao: AdvancedOptions, i: int, nudge: real): real
    requires d.floors >= 1
  {
    d.FloorHeight() * i as real + (ao.foundationHeight - ao.ceilingThickness) / 2.0 - nudge
  }

  /// Consecutive ceilings are one floor height apart and the top one lies
  /// at the height of the house.
  lemma CeilingSpacing(d: Dims, ao: AdvancedOptions, i: int, nudge: real)
    requires d.floors >= 1
    ensures CeilingY(d, ao, i + 1, nudge) - CeilingY(d, ao, i, nudge) == d.FloorHeight()
    ensures CeilingY(d, ao, d.floors, nudge) == d.height + (ao.foundationHeight - ao.ceilingThickness) / 2.0 - nudge
  {
    assert d.FloorHeight() * d.floors as real == d.height;
  }

  /// The box of the ceiling above floor i.
  function CeilingBox(d: Dims, ao: AdvancedOptions, i: int, nudge: real): Box
    requires d.floors >= 1
  {
    Box(Vec3(InnerWidth(d, ao) + ao.wallThickness * 2.0 - nudge, ao.ceilingThickness,
             InnerDepth(d, ao) + ao.wallThickness * 2.0 - nudge),
        Vec3(0.0, CeilingY(d, ao, i, nudge), 0.0), 0)
  }

  /// The inner extent the rafters are spread across: the longer side of the house.
  function RafterSpan(d: Dims, ao: AdvancedOptions): real
  {
    if d.width > d.depth then InnerWidth(d, ao) else InnerDepth(d, ao)
  }

  /// Mathf.FloorToInt(distance / 3) - 1: one middle beam per three units, less one.
  function MiddleBeamCount(d: Dims, ao: AdvancedOptions): int
  {
    (RafterSpan(d, ao) / 3.0).Floor - 1
  }

  /// The offset of middle beam k across the span: the beams divide it into
  /// MiddleBeamCount + 1 equal gaps.
  function MiddleBeamOffset(d: Dims, ao: AdvancedOptions, k: int): real
    requires MiddleBeamCount(d, ao) >= 1
  {
    var distance := RafterSpan(d, ao);
    (k + 1) as real * (distance / (MiddleBeamCount(d, ao) + 1) as real) - distance / 2.0
  }

  /// The middle beams are evenly spaced, lie strictly inside the span, and
  /// are symmetric about its centre.
  lemma MiddleBeamsSpread(d: Dims, ao: AdvancedOptions, k: int)
    requires MiddleBeamCount(d, ao) >= 1 && 0 <= k < MiddleBeamCount(d, ao)
    ensures var n := MiddleBeamCount(d, ao);
      var distance := RafterSpan(d, ao);
      MiddleBeamOffset(d, ao, k + 1) - MiddleBeamOffset(d, ao, k) == distance / (n + 1) as real &&
      -distance / 2.0 < MiddleBeamOffset(d, ao, k) < distance / 2.0 &&
      MiddleBeamOffset(d, ao, n - 1 - k) == -MiddleBeamOffset(d, ao, k)
  {
    var n := MiddleBeamCount(d, ao);
    var distance := RafterSpan(d, ao);
    assert distance / 3.0 >= 2.0;
    var gap := distance / (n + 1) as real;
    assert gap * (n + 1) as real == distance;
    assert gap > 0.0;
    assert (k + 1) as real * gap > 0.0;
    assert (k + 1) as real * gap < (n + 1) as real * gap;
    calc {
      MiddleBeamOffset(d, ao, n - 1 - k) + MiddleBeamOffset(d, ao, k);
      (n - k) as real * gap + (k + 1) as real * gap - distance;
      (n + 1) as real * gap - distance;
      0.0;
    }
  }

  /// The beam boxes of one ceiling: the middle beams across the longer side,
  /// then the two connecting beams along its edges.
  function MiddleBeam(d: Dims, ao: AdvancedOptions, at: real): Box
  {
    var y := -((ao.rafterThickness + ao.ceilingThickness) / 2.0);
    if d.width > d.depth then Box(Vec3(ao.rafterWidth, ao.rafterThickness, InnerDepth(d, ao)), Vec3(at, y, 0.0), 0)
    else Box(Vec3(InnerWidth(d, ao), ao.rafterThickness, ao.rafterWidth), Vec3(0.0, y, at), 0)
  }

  function EdgeBeams(d: Dims, ao: AdvancedOptions): seq<Box>
  {
    var y := -((ao.sideRafterThickness + ao.ceilingThickness) / 2.0);
    if d.width > d.depth then
      [Box(Vec3(InnerWidth(d, ao), ao.sideRafterThickness, ao.sideRafterWidth), Vec3(0.0, y, (InnerDepth(d, ao) - ao.sideRafterWidth) / 2.0), 0),
       Box(Vec3(InnerWidth(d, ao), ao.sideRafterThickness, ao.sideRafterWidth), Vec3(0.0, y, (InnerDepth(d, ao) - ao.sideRafterWidth) / -2.0), 0)]
    else
      [Box(Vec3(ao.sideRafterWidth, ao.sideRafterThickness, InnerDepth(d, ao)), Vec3((InnerWidth(d, ao) - ao.sideRafterWidth) / 2.0, y, 0.0), 0),
       Box(Vec3(ao.sideRafterWidth, ao.sideRafterThickness, InnerDepth(d, ao)), Vec3((InnerWidth(d, ao) - ao.sideRafterWidth) / -2.0, y, 0.0), 0)]
  }

  /// The two connecting beams lie flush against opposite inner walls.
  lemma EdgeBeamsFlush(d: Dims, ao: AdvancedOptions)
    ensures var e := EdgeBeams(d, ao);
      |e| == 2 &&
      if d.width > d.depth then
        e[0].center.z + e[0].size.z / 2.0 == InnerDepth(d, ao) / 2.0 &&
        e[1].center.z - e[1].size.z / 2.0 == -InnerDepth(d, ao) / 2.0
      else
        e[0].center.x + e[0].size.x / 2.0 == InnerWidth(d, ao) / 2.0 &&
        e[1].center.x - e[1].size.x / 2.0 == -InnerWidth(d, ao) / 2.0
  {
  }

  // ---------------------------------------------------------------- rounding

  /// Mathf.RoundToInt: the nearest integer, ties to the even one.
  function RoundToInt(r: real): (n: int)
    ensures Abs(r - n as real) <= 0.5
    ensures Abs(r - n as real) == 0.5 ==> n % 2 == 0
  {
    var f := r.Floor;
    var frac := r - f as real;
    if frac < 0.5 then f
    else if frac > 0.5 then f + 1
    else if f % 2 == 0 then f else f + 1
  }

  // ---------------------------------------------------------------- porches

  /// The usable length of the wall a porch stands on, and the porch's own length.
  function PorchWallLength(d: Dims, ao: AdvancedOptions, p: PorchSpec): real
  {
    FacingLength(d, p.wall.Turns()) - 2.0 * ao.foundationSeparation
  }

  function PorchLength(d: Dims, ao: AdvancedOptions, p: PorchSpec): real
  {
    PorchWallLength(d, ao, p) * p.length
  }

  /// The offset of the porch's centre along its wall.
  function PorchOffsetX(d: Dims, ao: AdvancedOptions, p: PorchSpec): real
  {
    (PorchWallLength(d, ao, p) - PorchLength(d, ao, p)) * (p.placement / 2.0)
  }

  /// A porch no longer than its wall stays on the wall's usable length and
  /// is flush with its end at placement 1 or -1.
  lemma PorchOnWall(d: Dims, ao: AdvancedOptions, p: PorchSpec)
    requires 0.0 <= p.length <= 1.0 && -1.0 <= p.placement <= 1.0
    requires PorchWallLength(d, ao, p) >= 0.0
    ensures var l, x, half := PorchWallLength(d, ao, p), PorchOffsetX(d, ao, p), PorchLength(d, ao, p) / 2.0;
      Abs(x) + half <= l / 2.0 &&
      (p.placement == 1.0 ==> x + half == l / 2.0) &&
      (p.placement == -1.0 ==> x - half == -l / 2.0)
  {
    var l := PorchWallLength(d, ao, p);
    var rest := l - PorchLength(d, ao, p);
    assert rest == l * (1.0 - p.length) >= 0.0;
    assert PorchOffsetX(d, ao, p) == SlideOffset(l, 0.0, PorchLength(d, ao, p), p.placement);
    SlideWithinWall(l, 0.0, PorchLength(d, ao, p), p.placement);
  }

  /// The flights of stairs a porch gets: the middle one when asked for, and
  /// a side one when asked for unless that side's corner is closed.
  datatype PorchFlights = PorchFlights(middle: bool, left: bool, right: bool)

  function PorchStairFlights(p: PorchSpec): (f: PorchFlights)
    ensures f.middle == p.middleStairs
    ensures f.left ==> p.leftStairs
    ensures f.right ==> p.rightStairs
    ensures p.leftCorner && p.placement == -1.0 ==> !f.left
    ensures p.rightCorner && p.placement == 1.0 ==> !f.right
  {
    PorchFlights(p.middleStairs,
                 p.leftStairs && !(p.LeftCornerEnabled() && p.leftCorner),
                 p.rightStairs && !(p.RightCornerEnabled() && p.rightCorner))
  }

  /// The number of steps of a porch's stairs (and of their step boards).
  function PorchStepCount(ao: AdvancedOptions): int
  {
    RoundToInt(ao.foundationHeight / 0.25)
  }

  /// With the default foundation height a porch's stairs have two steps.
  lemma DefaultPorchSteps()
    ensures PorchStepCount(DefaultOptions()) == 2
  {
    assert DefaultOptions().foundationHeight / 0.25 == 2.0;
  }

  /// The column row of a porch: how far it reaches once closed corners extend
  /// it, how many columns it has and how far apart they are.
  datatype ColumnRow = ColumnRow(distance: real, count: int, spacing: real, stairs: bool, stairAt: real)

  const PorchColumnRadius := 0.25

  function CornerDistance(ao: AdvancedOptions, p: PorchSpec): real
  {
    p.width + ao.porchColumnXInset - ao.porchColumnZInset + PorchColumnRadius + ao.foundationSeparation
  }

  /// The shift of the column row: half a corner distance right for a closed
  /// right corner, half left for a closed left corner.
  function CornerShift(ao: AdvancedOptions, p: PorchSpec): real
  {
    (if p.RightCornerEnabled() && p.rightCorner then CornerDistance(ao, p) / 2.0 else 0.0) -
    (if p.LeftCornerEnabled() && p.leftCorner then CornerDistance(ao, p) / 2.0 else 0.0)
  }

  function CornerExtension(ao: AdvancedOptions, p: PorchSpec): real
  {
    (if p.RightCornerEnabled() && p.rightCorner then CornerDistance(ao, p) else 0.0) +
    (if p.LeftCornerEnabled() && p.leftCorner then CornerDistance(ao, p) else 0.0)
  }

  /// The offset of the middle stairs along the porch.
  function MiddleStairOffset(p: PorchSpec, pLength: real): real
  {
    ((pLength - (p.middleStairWidth * pLength)) * p.middleStairPlacement) / 2.0
  }

  /// Mathf.FloorToInt(distance / frequency) + 1 columns. With exactly one
  /// column the spacing would divide by zero, so that case is excluded.
  predicate ColumnRowDefined(ao: AdvancedOptions, p: PorchSpec, pLength: real)
  {
    ao.porchColumnFrequency != 0.0 &&
    ((pLength - ao.porchColumnXInset * 2.0 + CornerExtension(ao, p)) / ao.porchColumnFrequency).Floor != 0
  }

  function PorchColumnRow(ao: AdvancedOptions, p: PorchSpec, pLength: real): (r: ColumnRow)
    requires ColumnRowDefined(ao, p, pLength)
    ensures r.count != 1 && r.spacing * (r.count - 1) as real == r.distance
  {
    var distance := pLength - ao.porchColumnXInset * 2.0 + CornerExtension(ao, p);
    var count := (distance / ao.porchColumnFrequency).Floor + 1;
    ColumnRow(distance, count, distance / (count - 1) as real, p.middleStairs,
              MiddleStairOffset(p, pLength) - CornerShift(ao, p))
  }

  /// The offset of column i within the row.
  function ColumnX(r: ColumnRow, i: int): real
  {
    i as real * r.spacing - r.distance / 2.0
  }

  /// Column i is left out when the middle stairs lie strictly within 0.3
  /// spacings of it.
  predicate ColumnSkipped(r: ColumnRow, i: int)
  {
    r.stairs && r.stairAt > ((i as real - 0.3) * r.spacing) - r.distance / 2.0
             && r.stairAt < ((i as real + 0.3) * r.spacing) - r.distance / 2.0
  }

  /// The middle stairs lie in the gap between columns i - 1 and i.
  predicate StairsInGap(r: ColumnRow, i: int)
  {
    r.stairs && r.stairAt > ((i - 1) as real * r.spacing) - r.distance / 2.0
             && r.stairAt < (i as real * r.spacing) - r.distance / 2.0
  }

  /// The columns run from one end of the row to the other, symmetric about
  /// its centre; a column is skipped exactly when the middle stairs are on
  /// and closer to it than 0.3 spacings; and, the spacing being positive, at
  /// most one column is skipped.
  lemma ColumnRowLayout(r: ColumnRow, i: int, j: int)
    requires r.count >= 2 && r.spacing * (r.count - 1) as real == r.distance
    ensures ColumnX(r, 0) == -r.distance / 2.0 && ColumnX(r, r.count - 1) == r.distance / 2.0
    ensures ColumnX(r, i) + ColumnX(r, r.count - 1 - i) == 0.0
    ensures r.spacing > 0.0 ==> (ColumnSkipped(r, i) <==> r.stairs && Abs(r.stairAt - ColumnX(r, i)) < 0.3 * r.spacing)
    ensures r.spacing > 0.0 && ColumnSkipped(r, i) && ColumnSkipped(r, j) ==> i == j
  {
    assert ColumnX(r, i) + ColumnX(r, r.count - 1 - i) == (r.count - 1) as real * r.spacing - r.distance;
    if r.spacing > 0.0 && ColumnSkipped(r, i) && ColumnSkipped(r, j) && i != j {
      if i < j {
        SkippedColumnsApart(r, i, j);
      } else {
        SkippedColumnsApart(r, j, i);
      }
    }
  }

  /// Two columns lo < hi cannot both be skipped: the window around lo ends
  /// before the one around hi begins.
  lemma SkippedColumnsApart(r: ColumnRow, lo: int, hi: int)
    requires r.spacing > 0.0 && lo < hi
    ensures !(ColumnSkipped(r, lo) && ColumnSkipped(r, hi))
  {
    var gap := hi as real - lo as real - 0.6;
    assert gap >= 0.4;
    assert (hi as real - 0.3) * r.spacing == (lo as real + 0.3) * r.spacing + gap * r.spacing;
    assert gap * r.spacing > 0.0;
  }

  // ------------------------------------------------------------ inner walls

  /// The box of an inner wall: a slab across the inside of the house at a
  /// fraction `width` of it, slid by its placements.
  function InnerWallBox(d: Dims, ao: AdvancedOptions, w: InnerWallSpec, nudge: real): Box
    requires d.floors >= 1
  {
    var fh := d.FloorHeight();
    var wHeight := fh - ao.ceilingThickness;
    var y := fh * (w.floor - 1) as real + (ao.foundationHeight + fh - ao.ceilingThickness) / 2.0;
    var iw, id := InnerWidth(d, ao), InnerDepth(d, ao);
    if !w.rotate then
      Box(Vec3(iw * w.width, wHeight, ao.wallThickness),
          Vec3((iw - iw * w.width) * w.placementX / 2.0, y, (id + ao.wallThickness - nudge) * w.placementY / 2.0), 0)
    else
      Box(Vec3(ao.wallThickness, wHeight, id * w.width),
          Vec3((iw + ao.wallThickness - nudge) * w.placementX / 2.0, y, (id - id * w.width) * w.placementY / 2.0), 0)
  }

  /// An inner wall stands on the floor of its storey and reaches to nudge
  /// above the underside of the ceiling above it (the ceilings are lowered
  /// by nudge, so wall and ceiling overlap by that much).
  lemma InnerWallHeight(d: Dims, ao: AdvancedOptions, w: InnerWallSpec, nudge: real)
    requires d.floors >= 1
    ensures var b := InnerWallBox(d, ao, w, nudge);
      b.center.y - b.size.y / 2.0 == d.FloorHeight() * (w.floor - 1) as real + ao.foundationHeight / 2.0 &&
      b.center.y + b.size.y / 2.0 ==
        CeilingY(d, ao, w.floor, nudge) - ao.ceilingThickness / 2.0 + nudge
  {
    var fh := d.FloorHeight();
    assert fh * (w.floor - 1) as real + fh == fh * w.floor as real;
  }

  /// Along its length an inner wall of a fraction in [0, 1] at placements in
  /// [-1, 1] stays inside the house.
  lemma InnerWallAlong(d: Dims, ao: AdvancedOptions, w: InnerWallSpec, nudge: real)
    requires d.floors >= 1
    requires 0.0 <= w.width <= 1.0 && -1.0 <= w.placementX <= 1.0 && -1.0 <= w.placementY <= 1.0
    requires InnerWidth(d, ao) >= 0.0 && InnerDepth(d, ao) >= 0.0
    ensures var b := InnerWallBox(d, ao, w, nudge);
      if !w.rotate then Abs(b.center.x) + b.size.x / 2.0 <= InnerWidth(d, ao) / 2.0
      else Abs(b.center.z) + b.size.z / 2.0 <= InnerDepth(d, ao) / 2.0
  {
    var iw, id := InnerWidth(d, ao), InnerDepth(d, ao);
    var b := InnerWallBox(d, ao, w, nudge);
    if !w.rotate {
      assert b.center.x == SlideOffset(iw, 0.0, iw * w.width, w.placementX);
      assert b.size.x == iw * w.width <= iw * 1.0;
      SlideWithinWall(iw, 0.0, iw * w.width, w.placementX);
    } else {
      assert b.center.z == SlideOffset(id, 0.0, id * w.width, w.placementY);
      assert b.size.z == id * w.width <= id * 1.0;
      SlideWithinWall(id, 0.0, id * w.width, w.placementY);
    }
  }

  /// Where the door cutter of an inner wall goes, in the wall's coordinates
  /// (the cutter is turned a quarter turn along with a rotated wall).
  function InnerDoorOffset(d: Dims, ao: AdvancedOptions, w: InnerWallSpec, placement: real): Vec3
    requires d.floors >= 1
  {
    var y := (d.FloorHeight() - ao.ceilingThickness - ao.doorDimensions.y) / -2.0;
    if !w.rotate then Vec3(((InnerWidth(d, ao) * w.width) - ao.doorDimensions.x) * placement / 2.0, y, 0.0)
    else Vec3(0.0, y, ((InnerDepth(d, ao) * w.width) - ao.doorDimensions.x) * placement / 2.0)
  }

  /// An inner door rests on the inner wall's base and, at placement 1 or -1,
  /// is flush with the wall's end.
  lemma InnerDoorOnWall(d: Dims, ao: AdvancedOptions, w: InnerWallSpec, nudge: real, placement: real)
    requires d.floors >= 1
    ensures var b, c := InnerWallBox(d, ao, w, nudge), InnerDoorOffset(d, ao, w, placement);
      c.y - ao.doorDimensions.y / 2.0 == -b.size.y / 2.0 &&
      (placement == 1.0 ==>
         if !w.rotate then c.x + ao.doorDimensions.x / 2.0 == b.size.x / 2.0
         else c.z + ao.doorDimensions.x / 2.0 == b.size.z / 2.0)
  {
  }

  // ------------------------------------------------------------- staircases

  /// The size of a staircase: a fraction of the largest stairs, one floor high.
  function StairDimensions(d: Dims, ao: AdvancedOptions, s: StairCaseSpec): Vec3
    requires d.floors >= 1
  {
    Vec3(ao.maxStairWidth * s.width, d.FloorHeight(), ao.maxStairLength * s.length)
  }

  /// One step per quarter unit of floor height, rounded.
  function StairSteps(d: Dims, ao: AdvancedOptions, s: StairCaseSpec): int
    requires d.floors >= 1
  {
    RoundToInt(StairDimensions(d, ao, s).y / 0.25)
  }

  /// The centre the staircase turns about: slid across the inside of the
  /// house by its placements, with the footprint turned by its rotation.
  function StairPivot(d: Dims, ao: AdvancedOptions, s: StairCaseSpec): Vec3
    requires d.floors >= 1
  {
    var sd := StairDimensions(d, ao, s);
    var even := s.rotation % 2 == 0;
    Vec3(((InnerWidth(d, ao) - (if even then sd.x else sd.z)) * s.placementX) / 2.0,
         d.FloorHeight() * (s.floor - 1) as real + ao.foundationHeight / 2.0,
         ((InnerDepth(d, ao) - (if even then sd.z else sd.x)) * s.placementY) / 2.0)
  }

  /// A staircase whose turned footprint fits inside the house stays inside
  /// it for every placement in [-1, 1], and starts on the floor of its storey.
  lemma StairFootprintInside(d: Dims, ao: AdvancedOptions, s: StairCaseSpec)
    requires d.floors >= 1
    requires -1.0 <= s.placementX <= 1.0 && -1.0 <= s.placementY <= 1.0
    requires var sd := StairDimensions(d, ao, s);
      var fx, fz := if s.rotation % 2 == 0 then sd.x else sd.z, if s.rotation % 2 == 0 then sd.z else sd.x;
      0.0 <= fx <= InnerWidth(d, ao) && 0.0 <= fz <= InnerDepth(d, ao)
    ensures var sd, c := StairDimensions(d, ao, s), StairPivot(d, ao, s);
      var fx, fz := if s.rotation % 2 == 0 then sd.x else sd.z, if s.rotation % 2 == 0 then sd.z else sd.x;
      Abs(c.x) + fx / 2.0 <= InnerWidth(d, ao) / 2.0 &&
      Abs(c.z) + fz / 2.0 <= InnerDepth(d, ao) / 2.0 &&
      c.y == d.FloorHeight() * (s.floor - 1) as real + ao.foundationHeight / 2.0
  {
    var sd := StairDimensions(d, ao, s);
    var fx, fz := if s.rotation % 2 == 0 then sd.x else sd.z, if s.rotation % 2 == 0 then sd.z else sd.x;
    assert StairPivot(d, ao, s).x == SlideOffset(InnerWidth(d, ao), 0.0, fx, s.placementX);
    assert StairPivot(d, ao, s).z == SlideOffset(InnerDepth(d, ao), 0.0, fz, s.placementY);
    SlideWithinWall(InnerWidth(d, ao), 0.0, fx, s.placementX);
    SlideWithinWall(InnerDepth(d, ao), 0.0, fz, s.placementY);
  }

  /// How far each baluster sits back from the front of its step.
  const BalusterOffset: real := 0.08

  /// The railing's distance from the staircase's left side: half a railing
  /// width in from the left, or from the right.
  function RailingInset(railingWidth: real, sd: Vec3, left: bool): real
  {
    if left then railingWidth / 2.0 else sd.x - railingWidth / 2.0
  }

  /// The baluster on step k of n (0-based): one step's rise above that step's
  /// base, half a run into it, less the offset. (The source writes the
  /// height as `y * (k + 1) / n` and the depth as `z * (k + 0.5) / n`.)
  function StepBaluster(sd: Vec3, inset: real, n: int, k: int): Vec3
    requires n != 0
  {
    Vec3(inset, sd.y / n as real * (k + 1) as real, sd.z / n as real * (k as real + 0.5) - BalusterOffset)
  }

  /// The last baluster: half a run beyond the top step, at the full height.
  function TopBaluster(sd: Vec3, inset: real, n: int): Vec3
    requires n != 0
  {
    Vec3(inset, sd.y, sd.z / n as real * (n as real + 0.5) - BalusterOffset)
  }

  /// The balusters AddStairRailing places, in order: one per step, then the
  /// top one.
  function StairBalusters(sd: Vec3, inset: real, n: int): seq<Vec3>
    requires n != 0
  {
    seq(if n > 0 then n else 0, k requires 0 <= k => StepBaluster(sd, inset, n, k)) + [TopBaluster(sd, inset, n)]
  }

  /// A staircase of n steps gets n + 1 balusters in a line along the
  /// railing, one run apart. The first stands one step up; each of the
  /// next rises by one step, up to the floor height, where the top one
  /// stands too.
  lemma BalustersRise(sd: Vec3, inset: real, n: int)
    requires n >= 1
    ensures var bs := StairBalusters(sd, inset, n);
      |bs| == n + 1 &&
      (forall k :: 0 <= k <= n ==> bs[k].x == inset) &&
      (forall k :: 0 <= k < n ==> bs[k + 1].z - bs[k].z == sd.z / n as real) &&
      (forall k :: 0 <= k < n - 1 ==> bs[k + 1].y - bs[k].y == sd.y / n as real) &&
      bs[0].y == sd.y / n as real && bs[n - 1].y == sd.y && bs[n].y == sd.y &&
      bs[0].z == sd.z / (2 * n) as real - BalusterOffset
  {
    BalustersAlong(sd, inset, n);
    BalustersClimb(sd, inset, n);
    BalusterEnds(sd, inset, n);
  }

  /// Baluster k of a staircase with n >= 1 steps, by where it comes from.
  lemma BalusterAt(sd: Vec3, inset: real, n: int, k: int)
    requires n >= 1 && 0 <= k <= n
    ensures |StairBalusters(sd, inset, n)| == n + 1
    ensures StairBalusters(sd, inset, n)[k] == if k < n then StepBaluster(sd, inset, n, k) else TopBaluster(sd, inset, n)
  {
  }

  lemma BalustersAlong(sd: Vec3, inset: real, n: int)
    requires n >= 1
    ensures var bs := StairBalusters(sd, inset, n);
      |bs| == n + 1 &&
      (forall k :: 0 <= k <= n ==> bs[k].x == inset) &&
      (forall k :: 0 <= k < n ==> bs[k + 1].z - bs[k].z == sd.z / n as real)
  {
    var bs := StairBalusters(sd, inset, n);
    var run := sd.z / n as real;
    forall k | 0 <= k <= n
      ensures bs[k].x == inset
    {
      BalusterAt(sd, inset, n, k);
    }
    forall k | 0 <= k < n
      ensures bs[k + 1].z - bs[k].z == run
    {
      BalusterAt(sd, inset, n, k);
      BalusterAt(sd, inset, n, k + 1);
      assert (k + 1) as real + 0.5 == (k as real + 0.5) + 1.0;
      StepApart(run, k as real + 0.5);
    }
  }

  lemma BalustersClimb(sd: Vec3, inset: real, n: int)
    requires n >= 1
    ensures var bs := StairBalusters(sd, inset, n);
      |bs| == n + 1 &&
      forall k :: 0 <= k < n - 1 ==> bs[k + 1].y - bs[k].y == sd.y / n as real
  {
    var bs := StairBalusters(sd, inset, n);
    var rise := sd.y / n as real;
    BalusterAt(sd, inset, n, 0);
    forall k | 0 <= k < n - 1
      ensures bs[k + 1].y - bs[k].y == rise
    {
      BalusterAt(sd, inset, n, k);
      BalusterAt(sd, inset, n, k + 1);
      assert ((k + 1) + 1) as real == (k + 1) as real + 1.0;
      StepApart(rise, (k + 1) as real);
    }
  }

  lemma BalusterEnds(sd: Vec3, inset: real, n: int)
    requires n >= 1
    ensures var bs := StairBalusters(sd, inset, n);
      |bs| == n + 1 &&
      bs[0].y == sd.y / n as real && bs[n - 1].y == sd.y && bs[n].y == sd.y &&
      bs[0].z == sd.z / (2 * n) as real - BalusterOffset
  {
    BalusterAt(sd, inset, n, 0);
    BalusterAt(sd, inset, n, n - 1);
    BalusterAt(sd, inset, n, n);
    assert ((n - 1) + 1) as real == n as real;
    WholeRun(sd.y, n as real);
    HalfRun(sd.z, n as real);
  }

  /// Multiples of a step one apart differ by that step.
  lemma StepApart(step: real, a: real)
    ensures step * (a + 1.0) - step * a == step
  {
  }

  lemma WholeRun(x: real, n: real)
    requires n > 0.0
    ensures x / n * n == x
  {
  }

  lemma HalfRun(x: real, n: real)
    requires n > 0.0
    ensures x / n * 0.5 == x / (2.0 * n)
  {
  }

  // ---------------------------------------------------------------- chimneys

  /// Where a chimney's base goes: slid along both axes so that at placement
  /// 1 or -1 it stands just outside a wall.
  function ChimneyOffset(d: Dims, ao: AdvancedOptions, c: ChimneySpec, nudge: real): Vec3
  {
    Vec3((((d.width + c.width) / 2.0) - ao.foundationSeparation) * c.placementX,
         (c.height / 2.0) + nudge,
         (((d.depth + c.depth) / 2.0) - ao.foundationSeparation) * c.placementY)
  }

  /// At placement 1 (or -1) the chimney's inner side lies on the plane of the
  /// exterior walls' outer faces; at placement 0 it is centred on the house.
  lemma ChimneyAgainstWall(d: Dims, ao: AdvancedOptions, c: ChimneySpec, nudge: real)
    ensures var o := ChimneyOffset(d, ao, c, nudge);
      (c.placementX == 1.0 ==> o.x - c.width / 2.0 == d.width / 2.0 - ao.foundationSeparation) &&
      (c.placementX == -1.0 ==> o.x + c.width / 2.0 == -(d.width / 2.0 - ao.foundationSeparation)) &&
      (c.placementY == 1.0 ==> o.z - c.depth / 2.0 == d.depth / 2.0 - ao.foundationSeparation) &&
      (c.placementY == -1.0 ==> o.z + c.depth / 2.0 == -(d.depth / 2.0 - ao.foundationSeparation)) &&
      (c.placementX == 0.0 ==> o.x == 0.0) && (c.placementY == 0.0 ==> o.z == 0.0)
  {
  }

  /// The extruded band of a chimney, relative to its base, and how far its
  /// top edge is raised (negative: lowered) to give it its angle.
  function ChimneyExtrude(ao: AdvancedOptions, c: ChimneySpec, nudge: real): Box
  {
    Box(Vec3((c.width - nudge) + c.leftExtrude + c.rightExtrude,
             (c.extrudeHeight * c.height) + ao.foundationHeight,
             (c.depth - nudge) + c.frontExtrude + c.backExtrude),
        Vec3((c.rightExtrude - c.leftExtrude) / 2.0,
             ((c.extrudeHeight * c.height) - c.height) / 2.0,
             (c.backExtrude - c.frontExtrude) / 2.0), 0)
  }

  function ChimneyTaper(c: ChimneySpec): real
  {
    (c.extrudeAngle - 0.5) * c.extrudeHeight * c.height
  }

  /// The band covers the base and each extrusion on its own side, its
  /// bottom is level with the base's bottom, and for a positive band an
  /// angle above one half raises the band's top edge, below one half lowers it.
  lemma ChimneyExtrudeShape(ao: AdvancedOptions, c: ChimneySpec, nudge: real)
    ensures var b := ChimneyExtrude(ao, c, nudge);
      b.center.x + b.size.x / 2.0 == c.width / 2.0 - nudge / 2.0 + c.rightExtrude &&
      b.center.x - b.size.x / 2.0 == -(c.width / 2.0 - nudge / 2.0) - c.leftExtrude &&
      b.center.z + b.size.z / 2.0 == c.depth / 2.0 - nudge / 2.0 + c.backExtrude &&
      b.center.z - b.size.z / 2.0 == -(c.depth / 2.0 - nudge / 2.0) - c.frontExtrude &&
      b.center.y - b.size.y / 2.0 == -(c.height + ao.foundationHeight) / 2.0
    ensures c.extrudeHeight * c.height > 0.0 ==> (ChimneyTaper(c) > 0.0 <==> c.extrudeAngle > 0.5)
  {
    var band := c.extrudeHeight * c.height;
    if band > 0.0 {
      if c.extrudeAngle > 0.5 {
        assert (c.extrudeAngle - 0.5) * band > 0.0;
      } else {
        assert (c.extrudeAngle - 0.5) * band <= 0.0;
      }
      assert ChimneyTaper(c) == (c.extrudeAngle - 0.5) * band;
    }
  }

  // -------------------------------------------------------------- extensions

  /// Where an extension's root goes relative to the parent house, for an
  /// extension of size `ext` on wall w at a placement along that wall.
  function ExtensionOffset(d: Dims, ext: Dims, ao: AdvancedOptions, w: Wall, position: real, nudge: real): Vec3
  {
    var pos := (WallLength(d, w) + WallLength(ext, w) - (ao.foundationSeparation * 4.0)) * position / 2.0;
    var depth := WallDepth(d, w) + WallDepth(ext, w) - (ao.foundationSeparation * 2.0);
    match w
    case Front => Vec3(pos, 0.0, -(depth - ao.wallThickness + nudge))
    case Back => Vec3(pos, 0.0, depth - ao.wallThickness + nudge)
    case Right => Vec3(depth, 0.0, pos)
    case Left => Vec3(-depth, 0.0, pos)
  }
}
