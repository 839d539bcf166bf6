// Value types shared by the whole model of the house customizer: the
// serialized enums (with the integer each C# enum member stands for),
// vectors, the house dimensions and the advanced options.

module HouseTypes {

  datatype Option<T> = None | Some(value: T)

  function Abs(r: real): real { if r < 0.0 then -r else r }

  function Min(a: real, b: real): real { if a <= b then a else b }

  datatype Vec3 = Vec3(x: real, y: real, z: real)
  {
    function Plus(o: Vec3): Vec3 { Vec3(x + o.x, y + o.y, z + o.z) }
  }

  const Origin := Vec3(0.0, 0.0, 0.0)

  /// The three coordinates a vertex can be compared on (PBUtility.VectorValue).
  datatype Axis = X | Y | Z

  function Coord(v: Vec3, a: Axis): real
  {
    match a
    case X => v.x
    case Y => v.y
    case Z => v.z
  }

  /// CustomizableHouse.Wall; the walls are built with these quarter turns
  /// about the vertical axis: front 0, back 180, right 270 and left 90 degrees.
  datatype Wall = Front | Back | Right | Left
  {
    function Index(): int
    {
      match this
      case Front => 0
      case Back => 1
      case Right => 2
      case Left => 3
    }

    /// The wall on the other side of the house.
    function Opposite(): Wall
    {
      match this
      case Front => Back
      case Back => Front
      case Right => Left
      case Left => Right
    }

    /// Quarter turns (of 90 degrees) of the wall's rotation about the y axis.
    function Turns(): int
    {
      match this
      case Front => 0
      case Back => 2
      case Right => 3
      case Left => 1
    }
  }

  /// The wall whose enum value is i, the cast `(Wall)i` of the wall loop.
  function WallOfIndex(i: int): Option<Wall>
  {
    if i == 0 then Some(Front)
    else if i == 1 then Some(Back)
    else if i == 2 then Some(Right)
    else if i == 3 then Some(Left)
    else None
  }

  datatype WindowType = NoWindow | SixteenPaneAlpha | SixteenPaneBlack | TwentyFourPaneAlpha | TwentyFourPaneBlack
  {
    function Index(): int
    {
      match this
      case NoWindow => -1
      case SixteenPaneAlpha => 0
      case SixteenPaneBlack => 1
      case TwentyFourPaneAlpha => 2
      case TwentyFourPaneBlack => 3
    }
  }

  datatype FrameType = NoFrame | Outline | OutlineWithInner | TopAndBottom | ArchAndBottom
  {
    function Index(): int
    {
      match this
      case NoFrame => -100
      case Outline => -99
      case OutlineWithInner => -98
      case TopAndBottom => -97
      case ArchAndBottom => -96
    }
  }

  datatype ShutterType = NoShutter | Panel | Board | Slats
  {
    function Index(): int
    {
      match this
      case NoShutter => -1
      case Panel => 0
      case Board => 1
      case Slats => 2
    }
  }

  datatype GableWindowType = NoGableWindow | SemiCircleAlpha | SemiCircleBlack | RoundAlpha | RoundBlack
  {
    function Index(): int
    {
      match this
      case NoGableWindow => -1
      case SemiCircleAlpha => 0
      case SemiCircleBlack => 1
      case RoundAlpha => 2
      case RoundBlack => 3
    }
  }

  datatype PorchRailingType = NoPorchRailing | PorchRailing1 | PorchRailing2

  datatype StairRailingType = NoStairRailing | StairRailing1

  datatype AwningType = NoAwning | SingleAwning | SmallAwning | LargeAwning
  {
    /// Only the small and large awnings can slide along their opening.
    predicate ShowsPlacement() { this == SmallAwning || this == LargeAwning }
  }

  datatype BalconetType = NoBalconet | SingleBalconet | SmallBalconet | FancyBalconet

  /// The size of a house (CustomizableHouse.Dimensions).
  datatype Dims = Dims(width: real, depth: real, height: real,
                       frontGableHeight: real, sideGableHeight: real, floors: int)
  {
    /// The height of one floor; the inspector keeps floors in 1..5.
    function FloorHeight(): real
      requires floors >= 1
    {
      height / floors as real
    }

    /// The front gable height is editable only while there is no side gable.
    predicate FrontGableActive() { sideGableHeight == 0.0 }

    /// The side gable height is editable only while there is no front gable.
    predicate SideGableActive() { frontGableHeight == 0.0 }
  }

  /// The house-wide outer styles (the scalar fields of CustomizableHouse.OuterDetails).
  datatype OuterStyle = OuterStyle(
    roofEdges: bool, wallEdges: bool, foundationEdges: bool,
    windowType: WindowType, windowFrame: FrameType, windowShutter: ShutterType,
    gableWindowType: GableWindowType, porchRailingType: PorchRailingType)
  {
    /// Shutters are offered unless the house-wide frame is an outline.
    predicate ShowShutter()
    {
      match windowFrame
      case Outline => false
      case OutlineWithInner => false
      case _ => true
    }
  }

  /// The house-wide inner styles (the scalar fields of CustomizableHouse.InnerDetails).
  datatype InnerStyle = InnerStyle(rafters: bool, stairRailingType: StairRailingType)

  /// The tunable constants of a house (CustomizableHouse.AdvancedOptions);
  /// only the options the modelled operations read are listed.
  datatype AdvancedOptions = AdvancedOptions(
    foundationSeparation: real, foundationHeight: real, wallThickness: real,
    indentThickness: real, ceilingThickness: real,
    rafterThickness: real, rafterWidth: real, sideRafterThickness: real, sideRafterWidth: real,
    roofHeight: real, roofOverhangFront: real,
    doorDimensions: Vec3, windowDimensions: Vec3, windowHeight: real,
    gableWindowDiameter: real, storeWindowDimensions: Vec3, storeWindowHeight: real,
    frameWidth: real, frameDepth: real, shutterWidth: real,
    awningYOffset: real, awningLength: real, balconetYOffset: real,
    maxStairLength: real, maxStairWidth: real,
    porchColumnXInset: real, porchColumnZInset: real, porchColumnFrequency: real, porchRailingHeight: real)

  /// The options a new house starts with.
  function DefaultOptions(): AdvancedOptions
  {
    AdvancedOptions(
      0.25, 0.5, 0.25,
      0.25, 0.5,
      0.3, 1.0, 0.5, 0.4,
      0.5, 0.4,
      Vec3(1.5, 3.0, 1.0), Vec3(1.5, 2.0, 1.0), 1.1,
      2.0, Vec3(3.2, 3.2, 1.0), 0.4,
      0.25, 0.125, 0.5,
      0.15, 1.5, -0.05,
      20.0, 10.0,
      1.0, 0.6, 3.0, 0.8)
  }

  /// A window of the house (CustomizableHouse.Window) as a value.
  datatype WindowSpec = WindowSpec(
    wall: Wall, floor: int, placements: seq<real>,
    awningType: AwningType, awningPlacement: real,
    balconetType: BalconetType, balconetPlacement: real,
    overrideDetails: bool, typeOverride: WindowType,
    frameOverride: FrameType, shutterOverride: ShutterType)
  {
    predicate ShowAwningPlacement() { awningType.ShowsPlacement() }

    /// Only the small balconet can slide along its window.
    predicate ShowBalconetPlacement() { balconetType == SmallBalconet }

    /// A window shows its own shutter only when it overrides the house-wide
    /// details with a frame that leaves room for shutters.
    predicate ShowShutter()
    {
      match frameOverride
      case TopAndBottom => overrideDetails
      case ArchAndBottom => overrideDetails
      case _ => false
    }
  }

  /// A gable window (CustomizableHouse.GableWindow) as a value.
  datatype GableWindowSpec = GableWindowSpec(
    wall: Wall, placementX: real, placementY: real,
    overrideDetails: bool, typeOverride: GableWindowType, frameOverride: FrameType)

  /// An outer door (CustomizableHouse.OuterDoor) as a value.
  datatype OuterDoorSpec = OuterDoorSpec(
    wall: Wall, placement: real, steps: bool, awningType: AwningType, awningPlacement: real)
  {
    predicate ShowAwningPlacement() { awningType.ShowsPlacement() }
  }

  /// A store window (CustomizableHouse.StoreWindow) as a value.
  datatype StoreWindowSpec = StoreWindowSpec(
    wall: Wall, placements: seq<real>, indent: bool, awningType: AwningType, awningPlacement: real)
  {
    predicate ShowAwningPlacement() { awningType.ShowsPlacement() }
  }

  /// A chimney (CustomizableHouse.Chimney) as a value.
  datatype ChimneySpec = ChimneySpec(
    placementX: real, placementY: real, width: real, depth: real, height: real,
    frontExtrude: real, leftExtrude: real, rightExtrude: real, backExtrude: real,
    extrudeHeight: real, extrudeAngle: real)

  /// A porch (CustomizableHouse.Porch) as a value.
  datatype PorchSpec = PorchSpec(
    wall: Wall, placement: real, length: real, width: real,
    leftStairs: bool, rightStairs: bool, middleStairs: bool,
    middleStairPlacement: real, middleStairWidth: real,
    leftCorner: bool, rightCorner: bool)
  {
    /// The left corner can be closed when the porch touches the left end of
    /// its wall or spans the whole wall.
    predicate LeftCornerEnabled() { placement == -1.0 || length == 1.0 }

    /// The right corner can be closed when the porch touches the right end of
    /// its wall or spans the whole wall.
    predicate RightCornerEnabled() { placement == 1.0 || length == 1.0 }
  }

  /// An inner wall (CustomizableHouse.InnerWall) as a value.
  datatype InnerWallSpec = InnerWallSpec(
    rotate: bool, floor: int, width: real, placementX: real, placementY: real,
    doorPlacements: seq<real>)

  /// A staircase (CustomizableHouse.StairCase) as a value.
  datatype StairCaseSpec = StairCaseSpec(
    rotation: int, floor: int, width: real, length: real,
    placementX: real, placementY: real, cutoutLength: real,
    disableLeftRailing: bool, disableRightRailing: bool,
    disableLeftGuardRailing: bool, disableRightGuardRailing: bool,
    disableFrontGuardRailing: bool)

  /// A dormer (CustomizableHouse.Dormer) as a value.
  datatype DormerSpec = DormerSpec(
    alternateRoof: bool, placements: seq<real>, placementY: real,
    overrideWindowDetails: bool, typeOverride: WindowType, frameOverride: FrameType)
}
