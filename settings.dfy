// The serialized records of a house. Each one carries an `initialized` flag:
// the first deserialization (an asset saved before a field existed leaves the
// flag false) puts the record's defaults in place and raises the flag, and
// every later deserialization leaves the record as it is.

module Settings {
  import opened HouseTypes

  /// The dimensions a house starts with.
  function DefaultDims(): (d: Dims)
    ensures d.floors == 1 && d.FloorHeight() == d.height == 16.0
    ensures d.width == d.depth == d.height
    ensures d.FrontGableActive() && !d.SideGableActive() && d.frontGableHeight > 0.0
  {
    Dims(16.0, 16.0, 16.0, 5.0, 0.0, 1)
  }

  class Dimensions {
    var width: real
    var depth: real
    var height: real
    var frontGableHeight: real
    var sideGableHeight: real
    var floors: int
    var initialized: bool

    function Value(): Dims
      reads this
    {
      Dims(width, depth, height, frontGableHeight, sideGableHeight, floors)
    }

    method OnAfterDeserialize()
      modifies this
      ensures initialized
      ensures Value() == if old(initialized) then old(Value()) else DefaultDims()
      ensures old(initialized) ==> unchanged(this)
    {
      if !initialized {
        initialized := true;
        width, depth, height := 16.0, 16.0, 16.0;
        frontGableHeight, sideGableHeight := 5.0, 0.0;
        floors := 1;
      }
    }
  }

  /// The outer styles a house starts with.
  function DefaultOuterStyle(): (s: OuterStyle)
    ensures !s.roofEdges && !s.wallEdges && !s.foundationEdges
    ensures !s.ShowShutter() && s.windowShutter == NoShutter
  {
    OuterStyle(false, false, false, SixteenPaneAlpha, OutlineWithInner, NoShutter,
               SemiCircleAlpha, PorchRailing2)
  }

  /// The scalar fields of CustomizableHouse.OuterDetails; its feature lists
  /// (windows, doors, ...) are the sequences the layout operations take.
  class OuterDetails {
    var roofEdges: bool
    var wallEdges: bool
    var foundationEdges: bool
    var windowType: WindowType
    var windowFrame: FrameType
    var windowShutter: ShutterType
    var gableWindowType: GableWindowType
    var porchRailingType: PorchRailingType
    var initialized: bool

    function Value(): OuterStyle
      reads this
    {
      OuterStyle(roofEdges, wallEdges, foundationEdges, windowType, windowFrame,
                 windowShutter, gableWindowType, porchRailingType)
    }

    method OnAfterDeserialize()
      modifies this
      ensures initialized
      ensures Value() == if old(initialized) then old(Value()) else DefaultOuterStyle()
      ensures old(initialized) ==> unchanged(this)
    {
      if !initialized {
        initialized := true;
        roofEdges, wallEdges, foundationEdges := false, false, false;
        windowType := SixteenPaneAlpha;
        windowFrame := OutlineWithInner;
        windowShutter := NoShutter;
        gableWindowType := SemiCircleAlpha;
        porchRailingType := PorchRailing2;
      }
    }
  }

  /// The scalar fields of CustomizableHouse.InnerDetails.
  class InnerDetails {
    var rafters: bool
    var stairRailingType: StairRailingType
    var initialized: bool

    function Value(): InnerStyle
      reads this
    {
      InnerStyle(rafters, stairRailingType)
    }

    method OnAfterDeserialize()
      modifies this
      ensures initialized
      ensures Value() == if old(initialized) then old(Value()) else InnerStyle(false, StairRailing1)
      ensures old(initialized) ==> unchanged(this)
    {
      if !initialized {
        initialized := true;
        rafters := false;
        stairRailingType := StairRailing1;
      }
    }
  }

  /// What the first deserialization of a window resets: everything but the
  /// wall and the awning and balconet placements.
  function WindowDefaults(w: WindowSpec): (r: WindowSpec)
    ensures r.wall == w.wall && r.awningPlacement == w.awningPlacement
    ensures r.balconetPlacement == w.balconetPlacement
    ensures r.floor == 1 && r.placements == [0.0]
    ensures !r.ShowShutter() && !r.ShowAwningPlacement() && !r.ShowBalconetPlacement()
  {
    WindowSpec(w.wall, 1, [0.0], NoAwning, w.awningPlacement, NoBalconet, w.balconetPlacement,
               false, NoWindow, NoFrame, NoShutter)
  }

  class Window {
    var wall: Wall
    var floor: int
    var placements: seq<real>
    var awningType: AwningType
    var awningPlacement: real
    var balconetType: BalconetType
    var balconetPlacement: real
    var overrideDetails: bool
    var typeOverride: WindowType
    var frameOverride: FrameType
    var shutterOverride: ShutterType
    var initialized: bool

    function Value(): WindowSpec
      reads this
    {
      WindowSpec(wall, floor, placements, awningType, awningPlacement, balconetType,
                 balconetPlacement, overrideDetails, typeOverride, frameOverride, shutterOverride)
    }

    method OnAfterDeserialize()
      modifies this
      ensures initialized
      ensures Value() == if old(initialized) then old(Value()) else WindowDefaults(old(Value()))
      ensures old(initialized) ==> unchanged(this)
    {
      if !initialized {
        initialized := true;
        floor := 1;
        placements := [0.0];
        awningType := NoAwning;
        balconetType := NoBalconet;
        overrideDetails := false;
        typeOverride := NoWindow;
        frameOverride := NoFrame;
        shutterOverride := NoShutter;
      }
    }
  }

  class GableWindow {
    var wall: Wall
    var placementX: real
    var placementY: real
    var overrideDetails: bool
    var typeOverride: GableWindowType
    var frameOverride: FrameType
    var initialized: bool

    function Value(): GableWindowSpec
      reads this
    {
      GableWindowSpec(wall, placementX, placementY, overrideDetails, typeOverride, frameOverride)
    }

    method OnAfterDeserialize()
      modifies this
      ensures initialized
      ensures Value() == if old(initialized) then old(Value())
                         else GableWindowSpec(old(wall), 0.0, 0.0, false, NoGableWindow, NoFrame)
      ensures old(initialized) ==> unchanged(this)
    {
      if !initialized {
        initialized := true;
        placementX, placementY := 0.0, 0.0;
        overrideDetails := false;
        typeOverride := NoGableWindow;
        frameOverride := NoFrame;
      }
    }
  }

  class OuterDoor {
    var wall: Wall
    var placement: real
    var steps: bool
    var awningType: AwningType
    var awningPlacement: real
    var initialized: bool

    function Value(): OuterDoorSpec
      reads this
    {
      OuterDoorSpec(wall, placement, steps, awningType, awningPlacement)
    }

    method OnAfterDeserialize()
      modifies this
      ensures initialized
      ensures Value() == if old(initialized) then old(Value())
                         else OuterDoorSpec(old(wall), 0.0, old(steps), NoAwning, 0.0)
      ensures old(initialized) ==> unchanged(this)
    {
      if !initialized {
        initialized := true;
        placement := 0.0;
        awningType := NoAwning;
        awningPlacement := 0.0;
      }
    }
  }

  class StoreWindow {
    var wall: Wall
    var placements: seq<real>
    var indent: bool
    var awningType: AwningType
    var awningPlacement: real
    var initialized: bool

    function Value(): StoreWindowSpec
      reads this
    {
      StoreWindowSpec(wall, placements, indent, awningType, awningPlacement)
    }

    method OnAfterDeserialize()
      modifies this
      ensures initialized
      ensures Value() == if old(initialized) then old(Value())
                         else StoreWindowSpec(old(wall), [0.0], true, NoAwning, 0.0)
      ensures old(initialized) ==> unchanged(this)
    {
      if !initialized {
        initialized := true;
        placements := [0.0];
        indent := true;
        awningType := NoAwning;
        awningPlacement := 0.0;
      }
    }
  }

  /// The chimney a house starts with: a 3 by 3 stack 20 high in the middle of
  /// the house, with a thin cap that leans inward.
  function DefaultChimney(): (c: ChimneySpec)
    ensures c.placementX == c.placementY == 0.0
    ensures c.frontExtrude == c.leftExtrude == c.rightExtrude == c.backExtrude == 0.0
    ensures c.extrudeAngle > 0.5
  {
    ChimneySpec(0.0, 0.0, 3.0, 3.0, 20.0, 0.0, 0.0, 0.0, 0.0, 0.1, 0.8)
  }

  class Chimney {
    var placementX: real
    var placementY: real
    var width: real
    var depth: real
    var height: real
    var frontExtrude: real
    var leftExtrude: real
    var rightExtrude: real
    var backExtrude: real
    var extrudeHeight: real
    var extrudeAngle: real
    var initialized: bool

    function Value(): ChimneySpec
      reads this
    {
      ChimneySpec(placementX, placementY, width, depth, height, frontExtrude, leftExtrude,
                  rightExtrude, backExtrude, extrudeHeight, extrudeAngle)
    }

    method OnAfterDeserialize()
      modifies this
      ensures initialized
      ensures Value() == if old(initialized) then old(Value()) else DefaultChimney()
      ensures old(initialized) ==> unchanged(this)
    {
      if !initialized {
        initialized := true;
        placementX, placementY := 0.0, 0.0;
        width, depth, height := 3.0, 3.0, 20.0;
        frontExtrude, leftExtrude, rightExtrude, backExtrude := 0.0, 0.0, 0.0, 0.0;
        extrudeHeight := 0.1;
        extrudeAngle := 0.8;
      }
    }
  }

  /// What the first deserialization of a porch resets: everything but the wall.
  function PorchDefaults(p: PorchSpec): (r: PorchSpec)
    ensures r.wall == p.wall && r.placement == 0.0 && r.length == 0.8
    ensures !r.LeftCornerEnabled() && !r.RightCornerEnabled()
    ensures !r.leftStairs && !r.rightStairs && !r.middleStairs
  {
    PorchSpec(p.wall, 0.0, 0.8, 4.0, false, false, false, 0.0, 0.1, false, false)
  }

  class Porch {
    var wall: Wall
    var placement: real
    var length: real
    var width: real
    var leftStairs: bool
    var rightStairs: bool
    var middleStairs: bool
    var middleStairPlacement: real
    var middleStairWidth: real
    var leftCorner: bool
    var rightCorner: bool
    var initialized: bool

    function Value(): PorchSpec
      reads this
    {
      PorchSpec(wall, placement, length, width, leftStairs, rightStairs, middleStairs,
                middleStairPlacement, middleStairWidth, leftCorner, rightCorner)
    }

    method OnAfterDeserialize()
      modifies this
      ensures initialized
      ensures Value() == if old(initialized) then old(Value()) else PorchDefaults(old(Value()))
      ensures old(initialized) ==> unchanged(this)
    {
      if !initialized {
        initialized := true;
        placement, length, width := 0.0, 0.8, 4.0;
        leftStairs, rightStairs, middleStairs := false, false, false;
        middleStairPlacement, middleStairWidth := 0.0, 0.1;
        leftCorner, rightCorner := false, false;
      }
    }
  }

  class InnerWall {
    var rotate: bool
    var floor: int
    var width: real
    var placementX: real
    var placementY: real
    var doorPlacements: seq<real>
    var initialized: bool

    function Value(): InnerWallSpec
      reads this
    {
      InnerWallSpec(rotate, floor, width, placementX, placementY, doorPlacements)
    }

    method OnAfterDeserialize()
      modifies this
      ensures initialized
      ensures Value() == if old(initialized) then old(Value())
                         else InnerWallSpec(false, 1, 1.0, 0.0, 0.0, [0.0])
      ensures old(initialized) ==> unchanged(this)
    {
      if !initialized {
        initialized := true;
        rotate := false;
        floor := 1;
        width := 1.0;
        placementX, placementY := 0.0, 0.0;
        doorPlacements := [0.0];
      }
    }
  }

  class StairCase {
    var rotation: int
    var floor: int
    var width: real
    var length: real
    var placementX: real
    var placementY: real
    var cutoutLength: real
    var disableLeftRailing: bool
    var disableRightRailing: bool
    var disableLeftGuardRailing: bool
    var disableRightGuardRailing: bool
    var disableFrontGuardRailing: bool
    var initialized: bool

    function Value(): StairCaseSpec
      reads this
    {
      StairCaseSpec(rotation, floor, width, length, placementX, placementY, cutoutLength,
                    disableLeftRailing, disableRightRailing, disableLeftGuardRailing,
                    disableRightGuardRailing, disableFrontGuardRailing)
    }

    method OnAfterDeserialize()
      modifies this
      ensures initialized
      ensures Value() == if old(initialized) then old(Value())
                         else StairCaseSpec(0, 1, 0.5, 0.5, 0.0, 0.0, 1.0, false, false, false, false, false)
      ensures old(initialized) ==> unchanged(this)
    {
      if !initialized {
        initialized := true;
        rotation, floor := 0, 1;
        width, length := 0.5, 0.5;
        placementX, placementY := 0.0, 0.0;
        cutoutLength := 1.0;
        disableLeftRailing, disableRightRailing := false, false;
        disableLeftGuardRailing, disableRightGuardRailing := false, false;
        disableFrontGuardRailing := false;
      }
    }
  }

  class Dormer {
    var alternateRoof: bool
    var placements: seq<real>
    var placementY: real
    var overrideWindowDetails: bool
    var typeOverride: WindowType
    var frameOverride: FrameType
    var initialized: bool

    function Value(): DormerSpec
      reads this
    {
      DormerSpec(alternateRoof, placements, placementY, overrideWindowDetails, typeOverride, frameOverride)
    }

    method OnAfterDeserialize()
      modifies this
      ensures initialized
      ensures Value() == if old(initialized) then old(Value())
                         else DormerSpec(true, [0.0], 0.0, false, NoWindow, NoFrame)
      ensures old(initialized) ==> unchanged(this)
    {
      if !initialized {
        initialized := true;
        alternateRoof := true;
        placements := [0.0];
        placementY := 0.0;
        overrideWindowDetails := false;
        typeOverride := NoWindow;
        frameOverride := NoFrame;
      }
    }
  }
}
