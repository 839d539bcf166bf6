# HouseCustomizer core, modelled in Dafny

HouseCustomizer is a Unity editor tool that builds a house from parameters.
A `CustomizableHouse` has dimensions, outer and inner details, textures and
advanced options. From them it generates ProBuilder objects for the
foundation, the exterior walls with their gables, the ceilings and rafters,
porches, inner walls, staircases and chimneys. It then cuts the doors and
windows out of the walls with CSG and coalesces the walls' faces. A
`FullHouse` can carry extensions: smaller houses attached to one of its
walls. The two buildings cut matching holes where they meet, and an
extension may stretch its own two roofs so that they reach into the house's
roof. Textures are applied
per object list, with a cache that skips a pass when nothing changed.
`SerializeUtility` names the files a house is saved to.

The model has one module per concern:

- `HouseTypes` (house_types.dfy) holds the shared values: the serialized enums
  with the integer each C# member stands for, vectors, the dimensions, the
  advanced options with their defaults, and the two `NUDGE` values.
- `Settings` (settings.dfy) holds the serialized records as classes. Each
  has an `OnAfterDeserialize` hook guarded by its `initialized` flag.
- `Layout` (layout.dfy) holds the placement arithmetic of `CustomizableHouse`
  as pure functions, with lemmas about bounds, symmetry and contact:
  wall measures, doors, windows, gable and store windows, awnings,
  balconets, frames, ceilings and rafters, porches, inner walls, stairs,
  chimneys and the extension position.
- `PBUtility` (pb_utility.dfy) models `PBUtility.cs`: the face-merge scan,
  `MergeRemainingFaces`, the `Cutout` snapshot, `CutOutObject(s)` and
  `SetUVTiling`. A ProBuilder object is a class holding its mesh and its
  transform.
- `Openings` (openings.dfy) builds the cut lists of the exterior walls:
  `AddOuterDoors`, `AddWindows`, `AddGableWindows`, `AddStoreWindows`.
- `Coalesce` (coalesce.dfy) and `WallPass` (walls.dfy) model
  `AddWallDetails`. For each wall, the cuts are collected in a fixed order,
  the wall is cut once, and its faces are coalesced.
- `Generators` (generators.dfy) holds the loops that append generated parts
  to the house's lists: ceilings, rafters, porch columns and railings. It
  also holds the stair railing's baluster loop, the `CreateGable` merge
  loop and `RemakeObject`.
- `Extensions` (extensions.dfy) models `FullHouse.cs`, `Extension.cs` and
  `SetUpExtension`: the cutters of both sides, the wall pairing, the roof
  stretch, and the extension set-up.
- `Assignment` (assignment.dfy) models the texture passes and the
  `Apply*Changes` cache.
- `SerializeUtility` (serialize_utility.dfy) models `GetPath`,
  `CombinePaths` and the name-stripping loop of `GetFiles`.

Some foreign operations are modelled by their effect:

- Lengths are `real`s, and float rounding is not modelled.
- ProBuilder's `MergeFaces` removes the chosen faces and appends one face
  that holds all their indices and carries the first chosen face's
  attributes.
- A CSG subtraction is a symbolic tree (`Csg`). A function parameter turns
  the tree into the imported mesh.
- `Mathf.RoundToInt` rounds half to even.
- The tiling curve `Pow(100 / (t + NUDGE + 100), 10)` is a function the
  house is given.

## Model

| member | source | states |
|---|---|---|
| Settings.DefaultDims | CustomizableHouse.cs:159-171 | The default house has one floor, is 16 wide, deep and high (so one floor is 16 high), and has an active 5-high front gable with no side gable |
| Settings.Dimensions.OnAfterDeserialize | CustomizableHouse.cs:159-171 | The first call fills in the defaults and raises `initialized`. A later call changes nothing |
| Settings.DefaultOuterStyle | CustomizableHouse.cs:306-320 | The default outer style has no edges and no shutters, and shows no shutter |
| Settings.OuterDetails.OnAfterDeserialize | CustomizableHouse.cs:306-320 | The first call puts the default outer style in place. A later call changes nothing |
| Settings.InnerDetails.OnAfterDeserialize | CustomizableHouse.cs:353-361 | The first call turns rafters off and sets stair railing 1. A later call changes nothing |
| Settings.WindowDefaults | CustomizableHouse.cs:975-989 | A reset window keeps its wall and its awning and balconet placements. It is on floor 1 with the single placement 0, and shows neither shutters nor placement sliders |
| Settings.Window.OnAfterDeserialize | CustomizableHouse.cs:975-989 | The first call resets the window as WindowDefaults says. A later call changes nothing |
| Settings.GableWindow.OnAfterDeserialize | CustomizableHouse.cs:1024-1035 | The first call zeroes both placements, clears the override, and keeps the wall. A later call changes nothing |
| Settings.OuterDoor.OnAfterDeserialize | CustomizableHouse.cs:1079-1088 | The first call centres the door and removes its awning, keeping the wall and the steps flag. A later call changes nothing |
| Settings.StoreWindow.OnAfterDeserialize | CustomizableHouse.cs:1134-1144 | The first call gives one centred, indented placement with no awning. A later call changes nothing |
| Settings.DefaultChimney | CustomizableHouse.cs:1227-1244 | The default chimney is centred, has no extrusions, and has a cap angle above one half |
| Settings.Chimney.OnAfterDeserialize | CustomizableHouse.cs:1227-1244 | The first call puts the default chimney in place. A later call changes nothing |
| Settings.PorchDefaults | CustomizableHouse.cs:1281-1320 | A reset porch keeps its wall, is centred and 0.8 long, has no stairs, and offers no corner |
| Settings.Porch.OnAfterDeserialize | CustomizableHouse.cs:1304-1320 | The first call resets the porch as PorchDefaults says. A later call changes nothing |
| Settings.InnerWall.OnAfterDeserialize | CustomizableHouse.cs:1357-1369 | The first call gives an unrotated full-width wall on floor 1 with one centred door. A later call changes nothing |
| Settings.StairCase.OnAfterDeserialize | CustomizableHouse.cs:1449-1467 | The first call gives a half-size staircase on floor 1 with every railing enabled. A later call changes nothing |
| Settings.Dormer.OnAfterDeserialize | CustomizableHouse.cs:1511-1523 | The first call gives an alternate-roof dormer with one centred placement and no override. A later call changes nothing |
| Layout.WallMeasures | CustomizableHouse.cs:1972-2035 | A wall's length is the house's extent along it, as the rotation-based FacingLength also says. Opposite walls agree. The depth is half the other extent, so length plus twice the depth is width plus depth |
| Layout.ExteriorWallsEnclose | CustomizableHouse.cs:2249-2286 | Each exterior wall's outer face lies foundationSeparation inside the foundation, and its inner face bounds the inner width or depth. Front and back run the full usable width; the side walls fit between them |
| Layout.WallPassMatchesWallBox | CustomizableHouse.cs:2679-2715 | The opening length of the wall pass, less the two margins, is the wall box's length. The sides merged at ±thickness/2 and the ends merged at ±end are the box's own faces |
| Layout.SlideWithinWall | CustomizableHouse.cs:2754-2755 | The shared placement formula centres an opening at 0 and is odd in the placement. For placements in [-1, 1] it keeps the opening within the usable length, and at ±1 the opening is flush with that length's end |
| Layout.DoorOffset | CustomizableHouse.cs:2750-2755 | A door's cutter rests on the wall's base and slides by the placement over the wall less the margins, the door and its frame |
| Layout.ReservedWidthMatchesDetails | CustomizableHouse.cs:2781-2810 | The wall pass reserves shutter width exactly when the window details draw shutters (CustomizableHouse.cs:2962-2984), although the two use different tests. The reserved width exceeds 0.1, plus a frame width for outline frames |
| Layout.WindowOffset | CustomizableHouse.cs:2812-2819 | A window's cutter slides by the placement over the wall less the margins, the pane and its reserved width, and lies in the wall's plane |
| Layout.WindowSill | CustomizableHouse.cs:2812-2819 | On floor 1 a window's sill is windowHeight plus half a frame above the wall's base. Each floor up raises it by one floor height |
| Layout.GableWindowSpan | CustomizableHouse.cs:2869-2873 | A gable window slides like any opening of its diameter. One diameter above its centre is the top of the wall at vertical placement -1 and the ridge at +1 |
| Layout.StoreWindowOffset | CustomizableHouse.cs:2905-2910 | A store window's cutter slides over the wall less the margins, the window and 0.1 |
| Layout.StoreIndentSpan | CustomizableHouse.cs:2912-2919 | The indent reaches from the wall's base to a quarter frame above the window and opens nudge beyond the outer face. When the wall can be indented, it stops inside the wall |
| Layout.AwningPlacement | CustomizableHouse.cs:3286-3336 | An awning exists exactly for every type but none, and the single awning stays centred. The others sit at placement times their range, so a large awning at 0.5 is 1.5 to the side, and placements in [-1, 1] stay within the range |
| Layout.BalconetPlacement | CustomizableHouse.cs:3343-3353 | A balconet exists exactly for every type but none. Only the small one slides, by at most 1.6. The fancy one sits 0.18 above the single one |
| Layout.FrameShape | CustomizableHouse.cs:3183-3221 | A frame has 3 pieces per ring, or 4 with a bottom, and the left and right posts mirror each other. With an inner ring, piece k of it is piece k of the outer ring mirrored through the wall's mid-plane, and it goes to the outer-inner list |
| Layout.CeilingSpacing | CustomizableHouse.cs:2157-2179 | Consecutive ceilings are one floor height apart, and the top ceiling lies at the house's height |
| Layout.MiddleBeamsSpread | CustomizableHouse.cs:2184-2237 | The middle beams split the span into count + 1 equal gaps, lie strictly inside it, and are symmetric about its centre |
| Layout.EdgeBeamsFlush | CustomizableHouse.cs:2213-2237 | There are two connecting beams, and they lie flush against opposite inner walls along the longer side |
| Layout.RoundToInt | CustomizableHouse.cs:3437 | Mathf.RoundToInt returns an integer within 0.5 of its argument, and the even one on a tie |
| Layout.PorchOnWall | CustomizableHouse.cs:3367-3377 | A porch no longer than its wall stays on the wall's usable length, and at placement ±1 it is flush with the wall's end |
| Layout.PorchStairFlights | CustomizableHouse.cs:3386-3416 | The middle flight is there exactly when asked for. A side flight is there only when asked for, and never beside a closed corner at that end |
| Layout.DefaultPorchSteps | CustomizableHouse.cs:3437 | With the default foundation height, porch stairs have two steps |
| Layout.PorchColumnRow | CustomizableHouse.cs:3531-3547 | The column count is floor(distance / frequency) + 1, never 1, and the spacing times (count - 1) is the row's length |
| Layout.ColumnRowLayout | CustomizableHouse.cs:3551-3588 | The columns run from end to end of the row and are symmetric. Column i is skipped exactly when the middle stairs are on and strictly within 0.3 spacings of it. At most one column is skipped |
| Layout.SkippedColumnsApart | CustomizableHouse.cs:3551-3560 | Two different columns are never both skipped |
| Layout.InnerWallHeight | CustomizableHouse.cs:3690-3708 | An inner wall stands on its storey's floor and reaches nudge above the underside of the ceiling over it |
| Layout.InnerWallAlong | CustomizableHouse.cs:3694-3708 | An inner wall with a width fraction in [0, 1] and placements in [-1, 1] stays inside the house along its length |
| Layout.InnerDoorOnWall | CustomizableHouse.cs:3714-3731 | An inner door rests on the inner wall's base, and at placement 1 it is flush with the wall's end, whether or not the wall is rotated |
| Layout.StairFootprintInside | CustomizableHouse.cs:3768-3780 | A staircase whose turned footprint fits the house stays inside it for placements in [-1, 1], and starts on its storey's floor |
| Layout.BalustersRise | CustomizableHouse.cs:3884-3891 | A staircase of n >= 1 steps gets n + 1 balusters in a line at the railing's inset, one run (depth / n) apart, the first half a run in less the 0.08 offset. The first stands one step up, each of the next n - 1 rises one step (height / n), and the last step's baluster and the top one both stand at the floor height |
| Generators.AddStairRailing | CustomizableHouse.cs:3876-3891 | The loop places exactly StairBalusters: one per step and then the top one, at the inset of the chosen side. With zero steps the top baluster's position divides by zero, and `finite` is false exactly then |
| Generators.StairCutsItsCeiling | CustomizableHouse.cs:3766-3835 | A staircase finds a ceiling in the ceiling list exactly when its floor is in 1..floors (otherwise the source's index fails). That ceiling is the one CreateCeilings made above the stairs' floor: its upper face is nudge below the stairs' top, and its underside is one ceiling thickness lower |
| Layout.ChimneyAgainstWall | CustomizableHouse.cs:4009-4014 | At placement ±1 the chimney's inner side is on the plane of the walls' outer faces. At placement 0 it is centred |
| Layout.ChimneyExtrudeShape | CustomizableHouse.cs:4024-4060 | The extruded band covers the base plus each extrusion on its own side and starts at the base's bottom. For a positive band, the top edge rises exactly when the angle is above one half |
| PBUtility.PbObject.constructor | PBUtility.cs:48-56 | A ProBuilder object holds the given mesh and transform |
| PBUtility.RotationIgnoresSide | PBUtility.cs:116-133 | With useRotation, the given side does not matter. A face qualifies exactly when all its vertices lie within 0.01 of its first vertex on the axis |
| PBUtility.MergeableFaces | PBUtility.cs:112-157 | The scan selects exactly the faces whose every vertex is strictly within 0.01 of the side on the axis, and counts them |
| PBUtility.PickedCount | PBUtility.cs:159-163 | Splitting the faces for a merge sends each face to exactly one side |
| PBUtility.SplitKeepsIndices | PBUtility.cs:159-163 | Splitting loses or invents no vertex index |
| PBUtility.MergeFacesCount | PBUtility.cs:159-163 | Merging k >= 1 faces removes k - 1 of them, and merging none changes nothing. The vertex indices stay the same multiset |
| PBUtility.KeptFrom | PBUtility.cs:159-163 | Every face kept by a merge is one of the faces not chosen |
| PBUtility.PickedFrom | PBUtility.cs:159-163 | Every merged face comes from the chosen faces |
| PBUtility.AllIndicesOnSide | PBUtility.cs:134-151 | A list of faces lies on a side exactly when each of its faces does |
| PBUtility.MergeKeepsValid | PBUtility.cs:159-163 | A merge leaves every face with a first vertex and with only existing vertex indices |
| PBUtility.SecondMergeFindsOne | PBUtility.cs:110-167 | After a merge on a side, exactly one face (the merged one) qualifies there, so merging the same side again changes nothing |
| PBUtility.RemainingMerge | PBUtility.cs:172-183 | Merging all but the last m faces moves those m faces to the front, in order, followed by one face with all the others' indices |
| PBUtility.MergeFacesOfSameSide | PBUtility.cs:110-167 | The faces merge, and 1 is returned, exactly when more than one face qualifies. Otherwise 0 is returned and the object is unchanged. The vertices and the transform are kept |
| PBUtility.MergeRemainingFaces | PBUtility.cs:172-183 | The faces [0, count - m) are merged and the last m are left out. The vertices and the transform are kept |
| PBUtility.SetUVTiling | PBUtility.cs:190-194 | Manual UVs are off and both UV scales equal the tiling. The indices and the material are untouched |
| PBUtility.Template.constructor | PBUtility.cs:27-43 | A cutter template holds its shape and placement |
| PBUtility.CutoutHere | PBUtility.cs:38-42 | The one-argument Cutout records the template's position at that moment, as a value that later moves of the template do not change |
| PBUtility.SubtractionsDepth | PBUtility.cs:89-93 | There is one subtraction per cut |
| PBUtility.SubtractionsAppend | PBUtility.cs:89-93 | Cutting by a + b is cutting by a and then by b, in list order |
| PBUtility.Subtract | PBUtility.cs:89-93 | Each cut, in list order, moves its cutter to the recorded location and subtracts it from the running result. Each cutter ends at the location of the last cut that used it |
| PBUtility.CutOutObjects | PBUtility.cs:75-100 | The object's mesh becomes the CSG result of all the cuts, taken at the origin without rotation. Its position and rotation are restored, and cutter rotations are kept |
| PBUtility.CutOutObject | PBUtility.cs:48-70 | The same for one cut. The cutter is left at the cut's location |
| Openings.DoorCutsPerDoor | CustomizableHouse.cs:2744-2768 | There is exactly one cut per door on wall i, in door order, at that door's offset, with one details request at the same place. Doors on other walls give nothing |
| Openings.AddOuterDoors | CustomizableHouse.cs:2744-2768 | The door loop appends exactly DoorParts' cuts and details. Without foundation edges the foundation edge is untouched; with them its mesh ends cut by the door cutter below each door on the wall, in door order (DoorEdge), in place. The cutter's rotation is kept |
| Openings.EdgeBelowDoors | CustomizableHouse.cs:2757-2762 | The foundation edge gets one cut per door cut of the wall, each at that cut's x and at height and depth 0; with no door on the wall the edge is left as it was |
| Openings.DoorEdgeStep | CustomizableHouse.cs:2748-2762 | One more door cuts the edge below it when it is on wall i, and leaves the edge as it was otherwise |
| Openings.WindowCutsPerPlacement | CustomizableHouse.cs:2812-2835 | A window's placements give one cut each for the alpha types and none otherwise, and one details request each unless the type is none. Every cut is at that placement's window offset |
| Openings.AddWindows | CustomizableHouse.cs:2772-2838 | The window loop appends exactly WindowParts' cuts and details |
| Openings.AddWindowPlacements | CustomizableHouse.cs:2812-2835 | The placement loop appends exactly the cuts and details of that window's placements |
| Openings.AsWrittenGableMismatch | CustomizableHouse.cs:2850 | As written, the cutter is chosen by one type test and the details by another (CustomizableHouse.cs:3014). An override with type none is cut round, yet draws type none with sprite index -1. A stale round override is cut round, yet draws a half-round window |
| Openings.GableCutsMatchDetails | CustomizableHouse.cs:2844-2892 | When the details' type also picks the cutter, every details request draws an existing sprite. A cut is made exactly for the see-through types, and the hole is round exactly when the drawn window is |
| Openings.AddGableWindows | CustomizableHouse.cs:2844-2892 | The gable loop appends exactly GableParts' cuts and details, and keeps both cutters' rotations. It uses the corrected type choice of the Findings row (the details' choice), not the cutter choice of line 2850 |
| Openings.StoreCutsPerPlacement | CustomizableHouse.cs:2905-2922 | Every store placement is cut. With an indent the wall can take, each placement adds the indent cut and then the window cut pushed back by the indent's thickness. Otherwise it adds one cut at the offset. There is one details request per placement |
| Openings.AddStoreWindows | CustomizableHouse.cs:2897-2926 | The store-window loop appends exactly StoreParts' cuts and details |
| Openings.AddStorePlacements | CustomizableHouse.cs:2905-2922 | The placement loop appends exactly that store window's parts |
| Coalesce.SideMerge | CustomizableHouse.cs:2699-2700 | One side merge keeps the faces valid and counts 0 or 1 |
| Coalesce.SideMergeKeepsIndices | CustomizableHouse.cs:2699-2700 | A side merge keeps every vertex index of the wall, as often as it occurred |
| Coalesce.WallSides | CustomizableHouse.cs:2697-2715 | The two faces are at ±thickness/2 and the two ends at ±end, in merge order |
| Coalesce.SidesMerged | CustomizableHouse.cs:2697-2715 | The four merges keep the faces valid, and the merge count is between 0 and 4 |
| Coalesce.SidesMergedKeepsIndices | CustomizableHouse.cs:2697-2715 | The four merges keep the wall's vertex indices |
| Coalesce.SwapKeepsIndices | CustomizableHouse.cs:2721-2726 | Swapping the first two faces keeps the vertex indices |
| Coalesce.FinishKeepsWall | CustomizableHouse.cs:2697-2726 | The whole coalescing step loses no corner and keeps the faces valid. When some but not all faces were side-merged, the wall is the merged faces followed by one face of all the rest |
| Coalesce.FinishKeepsFaces | CustomizableHouse.cs:2717-2726 | The last step succeeds exactly when some side merged or the wall has two faces to swap. It keeps the faces valid and the indices unchanged |
| Coalesce.RemainingKeepsFaces | CustomizableHouse.cs:2717-2720 | Merging the remaining faces keeps them valid and keeps the indices |
| Coalesce.SwapKeepsValid | CustomizableHouse.cs:2721-2726 | Swapping the first two faces keeps every face valid |
| Coalesce.MergeSide | CustomizableHouse.cs:2699-2700 | One MergeFacesOfSameSide call on the wall does what SideMerge says |
| Coalesce.MergeSides | CustomizableHouse.cs:2697-2715 | The four calls do what SidesMerged says |
| Coalesce.CoalesceFaces | CustomizableHouse.cs:2697-2726 | The wall's faces become FinishedFaces, and `ok` is false exactly where the source would index a missing face |
| WallPass.ExtensionCutouts | FullHouse.cs:85-118 | The overridden AddExtensionCutouts appends one freshly placed cutter per extension cutter of this wall, both to the cutters to destroy and to the cuts |
| WallPass.OpeningCutsUseTemplates | CustomizableHouse.cs:2687-2690 | Every opening cut of a wall is made by one of the six shared templates |
| WallPass.DoorCutsWith | CustomizableHouse.cs:2744-2768 | Door cuts use the door template |
| WallPass.WindowCutsWith | CustomizableHouse.cs:2772-2838 | Window cuts use the window template |
| WallPass.GableCutsWith | CustomizableHouse.cs:2844-2892 | Gable cuts use the full or the half arch |
| WallPass.StoreCutsWith | CustomizableHouse.cs:2897-2926 | Store cuts use the store or the indent template |
| WallPass.OpeningCuts | CustomizableHouse.cs:2687-2690 | Doors, windows, gable windows and store windows append their parts in that order, and the templates' rotations are kept. With foundation edges, the edge ends cut below the wall's doors (DoorEdge), in place |
| WallPass.CollectCuts | CustomizableHouse.cs:2685-2691 | The cuts of wall i are the opening parts followed by the extension cutters. Every cutter is unrotated and is a template or newly created. The foundation edge is untouched, or with foundation edges cut below the wall's doors |
| WallPass.DetailWall | CustomizableHouse.cs:2679-2726 | One iteration records the planned cuts and details, and grows the extension cutters by this wall's. It leaves the wall cut and coalesced, in place, with its rotation restored, and the wall's foundation edge as EdgeAfterPass says |
| WallPass.CutAndCoalesce | CustomizableHouse.cs:2693-2726 | The wall is cut by all its cuts and then coalesced. Its position and the kept cutters' rotations are preserved |
| WallPass.CutWall | CustomizableHouse.cs:2681-2695 | The wall, at identity rotation, is cut by all cutters at once and then turned back |
| WallPass.UnturnedCuts | CustomizableHouse.cs:2681-2693 | With no cutter turned, the subtraction tree is the unrotated one |
| WallPass.MakeTemplates | CustomizableHouse.cs:2649-2673 | The six templates are fresh, unrotated and shaped as the source makes them (door, window, full and half arch, store window, indent) |
| WallPass.ExtensionCount | CustomizableHouse.cs:2675-2691 | No wall before the first places no extension cutter |
| WallPass.ExtensionCountGrows | CustomizableHouse.cs:2675-2691 | The list of extension cutters only grows along the walls |
| WallPass.WallCutsOfCollected | CustomizableHouse.cs:2685-2691 | The collected cuts are exactly the plan for wall i |
| WallPass.WallCutsPrefix | CustomizableHouse.cs:2675-2691 | Extension cutters placed for later walls leave an earlier wall's cuts as they were |
| WallPass.PassStep | CustomizableHouse.cs:2677-2727 | One more wall done keeps the record of the earlier walls |
| WallPass.DetailNext | CustomizableHouse.cs:2677-2727 | One loop turn details wall i and its foundation edge, grows the record by that wall, and changes no other wall or edge |
| WallPass.AddWallDetails | CustomizableHouse.cs:2647-2739 | Every exterior wall, in order, gets its planned cuts and details and ends cut and coalesced. Each wall's foundation edge ends cut below that wall's doors when the style has foundation edges, and as it was otherwise. There is one result per wall, and the store and indent templates are distinct |
| WallPass.DetailWalls | CustomizableHouse.cs:2677-2727 | The loop over the walls establishes the record for all of them, and leaves every foundation edge as EdgeAfterPass says |
| Generators.HouseParts.constructor | CustomizableHouse.cs:2157-2163 | The part lists start empty |
| Generators.HouseParts.CreateCeilings | CustomizableHouse.cs:2157-2179 | The house gets one ceiling per floor 1..floors, and the rafters when they are on. Everything created is added to allObjs in order, and the other lists are kept |
| Generators.HouseParts.CreateRafters | CustomizableHouse.cs:2184-2240 | Every ceiling, in order, gets its block of beams, appended to beams and allObjs |
| Generators.HouseParts.AddCeilingRafters | CustomizableHouse.cs:2186-2237 | Ceiling j gets its middle beams and then its two connecting beams |
| Generators.HouseParts.AddMiddleBeams | CustomizableHouse.cs:2192-2211 | The rafter loop appends the middle row, each beam one gap further than the one before |
| Generators.HouseParts.CreatePorchColumns | CustomizableHouse.cs:3545-3590 | The standing columns go to the trim and allObjs lists. With a railing type, the railings go to the railing list. The railing parent survives unless no type is set and some railing would be drawn |
| Generators.HouseParts.PlaceColumns | CustomizableHouse.cs:3550-3590 | The column loop with its `stopped` flag appends exactly the standing columns and the drawn railings |
| Generators.CeilingParts | CustomizableHouse.cs:2166-2171 | There is one ceiling per floor, and ceiling i is the box above floor i + 1 |
| Generators.MiddleRow | CustomizableHouse.cs:2192-2211 | Middle beam k sits at its offset in the span |
| Generators.BeamsOf | CustomizableHouse.cs:2192-2237 | Each beam is tagged with its ceiling |
| Generators.RaftersLayout | CustomizableHouse.cs:2184-2240 | Every ceiling gets MiddleBeams + 2 beams, one after the other. Beam i of ceiling j is its i-th middle beam or, past the middle row, an edge beam |
| Generators.RaftersCount | CustomizableHouse.cs:2184-2240 | n ceilings carry n * (MiddleBeams + 2) beams |
| Generators.RailingBetweenColumns | CustomizableHouse.cs:3566-3584 | A drawn railing joins two standing neighbours, sits midway between them, and spans the gap between their surfaces |
| Generators.ColumnsStanding | CustomizableHouse.cs:3551-3588 | Every column either stands or is skipped. With no middle stairs all stand, and at most one is skipped |
| Generators.RailingsListed | CustomizableHouse.cs:3566-3584 | A railing is listed exactly for standing neighbours with no stairs between them |
| Generators.RailingsBefore | CustomizableHouse.cs:3566-3584 | Railings are listed from left to right |
| Generators.RailingsApart | CustomizableHouse.cs:3566-3584 | Railings before different columns are different |
| Generators.GableMergedCount | CustomizableHouse.cs:2485-2494 | A gable with at most six faces keeps them. Otherwise it ends with 4 + (n - 4) mod 3 faces, that is four to six |
| Generators.GableMergedIndices | CustomizableHouse.cs:2485-2494 | The gable's merges lose no vertex index |
| Generators.GableMergeStep | CustomizableHouse.cs:2488-2493 | One merge of the first four faces leaves three fewer faces and the same indices |
| Generators.MergeGableFaces | CustomizableHouse.cs:2483-2494 | The merge loop leaves the faces GableMerged says, keeping the vertices and the transform |
| Generators.SceneObject.constructor | CustomizableHouse.cs:2040-2052 | A scene object starts with its name, not destroyed |
| Generators.Find | CustomizableHouse.cs:2042-2044 | transform.Find finds a child exactly when one has the name, and what it returns is such a child |
| Generators.Displaced | CustomizableHouse.cs:2042-2049 | The object destroyed is never the new one. For a filled slot, it is the held object exactly when that differs from the new one |
| Generators.RemakeIdempotent | CustomizableHouse.cs:2046-2051 | Remaking a slot with the object it holds destroys nothing |
| Generators.RemakeObject | CustomizableHouse.cs:2040-2052 | The slot ends holding the new object. The displaced object is destroyed and nothing else is |
| Extensions.HouseCuttersPerExtension | FullHouse.cs:87-117 | There is one cutter per extension on wall i, in list order, with the geometry of FullHouse.cs:108-112, and none for any other extension |
| Extensions.Placed | FullHouse.cs:114-115 | A freshly placed cutter's cut is at the cutter's position |
| Extensions.AddHouseCutouts | FullHouse.cs:85-118 | Each cutter is a fresh, unrotated cube of the planned size at the planned place. It is appended to the cutters to destroy and, as a cut, to the wall's cuts |
| Extensions.FacedWallPairing | Extension.cs:111-131 | The extension's wall i faces the house wall opposite to it. So exactly one of the four walls, the one opposite the attachment wall, gets a cutter, and its sign is the house's sign for the wall it faces |
| Extensions.AddExtensionCutouts | Extension.cs:106-142 | With a faced wall the list grows by one fresh cube at the planned place, and the cut is recorded there. Otherwise nothing changes |
| Extensions.CuttersMeet | FullHouse.cs:108-112 | In house coordinates, with the extension placed as SetUpExtension places it (CustomizableHouse.cs:4092-4121), the house's cut is centred on the extension and the extension's cut on the house. Each is as wide as the other's interior, and both reach from the wall's foot to the lower height less the ceiling |
| Extensions.CuttersCentred | Extension.cs:133-137 | The centring half of CuttersMeet |
| Extensions.CutterSpans | Extension.cs:133-137 | The size half of CuttersMeet |
| Extensions.StretchPerRoof | Extension.cs:181-197 | Each roof gets one stretch by the distance and one correction the other way by the fixed amount |
| Extensions.StretchSwap | Extension.cs:181-197 | Front/right and back/left exchange the two roofs' shifts |
| Extensions.RoofMovesByWall | Extension.cs:149-197 | Nothing moves unless the roof is to be extended and can be. Then the stretch is not finite (None) exactly when the house gable it divides by is zero. Otherwise opposite walls use the same distance, with the roles of the roofs swapped |
| Extensions.StretchNeedsGable | Extension.cs:160-175 | An extending extension's stretch is not finite exactly when the house's active gable is the wrong one: front and back extensions need a side gable, right and left ones a front gable. For the house as first created, that is exactly the front and back extensions |
| Extensions.Reassign | Extension.cs:181-197 | The same shifts, applied to the other roof |
| Extensions.TranslateVertices | Extension.cs:185-195 | One shift moves the named vertices by dz and keeps the faces and the transform |
| Extensions.ApplyMove | Extension.cs:185-195 | One shift reaches the roof it names, and the other roof is unchanged |
| Extensions.ApplyMoves | Extension.cs:185-195 | The shifts apply in order, each to its roof |
| Extensions.ExtendRoofs | Extension.cs:147-199 | `finite` is false exactly when RoofMoves is None. Otherwise the roofs end shifted by exactly RoofMoves. Faces and transforms are kept |
| Extensions.SetUps | FullHouse.cs:141-144 | Each extension is set up in list order |
| Extensions.SetUpThenGenerate | FullHouse.cs:126-130 | Every extension, in list order, is set up and then generated right away |
| Extensions.Building.constructor | FullHouse.cs:37 | A building starts with no extensions and no extensions root |
| Extensions.Building.SetEX | Extension.cs:77-81 | A house stores the list. An extension discards it and keeps answering an empty list |
| Extensions.Building.CreateExtensions | FullHouse.cs:123-131 | A house sets up the root, then sets up and generates each extension in order. An extension does nothing (Extension.cs:201) |
| Extensions.Building.RemakeExtensions | FullHouse.cs:136-146 | Only a house with no extensions root sets it up and sets up (without generating) each extension. Otherwise nothing changes |
| Assignment.ListOrderRanks | CustomizableHouse.cs:4134-4153 | The passes visit each of the 18 object lists exactly once, in the source's order |
| Assignment.MaterialFacesMeaning | CustomizableHouse.cs:4201-4217 | Face i ends with the second material when it is the second face, and with the main one otherwise. Nothing else about any face changes |
| Assignment.MaterialFacesIdempotent | CustomizableHouse.cs:4201-4217 | Applying the same materials again changes nothing |
| Assignment.TiledFaces | CustomizableHouse.cs:4240-4250 | Every face gets SetUVTiling with the curve of its tiling (the second tiling on the second face) |
| Assignment.TiledFacesIdempotent | CustomizableHouse.cs:4236-4252 | Applying the same tiling again changes nothing |
| Assignment.MaterialsAndTilingsCommute | CustomizableHouse.cs:4322-4326 | The material and tiling passes touch different parts of a face, so their order does not matter |
| Assignment.Sprite.constructor | CustomizableHouse.cs:4222-4231 | A sprite holds its colour |
| Assignment.Members | CustomizableHouse.cs:4134-4153 | A list holds exactly the objects tagged with it |
| Assignment.MembersExactly | CustomizableHouse.cs:4134-4153 | Each of distinct objects is in its own list and in no other |
| Assignment.MembersDistinct | CustomizableHouse.cs:4134-4153 | The members of a list of distinct objects are distinct |
| Assignment.AssignMaterialToPbObjects | CustomizableHouse.cs:4201-4217 | Every object of the list gets the material pass. Only faces change: every object keeps its vertices, position and rotation |
| Assignment.AssignTilingToPbObjects | CustomizableHouse.cs:4236-4252 | Every object of the list gets the tiling pass. Only faces change: every object keeps its vertices, position and rotation |
| Assignment.TileObject | CustomizableHouse.cs:4240-4250 | The face loop leaves exactly TiledFaces. The object keeps its vertices, position and rotation |
| Assignment.AssignColorToSprites | CustomizableHouse.cs:4222-4231 | Every sprite of the list ends with the colour |
| Assignment.House.constructor | CustomizableHouse.cs:4155-4156 | A house holds its textures, its lists and the textures last applied, and each object and sprite is in exactly one list (Valid) |
| Assignment.House.AssignMaterials | CustomizableHouse.cs:4134-4157 | Each object carries its list's material pass. The material cache becomes the textures, and the other caches are kept. Only faces change: every object keeps its vertices, position and rotation |
| Assignment.House.PaintNextList | CustomizableHouse.cs:4136-4153 | The next list in the order is painted, and the rest are untouched. Only faces change: every object keeps its vertices, position and rotation |
| Assignment.House.AssignListMaterials | CustomizableHouse.cs:4136-4153 | One call paints exactly that list's objects. Only faces change: every object keeps its vertices, position and rotation |
| Assignment.House.AssignColors | CustomizableHouse.cs:4162-4169 | Each sprite ends with its list's colour, and the colour cache becomes the colours |
| Assignment.House.AssignListColors | CustomizableHouse.cs:4164-4166 | One call colours exactly that list's sprites |
| Assignment.House.AssignTilings | CustomizableHouse.cs:4174-4196 | Each object carries its list's tiling pass, and the tiling cache becomes the tilings. Only faces change: every object keeps its vertices, position and rotation |
| Assignment.House.TileNextList | CustomizableHouse.cs:4176-4193 | The next list in the order is tiled, and the rest are untouched. Only faces change: every object keeps its vertices, position and rotation |
| Assignment.House.AssignListTilings | CustomizableHouse.cs:4176-4193 | One call tiles exactly that list's objects. Only faces change: every object keeps its vertices, position and rotation |
| Assignment.House.ApplyMaterialChanges | CustomizableHouse.cs:4257-4269 | The pass runs exactly when the cache differs from the textures. Afterwards they match, so a second call does nothing. Only faces change: every object keeps its vertices, position and rotation |
| Assignment.House.ApplyColorChanges | CustomizableHouse.cs:4274-4285 | The colour pass runs exactly when the colour cache differs. Afterwards it matches |
| Assignment.House.ApplyTilingChanges | CustomizableHouse.cs:4290-4302 | The tiling pass runs exactly when the tiling cache differs. Afterwards it matches. Only faces change: every object keeps its vertices, position and rotation |
| Assignment.House.AssignEverything | CustomizableHouse.cs:4322-4333 | Every face ends with its list's material and tiling, and every sprite with its list's colour. All three caches match. Only faces change: every object keeps its vertices, position and rotation |
| SerializeUtility.CombineEndsWith | SerializeUtility.cs:72 | A non-empty second path ends the combination. An empty one leaves the first unchanged |
| SerializeUtility.CombinePaths | SerializeUtility.cs:67-75 | The loop is the left fold of Path.Combine from "" |
| SerializeUtility.CombineAllJoins | SerializeUtility.cs:67-75 | Plain components are joined by exactly one separator each |
| SerializeUtility.CombineAllEndsWith | SerializeUtility.cs:67-75 | The last non-empty component ends the path |
| SerializeUtility.WithExtensionMeaning | SerializeUtility.cs:56-59 | The saved name always ends with ".zlb", and adding it again changes nothing, so it is never doubled. A name is kept exactly when it already ends with ".zlb" |
| SerializeUtility.GetPath | SerializeUtility.cs:52-61 | GetPath returns SavePath |
| SerializeUtility.SavePathEnds | SerializeUtility.cs:52-61 | Every save path ends with ".zlb", and with the file name (extension added) when that is non-empty |
| SerializeUtility.SaveRootPath | SerializeUtility.cs:54 | The fixed root is "Assets/Standard Assets/Resources" |
| SerializeUtility.PlainSavePath | SerializeUtility.cs:52-61 | With plain names, the path is root/directory/filename.zlb |
| SerializeUtility.StripRoundTrip | SerializeUtility.cs:85 | Stripping a name that the extension was added to gives the name back |
| SerializeUtility.StripRestoresName | SerializeUtility.cs:85 | Adding the extension back to a stripped listed ".zlb" name restores it |
| SerializeUtility.StripNames | SerializeUtility.cs:82-87 | Each returned name is the file name less its last four characters, in order |

## Left out

- ProBuilder and CSG internals are foreign code, whose source is not part of this model: `Subdivide`, `TranslateVertices`, `ToMesh`/`Refresh`, `pb_MeshImporter`, the shape generators and CSG subtraction. `MergeFaces` and the subtraction are modelled by their effect, as described above. `TranslateVertices` and the CSG result are function parameters.
- The hard-coded vertex-index tables of the gables, dormers, porch roof and chimney cap depend on ProBuilder's tessellation order. The roof stretch keeps them only as names (Triangles1 to Triangles4).
- Unity transforms, quaternions, GameObject creation, `DestroyImmediate` (modelled only as the `destroyed` flag that RemakeObject sets) and the renderer-bounds test that deletes rafters are not modelled. A rotation is a number of quarter turns, and a generated cube is a value (name, box).
- Sprites and their scaling (SpriteUtility.cs), HouseCustomizer.cs wiring, and the editor scripts are editor glue, not part of the core.
- File I/O is not modelled: `Load`, `Write`, JSON, and the directory listing of `GetFiles`. The names of the listed files are an input.
- SerializeUtility.Combine: Path.Combine is modelled for a '/' separator only. Backslashes, drive letters and invalid-character checks are not modelled.
- Float rounding is ignored, and lengths are exact reals.
- Layout.PorchColumnRow requires at least two columns, because the source divides by zero with exactly one.
- The tiling curve `Pow(100 / (t + NUDGE + 100), 10)` is a function parameter of the house.
- Extension.cs reads `hExt.wall`, `hExt.position`, `hExt.extendRoof` and `hExt.Extendable` (Extension.cs:131, 136, 149, 160, 181), and nothing in the source assigns `hExt`. `extendRoof` and `Extendable` are not members of the HouseExtension struct (CustomizableHouse.cs:649-664). CustomizableHouse.cs:4120-4121 writes `e.extent.exWall`/`exPosition`, which Extension.cs neither declares nor reads. The model takes the wall, the position and both flags as parameters of the extension operations.
- Extensions.ExtendRoofs: with a zero house gable, the source shifts the roofs by an infinite or NaN distance. Reals have no such values, so the model reports `finite == false` and leaves the roofs as they were.
- Openings.AddGableWindows: the wall pass cuts gable windows with the corrected type choice (the one the details use), not the `typeOverride == none` test of CustomizableHouse.cs:2850. The as-written choice is modelled by AsWrittenGablePart and shown by Openings.AsWrittenGableMismatch.
- Generators.AddStairRailing: it models the balusters only. The bottom and top rails (CustomizableHouse.cs:3893-3901), the guard railings (AddCutoutRailing, AddFrontCutoutRailing) and the baluster prefab are scene-object creation, so they are not modelled.
- Generators.AddStairRailing: with zero steps the source places the top baluster at a non-finite position; the model reports `finite == false` and places only the per-step balusters (none).
- WallPass.AddWallDetails: the templates and extension cutters are returned, not destroyed at the end.
- Coalesce.CoalesceFaces: a wall with fewer than two faces and no side merge makes the source throw; the model returns `ok == false` instead.
- Dormers (CreateDormers) and CreateGable's subdivision, vertex raise and callback are foreign mesh edits; only the gable's face-merge loop is modelled.
- The railing sprite chosen for a porch railing is kept as its type, not as a sprite index.
- Assignment.AssignMaterialToPbObjects: null objects, which the source skips, do not exist in the model.
- Assignment.House.AssignMaterials: it requires every object of a list with a second face to have that face. The source throws otherwise.
- The object lists are kept as one sequence of objects, each tagged with its list. The 18 calls of AssignMaterials and AssignTilings are a loop over the lists in source order.
- Assignment.House.ApplyMaterialChanges, ApplyColorChanges, ApplyTilingChanges and AssignEverything do not model the recursion into each extension. It repeats the same pass on another house.
- RefreshObjects only calls ProBuilder's ToMesh and Refresh, so it is left out.
- NUDGE is the constant HouseNudge (0.001) for a house and ExtensionNudge (0.002) for an extension; the wall pass takes the one for its role.

## Findings

| source | as written | input that shows it | evidently intended | confidence | as-written member | corrected member |
|---|---|---|---|---|---|---|
| CustomizableHouse.cs:2850 | AddGableWindows picks the cutter and whether to cut by `typeOverride == none ? house type : typeOverride`. CreateGableWindowDetails (CustomizableHouse.cs:3014) draws by `overrideDetails ? typeOverride : house type` | A gable window with overrideDetails on and typeOverride none, on a house whose gable windows are RoundAlpha: cut round, then drawn with sprite index -1. Or overrideDetails off with a stale RoundAlpha override on a SemiCircleAlpha house: a round hole under a half-round sprite | One choice of type for both the cut and the details | not executed | Openings.AsWrittenGableMismatch | Openings.GableCutsMatchDetails |
