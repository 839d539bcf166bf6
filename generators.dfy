// The generators of CustomizableHouse that build their parts in loops: the
// ceilings with their rafters, the porch columns with the railings between
// them, the face-merging loop of CreateGable, and RemakeObject, which swaps
// the object a hierarchy slot holds.
//
// A generated cube is a value (its name, parent and box): the shape
// generator and the Unity hierarchy are foreign. The house's object lists
// are fields of a class that the generators append to.

module Generators {
  import opened HouseTypes
  import opened Layout
  import opened PBUtility

  /// A generated part as the object lists hold it.
  datatype Part =
    | Ceiling(box: Box)
    | Beam(ceiling: nat, box: Box)
    | Column(x: real)
    | RailingSprite(x: real, width: real, height: real, kind: PorchRailingType)

  /// The lists of generated parts CustomizableHouse keeps; allObjs holds
  /// every ProBuilder object, the sprites excepted.
  class HouseParts {
    var allObjs: seq<Part>
    var ceilings: seq<Part>
    var beams: seq<Part>
    var outerTrim: seq<Part>
    var porchRailings: seq<Part>

    constructor ()
      ensures allObjs == [] && ceilings == [] && beams == [] && outerTrim == [] && porchRailings == []
    {
      allObjs, ceilings, beams, outerTrim, porchRailings := [], [], [], [], [];
    }

    // ------------------------------------------------------------- ceilings

    /// CreateCeilings: a ceiling above each floor 1 .. floors, then, with
    /// rafters on, the beams under each of them.
    method CreateCeilings(d: Dims, ao: AdvancedOptions, rafters: bool, nudge: real)
      modifies this
      ensures ceilings == CeilingParts(d, ao, nudge, Floors(d))
      ensures beams == if rafters then RafterParts(d, ao, Floors(d)) else []
      ensures allObjs == old(allObjs) + ceilings + beams
      ensures outerTrim == old(outerTrim) && porchRailings == old(porchRailings)
    {
      ceilings, beams := [], [];
      var i := 1;
      while i <= d.floors
        invariant 1 <= i && (i <= d.floors + 1 || d.floors < 1)
        invariant i == 1 || d.floors >= 1
        invariant ceilings == CeilingParts(d, ao, nudge, i - 1)
        invariant beams == []
        invariant allObjs == old(allObjs) + ceilings
        invariant outerTrim == old(outerTrim) && porchRailings == old(porchRailings)
      {
        var c := Ceiling(CeilingBox(d, ao, i, nudge));
        ceilings, allObjs := ceilings + [c], allObjs + [c];
        i := i + 1;
      }
      assert |ceilings| == Floors(d);
      if rafters {
        CreateRafters(d, ao);
      }
    }

    /// CreateRafters: the beams of every ceiling, ceiling by ceiling.
    method CreateRafters(d: Dims, ao: AdvancedOptions)
      modifies this
      ensures beams == old(beams) + RafterParts(d, ao, |ceilings|)
      ensures allObjs == old(allObjs) + RafterParts(d, ao, |ceilings|)
      ensures ceilings == old(ceilings) && outerTrim == old(outerTrim) && porchRailings == old(porchRailings)
    {
      var j := 0;
      while j < |ceilings|
        invariant 0 <= j <= |ceilings|
        invariant beams == old(beams) + RafterParts(d, ao, j)
        invariant allObjs == old(allObjs) + RafterParts(d, ao, j)
        invariant ceilings == old(ceilings) && outerTrim == old(outerTrim) && porchRailings == old(porchRailings)
      {
        AddCeilingRafters(d, ao, j);
        RafterStep(d, ao, j);
        AppendAssoc(old(beams), RafterParts(d, ao, j), CeilingRafters(d, ao, j));
        AppendAssoc(old(allObjs), RafterParts(d, ao, j), CeilingRafters(d, ao, j));
        j := j + 1;
      }
    }

    /// The beams under ceiling j: the middle beams, then the two connecting beams.
    method AddCeilingRafters(d: Dims, ao: AdvancedOptions, j: nat)
      modifies this
      ensures beams == old(beams) + CeilingRafters(d, ao, j)
      ensures allObjs == old(allObjs) + CeilingRafters(d, ao, j)
      ensures ceilings == old(ceilings) && outerTrim == old(outerTrim) && porchRailings == old(porchRailings)
    {
      AddMiddleBeams(d, ao, j);
      var edges := EdgeBeams(d, ao);
      BeamsOfConcat(j, MiddleRow(d, ao, MiddleBeams(d, ao)), edges);
      beams, allObjs := beams + BeamsOf(j, edges), allObjs + BeamsOf(j, edges);
    }

    /// The middle beams under ceiling j, each one gap further along the
    /// longer side than the one before.
    method AddMiddleBeams(d: Dims, ao: AdvancedOptions, j: nat)
      modifies this
      ensures beams == old(beams) + BeamsOf(j, MiddleRow(d, ao, MiddleBeams(d, ao)))
      ensures allObjs == old(allObjs) + BeamsOf(j, MiddleRow(d, ao, MiddleBeams(d, ao)))
      ensures ceilings == old(ceilings) && outerTrim == old(outerTrim) && porchRailings == old(porchRailings)
    {
      var distance := RafterSpan(d, ao);
      var numBeams := MiddleBeamCount(d, ao);
      // With no middle beam the gap is never used (the source divides by zero there).
      var beamDistance := if numBeams + 1 != 0 then distance / (numBeams + 1) as real else 0.0;
      var currentDistance := beamDistance - distance / 2.0;
      var i := 0;
      while i < numBeams
        invariant 0 <= i && (i <= numBeams || i == 0)
        invariant currentDistance == (i + 1) as real * beamDistance - distance / 2.0
        invariant beams == old(beams) + BeamsOf(j, MiddleRow(d, ao, i))
        invariant allObjs == old(allObjs) + BeamsOf(j, MiddleRow(d, ao, i))
        invariant distance == RafterSpan(d, ao) && numBeams == MiddleBeamCount(d, ao)
        invariant ceilings == old(ceilings)
        invariant outerTrim == old(outerTrim)
        invariant porchRailings == old(porchRailings)
      {
        assert currentDistance == MiddleBeamOffset(d, ao, i);
        BeamsOfAppend(j, MiddleRow(d, ao, i), MiddleBeam(d, ao, currentDistance));
        var b := Beam(j, MiddleBeam(d, ao, currentDistance));
        AppendAssoc(old(beams), BeamsOf(j, MiddleRow(d, ao, i)), [b]);
        AppendAssoc(old(allObjs), BeamsOf(j, MiddleRow(d, ao, i)), [b]);
        beams, allObjs := beams + [b], allObjs + [b];
        currentDistance := currentDistance + beamDistance;
        i := i + 1;
      }
    }

    // ---------------------------------------------------------------- porch

    /// The column loop of CreatePorchRoof: a column at each position the
    /// middle stairs leave free and, with a railing type chosen, a railing
    /// sprite between each two neighbouring columns that have no stairs
    /// between them. `stopped` remembers that the previous column was left
    /// out. With no railing type the railings' parent is destroyed the
    /// first time a railing would be drawn; `railingsKept` says whether it
    /// survives.
    method CreatePorchColumns(ao: AdvancedOptions, p: PorchSpec, pLength: real, kind: PorchRailingType)
      returns (railingsKept: bool)
      requires ColumnRowDefined(ao, p, pLength)
      modifies this
      ensures var r := PorchColumnRow(ao, p, pLength);
        outerTrim == old(outerTrim) + ColumnParts(r, r.count)
      ensures var r := PorchColumnRow(ao, p, pLength);
        allObjs == old(allObjs) + ColumnParts(r, r.count)
      ensures var r := PorchColumnRow(ao, p, pLength);
        porchRailings == old(porchRailings) + (if kind == NoPorchRailing then [] else RailingParts(r, r.count, ao, kind))
      ensures var r := PorchColumnRow(ao, p, pLength);
        railingsKept <==> kind != NoPorchRailing || !AnyRailing(r, r.count)
      ensures ceilings == old(ceilings) && beams == old(beams)
    {
      railingsKept := PlaceColumns(PorchColumnRow(ao, p, pLength), ao, kind);
    }

    /// The loop over the column positions of one row.
    method PlaceColumns(r: ColumnRow, ao: AdvancedOptions, kind: PorchRailingType) returns (railingsKept: bool)
      modifies this
      ensures outerTrim == old(outerTrim) + ColumnParts(r, r.count)
      ensures allObjs == old(allObjs) + ColumnParts(r, r.count)
      ensures porchRailings == old(porchRailings) + (if kind == NoPorchRailing then [] else RailingParts(r, r.count, ao, kind))
      ensures railingsKept <==> kind != NoPorchRailing || !AnyRailing(r, r.count)
      ensures ceilings == old(ceilings) && beams == old(beams)
    {
      var stopped := false;
      railingsKept := true;
      var i := 0;
      while i < r.count
        invariant 0 <= i && (i <= r.count || i == 0)
        invariant stopped == (i > 0 && ColumnSkipped(r, i - 1))
        invariant outerTrim == old(outerTrim) + ColumnParts(r, i)
        invariant allObjs == old(allObjs) + ColumnParts(r, i)
        invariant porchRailings == old(porchRailings) + (if kind == NoPorchRailing then [] else RailingParts(r, i, ao, kind))
        invariant railingsKept <==> kind != NoPorchRailing || !AnyRailing(r, i)
        invariant ceilings == old(ceilings) && beams == old(beams)
      {
        if !ColumnSkipped(r, i) {
          var column := Column(ColumnX(r, i));
          AppendAssoc(old(outerTrim), ColumnParts(r, i), [column]);
          AppendAssoc(old(allObjs), ColumnParts(r, i), [column]);
          outerTrim, allObjs := outerTrim + [column], allObjs + [column];
          if !stopped && i != 0 && !StairsInGap(r, i) {
            assert RailingDrawn(r, i);
            if kind != NoPorchRailing {
              AppendAssoc(old(porchRailings), RailingParts(r, i, ao, kind), [Railing(r, i, ao, kind)]);
              porchRailings := porchRailings + [Railing(r, i, ao, kind)];
            } else {
              railingsKept := false;
            }
          } else {
            assert !RailingDrawn(r, i);
            stopped := false;
          }
        } else {
          stopped := true;
        }
        i := i + 1;
      }
    }
  }

  // ------------------------------------------------------------- stairs

  /// AddStairRailing's baluster loop: one baluster per step, then the top
  /// one. With no steps the top baluster's run is a division by zero, which
  /// float arithmetic makes non-finite; the method then reports `finite`
  /// false and places only what the loop placed.
  method AddStairRailing(numStairs: int, sd: Vec3, left: bool, railingWidth: real)
    returns (balusters: seq<Vec3>, finite: bool)
    ensures finite <==> numStairs != 0
    ensures finite ==> balusters == StairBalusters(sd, RailingInset(railingWidth, sd, left), numStairs)
    ensures !finite ==> balusters == []
  {
    var inset := RailingInset(railingWidth, sd, left);
    balusters := [];
    var i := 0;
    while i < numStairs
      invariant 0 <= i && (numStairs >= 0 ==> i <= numStairs)
      invariant numStairs <= 0 ==> i == 0
      invariant |balusters| == i
      invariant forall k :: 0 <= k < i ==> balusters[k] == StepBaluster(sd, inset, numStairs, k)
    {
      balusters := balusters + [StepBaluster(sd, inset, numStairs, i)];
      i := i + 1;
    }
    finite := numStairs != 0;
    if finite {
      balusters := balusters + [TopBaluster(sd, inset, numStairs)];
    }
  }

  // ------------------------------------------------------------- ceilings

  /// The number of times `for (i = 1; i <= floors; ++i)` runs.
  function Floors(d: Dims): nat
  {
    if d.floors >= 1 then d.floors else 0
  }

  /// The ceilings above floors 1 .. n.
  function CeilingParts(d: Dims, ao: AdvancedOptions, nudge: real, n: nat): (r: seq<Part>)
    requires n == 0 || d.floors >= 1
    ensures |r| == n
    ensures forall i :: 0 <= i < n ==> r[i] == Ceiling(CeilingBox(d, ao, i + 1, nudge))
  {
    if n == 0 then [] else CeilingParts(d, ao, nudge, n - 1) + [Ceiling(CeilingBox(d, ao, n, nudge))]
  }

  /// The ceiling a staircase cuts through, `ceilings[s.floor - 1]`: the one
  /// above the stairs' floor. For a floor outside 1 .. floors the source's
  /// list index fails, which here is None.
  function StairCeiling(d: Dims, ao: AdvancedOptions, nudge: real, s: StairCaseSpec): Option<Part>
  {
    if 1 <= s.floor <= d.floors then Some(CeilingParts(d, ao, nudge, Floors(d))[s.floor - 1]) else None
  }

  /// A staircase finds its ceiling exactly when its floor has one. That
  /// ceiling lies across the top of the stairs: its upper face is nudge below
  /// the stairs' top, and its underside is a ceiling's thickness further down.
  /// Both parents are taken at the house's origin.
  lemma StairCutsItsCeiling(d: Dims, ao: AdvancedOptions, nudge: real, s: StairCaseSpec)
    ensures StairCeiling(d, ao, nudge, s).Some? <==> 1 <= s.floor <= d.floors
    ensures StairCeiling(d, ao, nudge, s).Some? ==>
      var c, base := StairCeiling(d, ao, nudge, s).value, StairPivot(d, ao, s).y;
      c.Ceiling? && c.box == CeilingBox(d, ao, s.floor, nudge) &&
      c.box.center.y + c.box.size.y / 2.0 + nudge == base + StairDimensions(d, ao, s).y &&
      c.box.center.y - c.box.size.y / 2.0 == base + d.FloorHeight() - ao.ceilingThickness - nudge
  {
    if 1 <= s.floor <= d.floors {
      var fh := d.FloorHeight();
      assert fh * s.floor as real == fh * (s.floor - 1) as real + fh;
    }
  }

  /// The first n middle beams under a ceiling.
  function MiddleRow(d: Dims, ao: AdvancedOptions, n: nat): (r: seq<Box>)
    requires n == 0 || MiddleBeamCount(d, ao) >= 1
    ensures |r| == n
    ensures forall k :: 0 <= k < n ==> r[k] == MiddleBeam(d, ao, MiddleBeamOffset(d, ao, k))
  {
    if n == 0 then [] else MiddleRow(d, ao, n - 1) + [MiddleBeam(d, ao, MiddleBeamOffset(d, ao, n - 1))]
  }

  /// How many middle beams each ceiling gets: none when the span is under
  /// six units.
  function MiddleBeams(d: Dims, ao: AdvancedOptions): nat
  {
    if MiddleBeamCount(d, ao) >= 1 then MiddleBeamCount(d, ao) else 0
  }

  function BeamsOf(j: nat, bs: seq<Box>): (r: seq<Part>)
    ensures |r| == |bs|
    ensures forall i :: 0 <= i < |bs| ==> r[i] == Beam(j, bs[i])
  {
    seq(|bs|, i requires 0 <= i < |bs| => Beam(j, bs[i]))
  }

  lemma BeamsOfAppend(j: nat, bs: seq<Box>, b: Box)
    ensures BeamsOf(j, bs + [b]) == BeamsOf(j, bs) + [Beam(j, b)]
  {
  }

  lemma BeamsOfConcat(j: nat, a: seq<Box>, b: seq<Box>)
    ensures BeamsOf(j, a + b) == BeamsOf(j, a) + BeamsOf(j, b)
  {
  }

  /// The beams under ceiling j: the middle row, then the two edge beams.
  function CeilingRafters(d: Dims, ao: AdvancedOptions, j: nat): seq<Part>
  {
    BeamsOf(j, MiddleRow(d, ao, MiddleBeams(d, ao)) + EdgeBeams(d, ao))
  }

  /// The beams under ceilings 0 .. n - 1, ceiling by ceiling.
  function RafterParts(d: Dims, ao: AdvancedOptions, n: nat): seq<Part>
  {
    if n == 0 then [] else RafterParts(d, ao, n - 1) + CeilingRafters(d, ao, n - 1)
  }

  lemma AppendAssoc<T>(a: seq<T>, b: seq<T>, c: seq<T>)
    ensures (a + b) + c == a + (b + c)
  {
  }

  lemma RafterStep(d: Dims, ao: AdvancedOptions, j: nat)
    ensures RafterParts(d, ao, j + 1) == RafterParts(d, ao, j) + CeilingRafters(d, ao, j)
  {
  }

  /// Every ceiling gets the same block of MiddleBeams + 2 beams, one after
  /// the other: beam i of ceiling j is the i-th middle beam, or, past the
  /// middle row, one of the two edge beams.
  lemma {:induction false} RaftersLayout(d: Dims, ao: AdvancedOptions, n: nat, j: nat, i: nat)
    requires j < n && i < MiddleBeams(d, ao) + 2
    ensures |RafterParts(d, ao, n)| == n * (MiddleBeams(d, ao) + 2)
    ensures j * (MiddleBeams(d, ao) + 2) + i < |RafterParts(d, ao, n)|
    ensures var m := MiddleBeams(d, ao);
      RafterParts(d, ao, n)[j * (m + 2) + i] ==
        if i < m then Beam(j, MiddleBeam(d, ao, MiddleBeamOffset(d, ao, i))) else Beam(j, EdgeBeams(d, ao)[i - m])
  {
    var m := MiddleBeams(d, ao);
    RaftersCount(d, ao, n);
    RaftersCount(d, ao, n - 1);
    if j < n - 1 {
      RaftersLayout(d, ao, n - 1, j, i);
      assert j * (m + 2) + i < (n - 1) * (m + 2);
    } else {
      assert j * (m + 2) == |RafterParts(d, ao, n - 1)|;
    }
  }

  lemma {:induction false} RaftersCount(d: Dims, ao: AdvancedOptions, n: nat)
    ensures |RafterParts(d, ao, n)| == n * (MiddleBeams(d, ao) + 2)
  {
    if n > 0 {
      RaftersCount(d, ao, n - 1);
    }
  }

  // ---------------------------------------------------------------- porch

  /// A railing is drawn before column i when column i stands, it is not
  /// the first, the column before it stands too, and the middle stairs do
  /// not lie between the two.
  predicate RailingDrawn(r: ColumnRow, i: int)
  {
    i != 0 && !ColumnSkipped(r, i) && !ColumnSkipped(r, i - 1) && !StairsInGap(r, i)
  }

  /// The railing sprite before column i: centred half a spacing back, as
  /// wide as the gap between the two columns' surfaces.
  function Railing(r: ColumnRow, i: int, ao: AdvancedOptions, kind: PorchRailingType): Part
  {
    RailingSprite((i as real - 0.5) * r.spacing - r.distance / 2.0, r.spacing - PorchColumnRadius * 2.0,
                  ao.porchRailingHeight, kind)
  }

  /// The columns among the first n that stand.
  function ColumnParts(r: ColumnRow, n: int): seq<Part>
  {
    if n <= 0 then [] else ColumnParts(r, n - 1) + (if ColumnSkipped(r, n - 1) then [] else [Column(ColumnX(r, n - 1))])
  }

  /// The railings drawn before the first n columns.
  function RailingParts(r: ColumnRow, n: int, ao: AdvancedOptions, kind: PorchRailingType): seq<Part>
  {
    if n <= 0 then [] else RailingParts(r, n - 1, ao, kind) + (if RailingDrawn(r, n - 1) then [Railing(r, n - 1, ao, kind)] else [])
  }

  predicate AnyRailing(r: ColumnRow, n: int)
  {
    exists i :: 0 <= i < n && RailingDrawn(r, i)
  }

  /// A railing joins two standing neighbours: it sits midway between them
  /// and spans the gap between their surfaces.
  lemma RailingBetweenColumns(r: ColumnRow, ao: AdvancedOptions, kind: PorchRailingType, i: int)
    requires RailingDrawn(r, i)
    ensures !ColumnSkipped(r, i - 1) && !ColumnSkipped(r, i)
    ensures Railing(r, i, ao, kind).x == (ColumnX(r, i - 1) + ColumnX(r, i)) / 2.0
    ensures Railing(r, i, ao, kind).width + PorchColumnRadius * 2.0 == ColumnX(r, i) - ColumnX(r, i - 1)
  {
  }

  /// How many of the first n columns are left out.
  function SkippedCount(r: ColumnRow, n: int): nat
  {
    if n <= 0 then 0 else SkippedCount(r, n - 1) + (if ColumnSkipped(r, n - 1) then 1 else 0)
  }

  /// Every column either stands or is left out; with no middle stairs all
  /// stand, and with a positive spacing at most one is left out.
  lemma {:induction false} ColumnsStanding(r: ColumnRow, n: nat)
    ensures |ColumnParts(r, n)| + SkippedCount(r, n) == n
    ensures !r.stairs ==> SkippedCount(r, n) == 0
    ensures r.spacing > 0.0 ==> SkippedCount(r, n) <= 1
    ensures r.spacing > 0.0 && SkippedCount(r, n) == 1 ==> exists i :: 0 <= i < n && ColumnSkipped(r, i)
  {
    if n > 0 {
      ColumnsStanding(r, n - 1);
      if r.spacing > 0.0 && SkippedCount(r, n - 1) == 1 {
        var i :| 0 <= i < n - 1 && ColumnSkipped(r, i);
        SkippedColumnsApart(r, i, n - 1);
      }
    }
  }

  /// Railings are drawn for exactly the standing neighbours with no stairs
  /// between them, and each drawn one is in the list.
  lemma {:induction false} RailingsListed(r: ColumnRow, n: nat, ao: AdvancedOptions, kind: PorchRailingType, i: int)
    requires 0 <= i < n && r.spacing > 0.0
    ensures RailingDrawn(r, i) <==> Railing(r, i, ao, kind) in RailingParts(r, n, ao, kind)
  {
    if n - 1 == i {
      RailingsBefore(r, i, ao, kind);
    } else {
      RailingsListed(r, n - 1, ao, kind, i);
      if RailingDrawn(r, n - 1) {
        RailingsApart(r, ao, kind, i, n - 1);
      }
    }
  }

  /// The railings before the first n columns all lie left of railing n's place.
  lemma {:induction false} RailingsBefore(r: ColumnRow, n: nat, ao: AdvancedOptions, kind: PorchRailingType)
    requires r.spacing > 0.0
    ensures forall q :: q in RailingParts(r, n, ao, kind) ==> q.RailingSprite? && q.x < Railing(r, n, ao, kind).x
  {
    if n > 0 {
      RailingsBefore(r, n - 1, ao, kind);
      RailingStep(r, n, ao, kind);
    }
  }

  /// Each railing's place is one spacing right of the one before.
  lemma RailingStep(r: ColumnRow, n: int, ao: AdvancedOptions, kind: PorchRailingType)
    requires r.spacing > 0.0
    ensures Railing(r, n - 1, ao, kind).x + r.spacing == Railing(r, n, ao, kind).x
  {
    var a := (n - 1) as real - 0.5;
    assert n as real - 0.5 == a + 1.0;
    assert (a + 1.0) * r.spacing == a * r.spacing + r.spacing;
  }

  lemma RailingsApart(r: ColumnRow, ao: AdvancedOptions, kind: PorchRailingType, i: int, j: int)
    requires i != j && r.spacing > 0.0
    ensures Railing(r, i, ao, kind) != Railing(r, j, ao, kind)
  {
  }

  // -------------------------------------------------------------- gables

  /// The faces CreateGable leaves: while more than six remain, the first
  /// four are merged into one.
  function GableMerged(fs: seq<Face>): seq<Face>
    decreases |fs|
  {
    if |fs| <= 6 then fs
    else
      FirstFour();
      MergeFacesCount(fs, Upto(4));
      GableMerged(MergeFaces(fs, Upto(4)))
  }

  /// The four faces merged per step are four distinct positions.
  lemma FirstFour()
    ensures Upto(4) == {0, 1, 2, 3} && |Upto(4)| == 4
  {
    assert Upto(4) == {0, 1, 2, 3};
  }

  /// A gable ends with its face count unchanged when it has at most six,
  /// and otherwise with four to six faces, the count falling by three per
  /// merge.
  lemma {:induction false} GableMergedCount(fs: seq<Face>)
    ensures |fs| <= 6 ==> |GableMerged(fs)| == |fs|
    ensures |fs| > 6 ==> |GableMerged(fs)| == 4 + (|fs| - 4) % 3
    decreases |fs|
  {
    if |fs| > 6 {
      var next := GableMergeStep(fs);
      GableMergedCount(next);
      MergeCountModulo(|fs|);
    }
  }

  /// One merge takes three faces off without changing the count modulo three.
  lemma MergeCountModulo(n: int)
    requires n > 6
    ensures (n - 7) % 3 == (n - 4) % 3
    ensures n - 3 <= 6 ==> n - 3 == 4 + (n - 4) % 3
  {
  }

  /// No vertex index is lost or invented by the gable's merges.
  lemma {:induction false} GableMergedIndices(fs: seq<Face>)
    ensures multiset(AllIndices(GableMerged(fs))) == multiset(AllIndices(fs))
    decreases |fs|
  {
    if |fs| > 6 {
      var next := GableMergeStep(fs);
      GableMergedIndices(next);
    }
  }

  /// One merge of the loop: three faces fewer, the same indices.
  lemma GableMergeStep(fs: seq<Face>) returns (next: seq<Face>)
    requires |fs| > 6
    ensures next == MergeFaces(fs, Upto(4)) && GableMerged(fs) == GableMerged(next)
    ensures |next| == |fs| - 3
    ensures multiset(AllIndices(next)) == multiset(AllIndices(fs))
  {
    FirstFour();
    MergeFacesCount(fs, Upto(4));
    next := MergeFaces(fs, Upto(4));
  }

  /// The merge loop of CreateGable, on an object whose faces are already
  /// subdivided and raised.
  method MergeGableFaces(o: PbObject)
    requires o.Valid()
    modifies o
    ensures o.faces == GableMerged(old(o.faces))
    ensures o.Valid()
    ensures o.vertices == old(o.vertices) && o.position == old(o.position) && o.turns == old(o.turns)
  {
    FirstFour();
    while |o.faces| > 6
      invariant o.Valid()
      invariant GableMerged(o.faces) == GableMerged(old(o.faces))
      invariant o.vertices == old(o.vertices) && o.position == old(o.position) && o.turns == old(o.turns)
      decreases |o.faces|
    {
      MergeFacesCount(o.faces, Upto(4));
      MergeKeepsValid(o.vertices, o.faces, Upto(4));
      o.faces := MergeFaces(o.faces, Upto(4));
    }
  }

  // ----------------------------------------------------------- hierarchy

  /// A scene object, known by its name, that can be destroyed.
  class SceneObject {
    const name: string
    var destroyed: bool

    constructor (n: string)
      ensures name == n && !destroyed
    {
      name := n;
      destroyed := false;
    }
  }

  /// transform.Find: the first child with the given name.
  function Find(children: seq<SceneObject>, name: string): (r: Option<SceneObject>)
    ensures r.Some? <==> exists k :: 0 <= k < |children| && children[k].name == name
    ensures r.Some? ==> r.value in children && r.value.name == name
  {
    if |children| == 0 then None
    else if children[0].name == name then Some(children[0])
    else Find(children[1..], name)
  }

  /// The object RemakeObject destroys: the one the slot holds, or, for an
  /// empty slot, the child with the new object's name; none when that is
  /// the new object itself.
  function Displaced(slot: Option<SceneObject>, children: seq<SceneObject>, remake: SceneObject): (r: Option<SceneObject>)
    ensures r.Some? ==> r.value != remake
    ensures slot.Some? ==> (r.Some? <==> slot.value != remake)
    ensures slot == Some(remake) ==> r == None
  {
    var held := if slot.None? then Find(children, remake.name) else slot;
    if held.Some? && held.value != remake then held else None
  }

  /// Remaking a slot with the object it already holds destroys nothing.
  lemma RemakeIdempotent(children: seq<SceneObject>, remake: SceneObject)
    ensures Displaced(Some(remake), children, remake) == None
  {
  }

  /// RemakeObject: the slot ends up holding `remake`, and what it held
  /// before (or the same-named child, for an empty slot) is destroyed
  /// unless it is `remake`.
  method RemakeObject(slot: Option<SceneObject>, children: seq<SceneObject>, remake: SceneObject)
    returns (slot': Option<SceneObject>)
    modifies (if slot.Some? then {slot.value} else {}), (set c | c in children)
    ensures slot' == Some(remake)
    ensures var gone := Displaced(slot, children, remake);
      gone.Some? ==> gone.value.destroyed
    ensures forall c :: c in children && Some(c) != Displaced(slot, children, remake) ==> c.destroyed == old(c.destroyed)
    ensures slot.Some? && Some(slot.value) != Displaced(slot, children, remake) ==> slot.value.destroyed == old(slot.value.destroyed)
  {
    var held := slot;
    if held.None? {
      held := Find(children, remake.name);
    }
    if held.Some? && held.value != remake {
      held.value.destroyed := true;
    }
    slot' := Some(remake);
  }
}
