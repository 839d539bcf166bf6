// PBUtility: cutting solids out of a ProBuilder object and merging the faces
// that lie on one side of it.
//
// ProBuilder and the CSG library are foreign code. Their effect is modelled
// by two abstractions:
//  - MergeFaces (ProBuilder's pb_Object.MergeFaces) removes the chosen faces
//    and appends one face holding all their vertex indices, with the first
//    chosen face's material and UV settings;
//  - the CSG subtraction followed by the mesh import is a function `csg`,
//    passed in, from a subtraction tree (the object's mesh minus each cutter
//    shape at its location and rotation) to the imported mesh.

module PBUtility {
  import opened HouseTypes

  /// A face of a mesh: the vertex indices of its triangles, the material it
  /// is drawn with, and its UV settings.
  datatype Face = Face(indices: seq<int>, material: int, manualUV: bool, uvScaleX: real, uvScaleY: real)

  datatype Mesh = Mesh(vertices: seq<Vec3>, faces: seq<Face>)

  /// A face ProBuilder can hold: it has a first vertex and every index names a vertex.
  predicate ValidFace(vs: seq<Vec3>, f: Face)
  {
    |f.indices| > 0 && forall j :: 0 <= j < |f.indices| ==> 0 <= f.indices[j] < |vs|
  }

  predicate FacesValid(vs: seq<Vec3>, fs: seq<Face>)
  {
    forall k :: 0 <= k < |fs| ==> ValidFace(vs, fs[k])
  }

  /// A ProBuilder object: its mesh and its transform.
  class PbObject {
    var vertices: seq<Vec3>
    var faces: seq<Face>
    var position: Vec3
    var turns: int

    constructor (vs: seq<Vec3>, fs: seq<Face>, at: Vec3, t: int)
      ensures vertices == vs && faces == fs && position == at && turns == t
    {
      vertices, faces, position, turns := vs, fs, at, t;
    }

    predicate Valid()
      reads this
    {
      FacesValid(vertices, faces)
    }

    function MeshOf(): Mesh
      reads this
    {
      Mesh(vertices, faces)
    }
  }

  // ------------------------------------------------------------ qualification

  /// How close (strictly) a vertex must be to the side to count as on it.
  const MergeDelta := 0.01

  /// All the listed vertices lie strictly within MergeDelta of `side` on the axis.
  predicate OnSide(vs: seq<Vec3>, idx: seq<int>, side: real, axis: Axis)
    requires forall j :: 0 <= j < |idx| ==> 0 <= idx[j] < |vs|
  {
    forall j :: 0 <= j < |idx| ==> Abs(Coord(vs[idx[j]], axis) - side) < MergeDelta
  }

  /// The side a face is compared with: the given one, or with useRotation
  /// the coordinate of the face's own first vertex.
  function SideOf(vs: seq<Vec3>, f: Face, side: real, axis: Axis, useRotation: bool): real
    requires ValidFace(vs, f)
  {
    if useRotation then Coord(vs[f.indices[0]], axis) else side
  }

  predicate Qualifies(vs: seq<Vec3>, f: Face, side: real, axis: Axis, useRotation: bool)
    requires ValidFace(vs, f)
  {
    OnSide(vs, f.indices, SideOf(vs, f, side, axis, useRotation), axis)
  }

  /// The positions of the faces that qualify for a merge.
  function QualifyingFaces(vs: seq<Vec3>, fs: seq<Face>, side: real, axis: Axis, useRotation: bool): set<int>
    requires FacesValid(vs, fs)
  {
    set k | 0 <= k < |fs| && Qualifies(vs, fs[k], side, axis, useRotation)
  }

  /// With useRotation a face qualifies exactly when all its vertices lie
  /// within MergeDelta of its own first vertex, whatever side was given.
  lemma RotationIgnoresSide(vs: seq<Vec3>, f: Face, side: real, other: real, axis: Axis)
    requires ValidFace(vs, f)
    ensures Qualifies(vs, f, side, axis, true) <==> Qualifies(vs, f, other, axis, true)
    ensures Qualifies(vs, f, side, axis, true) <==>
      forall j :: 0 <= j < |f.indices| ==> Abs(Coord(vs[f.indices[j]], axis) - Coord(vs[f.indices[0]], axis)) < MergeDelta
  {
  }

  /// The scan of MergeFacesOfSameSide: which faces qualify, and how many.
  method MergeableFaces(vs: seq<Vec3>, fs: seq<Face>, side: real, axis: Axis, useRotation: bool)
    returns (sel: set<int>, count: nat)
    requires FacesValid(vs, fs)
    ensures forall k :: k in sel <==> 0 <= k < |fs| && Qualifies(vs, fs[k], side, axis, useRotation)
    ensures count == |sel|
  {
    sel, count := {}, 0;
    var s := side;
    var k := 0;
    while k < |fs|
      invariant 0 <= k <= |fs|
      invariant forall m :: m in sel <==> 0 <= m < k && Qualifies(vs, fs[m], side, axis, useRotation)
      invariant count == |sel|
      invariant !useRotation ==> s == side
    {
      var f := fs[k];
      var sameSide := true;
      if useRotation {
        s := Coord(vs[f.indices[0]], axis);
      }
      var j := 0;
      while j < |f.indices|
        invariant 0 <= j <= |f.indices|
        invariant s == SideOf(vs, f, side, axis, useRotation)
        invariant sameSide <==> forall m :: 0 <= m < j ==> Abs(Coord(vs[f.indices[m]], axis) - s) < MergeDelta
      {
        sameSide := sameSide && Abs(Coord(vs[f.indices[j]], axis) - s) < MergeDelta;
        j := j + 1;
      }
      if sameSide {
        assert k !in sel;
        sel := sel + {k};
        count := count + 1;
      }
      k := k + 1;
    }
  }

  // ------------------------------------------------------------------ merging

  /// The faces among the first n that are not chosen, in order.
  function Kept(fs: seq<Face>, sel: set<int>, n: nat): seq<Face>
    requires n <= |fs|
  {
    if n == 0 then [] else Kept(fs, sel, n - 1) + (if n - 1 in sel then [] else [fs[n - 1]])
  }

  /// The chosen faces among the first n, in order.
  function Picked(fs: seq<Face>, sel: set<int>, n: nat): seq<Face>
    requires n <= |fs|
  {
    if n == 0 then [] else Picked(fs, sel, n - 1) + (if n - 1 in sel then [fs[n - 1]] else [])
  }

  /// The vertex indices of a list of faces, one face after the other.
  function AllIndices(fs: seq<Face>): seq<int>
  {
    if |fs| == 0 then [] else AllIndices(fs[..|fs| - 1]) + fs[|fs| - 1].indices
  }

  /// One face made of the given faces: all their indices, the first one's attributes.
  function Combined(picked: seq<Face>): Face
    requires |picked| > 0
  {
    Face(AllIndices(picked), picked[0].material, picked[0].manualUV, picked[0].uvScaleX, picked[0].uvScaleY)
  }

  /// ProBuilder's MergeFaces on the faces at the positions in sel.
  function MergeFaces(fs: seq<Face>, sel: set<int>): seq<Face>
  {
    var picked := Picked(fs, sel, |fs|);
    if |picked| == 0 then fs else Kept(fs, sel, |fs|) + [Combined(picked)]
  }

  lemma AllIndicesAppend(fs: seq<Face>, f: Face)
    ensures AllIndices(fs + [f]) == AllIndices(fs) + f.indices
  {
    assert (fs + [f])[..|fs|] == fs;
  }

  /// The chosen positions below n.
  function Below(sel: set<int>, n: int): set<int>
  {
    set k | k in sel && 0 <= k < n
  }

  /// Each of the first n faces goes to exactly one side: as many are picked
  /// as are chosen, and the others are kept.
  lemma {:induction false} PickedCount(fs: seq<Face>, sel: set<int>, n: nat)
    requires n <= |fs|
    ensures |Picked(fs, sel, n)| == |Below(sel, n)|
    ensures |Kept(fs, sel, n)| + |Picked(fs, sel, n)| == n
  {
    if n > 0 {
      PickedCount(fs, sel, n - 1);
      if n - 1 in sel {
        assert Below(sel, n) == Below(sel, n - 1) + {n - 1};
        assert n - 1 !in Below(sel, n - 1);
      } else {
        assert Below(sel, n) == Below(sel, n - 1);
      }
    }
  }

  /// No vertex index is lost or invented by splitting the faces into kept and picked.
  lemma {:induction false} SplitKeepsIndices(fs: seq<Face>, sel: set<int>, n: nat)
    requires n <= |fs|
    ensures multiset(AllIndices(Kept(fs, sel, n))) + multiset(AllIndices(Picked(fs, sel, n)))
            == multiset(AllIndices(fs[..n]))
  {
    if n > 0 {
      SplitKeepsIndices(fs, sel, n - 1);
      var f := fs[n - 1];
      var kept, picked := Kept(fs, sel, n - 1), Picked(fs, sel, n - 1);
      var mk, mp, mw, mf := multiset(AllIndices(kept)), multiset(AllIndices(picked)),
                            multiset(AllIndices(fs[..n - 1])), multiset(f.indices);
      PrefixStep(fs, n);
      var whole := multiset(AllIndices(fs[..n]));
      assert whole == mw + mf;
      if n - 1 in sel {
        assert Picked(fs, sel, n) == picked + [f];
        assert Kept(fs, sel, n) == kept;
        IndicesStep(picked, f);
        assert multiset(AllIndices(Picked(fs, sel, n))) == mp + mf;
        assert mk + (mp + mf) == whole;
      } else {
        assert Kept(fs, sel, n) == kept + [f];
        assert Picked(fs, sel, n) == picked;
        IndicesStep(kept, f);
        assert multiset(AllIndices(Kept(fs, sel, n))) == mk + mf;
        assert (mk + mf) + mp == whole;
      }
    }
  }

  lemma PrefixStep(fs: seq<Face>, n: nat)
    requires 0 < n <= |fs|
    ensures multiset(AllIndices(fs[..n])) == multiset(AllIndices(fs[..n - 1])) + multiset(fs[n - 1].indices)
  {
    var p := fs[..n];
    assert p[..|p| - 1] == fs[..n - 1];
  }

  lemma IndicesStep(fs: seq<Face>, f: Face)
    ensures multiset(AllIndices(fs + [f])) == multiset(AllIndices(fs)) + multiset(f.indices)
  {
    AllIndicesAppend(fs, f);
  }

  /// Merging k >= 1 existing faces removes k - 1 faces, merging none changes
  /// nothing, and the mesh's vertex indices are the same multiset afterwards.
  lemma MergeFacesCount(fs: seq<Face>, sel: set<int>)
    requires forall k :: k in sel ==> 0 <= k < |fs|
    ensures |sel| == 0 ==> MergeFaces(fs, sel) == fs
    ensures |sel| >= 1 ==> |MergeFaces(fs, sel)| == |fs| - |sel| + 1
    ensures multiset(AllIndices(MergeFaces(fs, sel))) == multiset(AllIndices(fs))
  {
    PickedCount(fs, sel, |fs|);
    assert Below(sel, |fs|) == sel;
    SplitKeepsIndices(fs, sel, |fs|);
    assert fs[..|fs|] == fs;
    var picked := Picked(fs, sel, |fs|);
    if |picked| > 0 {
      AllIndicesAppend(Kept(fs, sel, |fs|), Combined(picked));
    }
  }

  /// Every kept face is one of the faces that were not chosen.
  lemma {:induction false} KeptFrom(fs: seq<Face>, sel: set<int>, n: nat, j: int)
    requires n <= |fs| && 0 <= j < |Kept(fs, sel, n)|
    ensures exists k :: 0 <= k < n && k !in sel && Kept(fs, sel, n)[j] == fs[k]
  {
    if j < |Kept(fs, sel, n - 1)| {
      KeptFrom(fs, sel, n - 1, j);
      assert Kept(fs, sel, n)[j] == Kept(fs, sel, n - 1)[j];
    } else {
      assert Kept(fs, sel, n)[j] == fs[n - 1];
    }
  }

  /// Every picked face is one of the chosen faces.
  lemma {:induction false} PickedFrom(fs: seq<Face>, sel: set<int>, n: nat, j: int)
    requires n <= |fs| && 0 <= j < |Picked(fs, sel, n)|
    ensures exists k :: 0 <= k < n && k in sel && Picked(fs, sel, n)[j] == fs[k]
  {
    if j < |Picked(fs, sel, n - 1)| {
      PickedFrom(fs, sel, n - 1, j);
      assert Picked(fs, sel, n)[j] == Picked(fs, sel, n - 1)[j];
    } else {
      assert Picked(fs, sel, n)[j] == fs[n - 1];
    }
  }

  /// The indices of a list of faces are all on a side exactly when each
  /// face's indices are.
  lemma {:induction false} AllIndicesOnSide(vs: seq<Vec3>, fs: seq<Face>, side: real, axis: Axis)
    requires FacesValid(vs, fs)
    ensures forall j :: 0 <= j < |AllIndices(fs)| ==> 0 <= AllIndices(fs)[j] < |vs|
    ensures OnSide(vs, AllIndices(fs), side, axis) <==>
            forall m :: 0 <= m < |fs| ==> OnSide(vs, fs[m].indices, side, axis)
  {
    if |fs| > 0 {
      var init, last := fs[..|fs| - 1], fs[|fs| - 1];
      AllIndicesOnSide(vs, init, side, axis);
      OnSideConcat(vs, AllIndices(init), last.indices, side, axis);
      assert (forall m :: 0 <= m < |fs| ==> OnSide(vs, fs[m].indices, side, axis)) <==>
             (forall m :: 0 <= m < |init| ==> OnSide(vs, init[m].indices, side, axis)) &&
             OnSide(vs, last.indices, side, axis) by {
        assert forall m :: 0 <= m < |init| ==> init[m] == fs[m];
      }
    }
  }

  /// Two index lists are on a side together exactly when each is.
  lemma OnSideConcat(vs: seq<Vec3>, a: seq<int>, b: seq<int>, side: real, axis: Axis)
    requires forall j :: 0 <= j < |a| ==> 0 <= a[j] < |vs|
    requires forall j :: 0 <= j < |b| ==> 0 <= b[j] < |vs|
    ensures forall j :: 0 <= j < |a + b| ==> 0 <= (a + b)[j] < |vs|
    ensures OnSide(vs, a + b, side, axis) <==> OnSide(vs, a, side, axis) && OnSide(vs, b, side, axis)
  {
    assert forall j :: 0 <= j < |a| ==> (a + b)[j] == a[j];
    assert forall j :: 0 <= j < |b| ==> (a + b)[|a| + j] == b[j];
  }

  /// Merging keeps every face valid (the merged face has a first vertex and
  /// only indices of existing vertices).
  lemma MergeKeepsValid(vs: seq<Vec3>, fs: seq<Face>, sel: set<int>)
    requires FacesValid(vs, fs)
    ensures FacesValid(vs, MergeFaces(fs, sel))
  {
    var kept, picked := Kept(fs, sel, |fs|), Picked(fs, sel, |fs|);
    forall j | 0 <= j < |kept| ensures ValidFace(vs, kept[j]) {
      KeptFrom(fs, sel, |fs|, j);
    }
    if |picked| > 0 {
      forall j | 0 <= j < |picked| ensures ValidFace(vs, picked[j]) {
        PickedFrom(fs, sel, |fs|, j);
      }
      AllIndicesOnSide(vs, picked, 0.0, X);
      AllIndicesAppend([picked[0]], picked[0]);
      assert |AllIndices(picked)| >= |picked[0].indices| by {
        AllIndicesPrefix(picked);
      }
    }
  }

  /// The first face's indices come first in the list's indices.
  lemma {:induction false} AllIndicesPrefix(fs: seq<Face>)
    requires |fs| > 0
    ensures |AllIndices(fs)| >= |fs[0].indices|
  {
    if |fs| > 1 {
      AllIndicesPrefix(fs[..|fs| - 1]);
    } else {
      assert fs[..0] == [];
    }
  }

  /// Merging the faces on a side (without useRotation) leaves exactly one
  /// face on that side, the merged one, so merging the same side again
  /// finds fewer than two faces and changes nothing.
  lemma SecondMergeFindsOne(vs: seq<Vec3>, fs: seq<Face>, side: real, axis: Axis)
    requires FacesValid(vs, fs)
    requires |QualifyingFaces(vs, fs, side, axis, false)| >= 1
    ensures var r := MergeFaces(fs, QualifyingFaces(vs, fs, side, axis, false));
      FacesValid(vs, r) && QualifyingFaces(vs, r, side, axis, false) == {|r| - 1}
  {
    var sel := QualifyingFaces(vs, fs, side, axis, false);
    MergeKeepsValid(vs, fs, sel);
    var kept, picked := Kept(fs, sel, |fs|), Picked(fs, sel, |fs|);
    PickedCount(fs, sel, |fs|);
    assert Below(sel, |fs|) == sel;
    var r := MergeFaces(fs, sel);
    assert r == kept + [Combined(picked)];
    forall j | 0 <= j < |kept| ensures !Qualifies(vs, r[j], side, axis, false) {
      KeptFrom(fs, sel, |fs|, j);
      assert r[j] == kept[j];
    }
    forall j | 0 <= j < |picked| ensures ValidFace(vs, picked[j]) && OnSide(vs, picked[j].indices, side, axis) {
      PickedFrom(fs, sel, |fs|, j);
    }
    AllIndicesOnSide(vs, picked, side, axis);
    assert Qualifies(vs, r[|r| - 1], side, axis, false);
  }

  /// The positions 0 .. n - 1.
  function Upto(n: int): (r: set<int>)
    ensures forall k :: k in r <==> 0 <= k < n
    decreases n
  {
    if n <= 0 then {} else Upto(n - 1) + {n - 1}
  }

  /// Merging all but the last m faces (0 <= m < n) moves the last m faces to
  /// the front, in order, followed by one face holding all the others' indices.
  lemma RemainingMerge(fs: seq<Face>, m: int)
    requires 0 <= m < |fs|
    ensures MergeFaces(fs, Upto(|fs| - m)) == fs[|fs| - m..] + [Combined(fs[..|fs| - m])]
  {
    var sel, n := Upto(|fs| - m), |fs|;
    KeptPickedSplit(fs, sel, n - m, n);
    assert fs[n - m..n] == fs[n - m..];
  }

  lemma {:induction false} KeptPickedSplit(fs: seq<Face>, sel: set<int>, cut: int, n: nat)
    requires 0 <= cut <= n <= |fs|
    requires forall k :: 0 <= k < n ==> (k in sel <==> k < cut)
    ensures Picked(fs, sel, n) == fs[..cut]
    ensures Kept(fs, sel, n) == fs[cut..n]
  {
    if n > cut {
      KeptPickedSplit(fs, sel, cut, n - 1);
      assert n - 1 !in sel;
      assert fs[cut..n] == fs[cut..n - 1] + [fs[n - 1]];
    } else if n > 0 {
      KeptPickedSplit(fs, sel, n - 1, n - 1);
      assert n - 1 in sel;
      assert fs[..n] == fs[..n - 1] + [fs[n - 1]];
    }
  }

  /// PBUtility.MergeFacesOfSameSide: merge the faces on a side when at least
  /// two qualify, and report 1 for a merge, 0 otherwise.
  method MergeFacesOfSameSide(o: PbObject, side: real, axis: Axis, useRotation: bool) returns (merged: int)
    requires o.Valid()
    modifies o
    ensures o.Valid()
    ensures o.vertices == old(o.vertices) && o.position == old(o.position) && o.turns == old(o.turns)
    ensures var sel := QualifyingFaces(old(o.vertices), old(o.faces), side, axis, useRotation);
      merged == (if |sel| > 1 then 1 else 0) &&
      o.faces == (if |sel| > 1 then MergeFaces(old(o.faces), sel) else old(o.faces))
  {
    var sel, count := MergeableFaces(o.vertices, o.faces, side, axis, useRotation);
    assert sel == QualifyingFaces(o.vertices, o.faces, side, axis, useRotation);
    if count > 1 {
      MergeKeepsValid(o.vertices, o.faces, sel);
      o.faces := MergeFaces(o.faces, sel);
      merged := 1;
    } else {
      merged := 0;
    }
  }

  /// PBUtility.MergeRemainingFaces: merge every face but the last m.
  method MergeRemainingFaces(o: PbObject, m: int)
    requires o.Valid() && 0 <= m
    modifies o
    ensures o.Valid()
    ensures o.vertices == old(o.vertices) && o.position == old(o.position) && o.turns == old(o.turns)
    ensures o.faces == MergeFaces(old(o.faces), Upto(|old(o.faces)| - m))
  {
    var sel: set<int> := {};
    var index := 0;
    while index < |o.faces| - m
      invariant 0 <= index && (index <= |o.faces| - m || index == 0)
      invariant sel == Upto(index)
    {
      sel := sel + {index};
      assert sel == Upto(index + 1);
      index := index + 1;
    }
    MergeKeepsValid(o.vertices, o.faces, sel);
    o.faces := MergeFaces(o.faces, sel);
  }

  // ----------------------------------------------------------------- UV tiling

  /// PBUtility.SetUVTiling: stop manual UVs and scale both UV axes by the tiling.
  function SetUVTiling(f: Face, tiling: real): (r: Face)
    ensures !r.manualUV && r.uvScaleX == tiling && r.uvScaleY == tiling
    ensures r.indices == f.indices && r.material == f.material
  {
    f.(manualUV := false, uvScaleX := tiling, uvScaleY := tiling)
  }

  // ------------------------------------------------------------------ cutting

  /// The shapes the house cuts with.
  datatype Shape = Cube(size: Vec3) | Arch(degrees: int, diameter: real)

  /// A cutter object that is positioned before each use.
  class Template {
    const shape: Shape
    var position: Vec3
    var turns: int

    constructor (s: Shape, at: Vec3, t: int)
      ensures shape == s && position == at && turns == t
    {
      shape, position, turns := s, at, t;
    }
  }

  /// PBUtility.Cutout: a cutter and where to place it for the cut.
  datatype Cutout = Cutout(obj: Template, location: Vec3)

  /// The one-argument Cutout constructor: the location is the cutter's
  /// position when the cut is recorded.
  function CutoutHere(t: Template): (c: Cutout)
    reads t
    ensures c.obj == t && c.location == t.position
  {
    Cutout(t, t.position)
  }

  /// What the CSG library is asked to compute: a mesh minus cutter shapes.
  datatype Csg = Base(mesh: Mesh) | Minus(from: Csg, shape: Shape, at: Vec3, turns: int)

  function Cutters(cuts: seq<Cutout>): set<Template>
  {
    set c | c in cuts :: c.obj
  }

  /// The mesh minus the cuts, in list order, each at its recorded location
  /// with its cutter's rotation.
  function Subtractions(base: Csg, cuts: seq<Cutout>): (r: Csg)
    reads Cutters(cuts)`turns
  {
    if |cuts| == 0 then base
    else
      var c := cuts[|cuts| - 1];
      Minus(Subtractions(base, cuts[..|cuts| - 1]), c.obj.shape, c.location, c.obj.turns)
  }

  /// The number of subtractions is the number of cuts, and the last cut
  /// listed is the last one subtracted.
  lemma {:induction false} SubtractionsDepth(base: Csg, cuts: seq<Cutout>)
    ensures Depth(Subtractions(base, cuts)) == Depth(base) + |cuts|
  {
    if |cuts| > 0 {
      SubtractionsDepth(base, cuts[..|cuts| - 1]);
    }
  }

  function Depth(e: Csg): nat
  {
    match e
    case Base(_) => 0
    case Minus(from, _, _, _) => Depth(from) + 1
  }

  /// Cutting in two batches is cutting once with both lists in order.
  lemma {:induction false} SubtractionsAppend(base: Csg, a: seq<Cutout>, b: seq<Cutout>)
    ensures Subtractions(base, a + b) == Subtractions(Subtractions(base, a), b)
  {
    if |b| > 0 {
      assert (a + b)[..|a + b| - 1] == a + b[..|b| - 1];
      SubtractionsAppend(base, a, b[..|b| - 1]);
    } else {
      assert a + b == a;
    }
  }

  /// PBUtility.CutOutObjects: subtract every cut, in list order, from the
  /// object's mesh taken at the origin without rotation, import the result,
  /// and restore the object's position and rotation. Each cutter is left at
  /// the location of the last cut that used it.
  method CutOutObjects(o: PbObject, cuts: seq<Cutout>, csg: Csg -> Mesh)
    modifies o, Cutters(cuts)
    ensures o.position == old(o.position) && o.turns == old(o.turns)
    ensures o.MeshOf() == csg(Subtractions(Base(old(o.MeshOf())), cuts))
    ensures forall t :: t in Cutters(cuts) ==> t.turns == old(t.turns)
    ensures forall i :: 0 <= i < |cuts| && (forall j :: i < j < |cuts| ==> cuts[j].obj != cuts[i].obj) ==>
              cuts[i].obj.position == cuts[i].location
  {
    var oldPosition, oldTurns := o.position, o.turns;
    o.position, o.turns := Origin, 0;
    var mesh := Subtract(Base(o.MeshOf()), cuts);
    var imported := csg(mesh);
    o.vertices, o.faces := imported.vertices, imported.faces;
    o.position, o.turns := oldPosition, oldTurns;
  }

  /// The loop of CutOutObjects: each cutter is moved to its cut's location
  /// and subtracted, in list order.
  method Subtract(base: Csg, cuts: seq<Cutout>) returns (mesh: Csg)
    modifies Cutters(cuts)
    ensures mesh == Subtractions(base, cuts)
    ensures forall t :: t in Cutters(cuts) ==> t.turns == old(t.turns)
    ensures forall i :: 0 <= i < |cuts| && (forall j :: i < j < |cuts| ==> cuts[j].obj != cuts[i].obj) ==>
              cuts[i].obj.position == cuts[i].location
  {
    mesh := base;
    var i := 0;
    while i < |cuts|
      invariant 0 <= i <= |cuts|
      invariant forall t :: t in Cutters(cuts) ==> t.turns == old(t.turns)
      invariant mesh == Subtractions(base, cuts[..i])
      invariant forall k :: 0 <= k < i && (forall j :: k < j < i ==> cuts[j].obj != cuts[k].obj) ==>
                  cuts[k].obj.position == cuts[k].location
    {
      var c := cuts[i];
      c.obj.position := c.location;
      assert cuts[..i + 1][..i] == cuts[..i];
      mesh := Minus(mesh, c.obj.shape, c.location, c.obj.turns);
      i := i + 1;
    }
    assert cuts[..|cuts|] == cuts;
  }

  /// PBUtility.CutOutObject: the same for a single cut.
  method CutOutObject(o: PbObject, c: Cutout, csg: Csg -> Mesh)
    modifies o, c.obj
    ensures o.position == old(o.position) && o.turns == old(o.turns)
    ensures o.MeshOf() == csg(Minus(Base(old(o.MeshOf())), c.obj.shape, c.location, c.obj.turns))
    ensures c.obj.position == c.location && c.obj.turns == old(c.obj.turns)
  {
    var oldPosition, oldTurns := o.position, o.turns;
    o.position, o.turns := Origin, 0;
    var mesh := Base(o.MeshOf());
    c.obj.position := c.location;
    mesh := Minus(mesh, c.obj.shape, c.location, c.obj.turns);
    var imported := csg(mesh);
    o.vertices, o.faces := imported.vertices, imported.faces;
    o.position, o.turns := oldPosition, oldTurns;
  }
}
