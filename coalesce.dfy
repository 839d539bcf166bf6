// The end of the wall pass of CustomizableHouse.AddWallDetails: once a wall
// is cut, the faces on each of its two sides and two ends are merged, then
// every other face into one.

module Coalesce {
  import opened HouseTypes
  import opened PBUtility

  /// One MergeFacesOfSameSide: the new faces and the count it returns.
  datatype Merged = Merged(faces: seq<Face>, count: int)

  function SideMerge(vs: seq<Vec3>, fs: seq<Face>, side: real, axis: Axis): (r: Merged)
    requires FacesValid(vs, fs)
    ensures FacesValid(vs, r.faces)
    ensures r.count == 0 || r.count == 1
  {
    var sel := QualifyingFaces(vs, fs, side, axis, false);
    MergeKeepsValid(vs, fs, sel);
    if |sel| > 1 then Merged(MergeFaces(fs, sel), 1) else Merged(fs, 0)
  }

  /// A side merge keeps every vertex index of the wall's faces, as often as
  /// it occurred.
  lemma SideMergeKeepsIndices(vs: seq<Vec3>, fs: seq<Face>, side: real, axis: Axis)
    requires FacesValid(vs, fs)
    ensures multiset(AllIndices(SideMerge(vs, fs, side, axis).faces)) == multiset(AllIndices(fs))
  {
    MergeFacesCount(fs, QualifyingFaces(vs, fs, side, axis, false));
  }

  /// Where a wall's four merges look: its back and front sides (on the Z
  /// axis) and its two ends (on the X axis).
  datatype Sides = Sides(back: real, front: real, end1: real, end2: real)

  /// The sides of a wall of the given thickness whose ends are at +end and
  /// -end, in the order the pass merges them.
  function WallSides(thickness: real, end: real): (s: Sides)
    ensures s.front == -s.back && 2.0 * s.front == thickness
    ensures s.end1 == end && s.end2 == -end
  {
    Sides(-(thickness / 2.0), thickness / 2.0, end, -end)
  }

  /// The four merges of the pass; the count is how many of them merged.
  function SidesMerged(vs: seq<Vec3>, fs: seq<Face>, s: Sides): (r: Merged)
    requires FacesValid(vs, fs)
    ensures FacesValid(vs, r.faces)
    ensures 0 <= r.count <= 4
  {
    var m1 := SideMerge(vs, fs, s.back, Z);
    var m2 := SideMerge(vs, m1.faces, s.front, Z);
    var m3 := SideMerge(vs, m2.faces, s.end1, X);
    var m4 := SideMerge(vs, m3.faces, s.end2, X);
    Merged(m4.faces, m1.count + m2.count + m3.count + m4.count)
  }

  lemma SidesMergedKeepsIndices(vs: seq<Vec3>, fs: seq<Face>, s: Sides)
    requires FacesValid(vs, fs)
    ensures multiset(AllIndices(SidesMerged(vs, fs, s).faces)) == multiset(AllIndices(fs))
  {
    var m1 := SideMerge(vs, fs, s.back, Z);
    var m2 := SideMerge(vs, m1.faces, s.front, Z);
    var m3 := SideMerge(vs, m2.faces, s.end1, X);
    SideMergeKeepsIndices(vs, fs, s.back, Z);
    SideMergeKeepsIndices(vs, m1.faces, s.front, Z);
    SideMergeKeepsIndices(vs, m2.faces, s.end1, X);
    SideMergeKeepsIndices(vs, m3.faces, s.end2, X);
  }

  /// The wall's faces at the end of the pass: with any side merged, every
  /// face but the last `count` merged into one; otherwise the first two
  /// faces swapped, which needs two faces (the source fails without them).
  function FinishedFaces(vs: seq<Vec3>, fs: seq<Face>, s: Sides): Option<seq<Face>>
    requires FacesValid(vs, fs)
  {
    Finish(SidesMerged(vs, fs, s))
  }

  /// The last step of the pass on the faces the side merges left.
  function Finish(m: Merged): Option<seq<Face>>
  {
    if m.count > 0 then Some(MergeFaces(m.faces, Upto(|m.faces| - m.count)))
    else if |m.faces| >= 2 then Some([m.faces[1], m.faces[0]] + m.faces[2..])
    else None
  }

  lemma SwapKeepsIndices(fs: seq<Face>)
    requires |fs| >= 2
    ensures multiset(AllIndices([fs[1], fs[0]] + fs[2..])) == multiset(AllIndices(fs))
  {
    var x, y, r := fs[0].indices, fs[1].indices, AllIndices(fs[2..]);
    SwappedIndices(fs);
    MultisetSwap(x, y, r);
    FirstTwoSplit(fs);
    AllIndicesConcat([fs[0], fs[1]], fs[2..]);
    AllIndicesPair(fs[0], fs[1]);
    assert AllIndices(fs) == x + y + r;
  }

  lemma SwappedIndices(fs: seq<Face>)
    requires |fs| >= 2
    ensures multiset(AllIndices([fs[1], fs[0]] + fs[2..])) == multiset(fs[1].indices + fs[0].indices + AllIndices(fs[2..]))
  {
    AllIndicesConcat([fs[1], fs[0]], fs[2..]);
    AllIndicesPair(fs[1], fs[0]);
  }

  lemma MultisetSwap(x: seq<int>, y: seq<int>, r: seq<int>)
    ensures multiset(y + x + r) == multiset(x + y + r)
  {
  }

  lemma FirstTwoSplit(fs: seq<Face>)
    requires |fs| >= 2
    ensures [fs[0], fs[1]] + fs[2..] == fs
  {
  }

  lemma AllIndicesPair(a: Face, b: Face)
    ensures AllIndices([a, b]) == a.indices + b.indices
  {
    assert [a, b][..1] == [a];
    assert [a][..0] == [];
    assert AllIndices([a]) == [] + a.indices == a.indices;
  }

  lemma {:induction false} AllIndicesConcat(a: seq<Face>, b: seq<Face>)
    ensures AllIndices(a + b) == AllIndices(a) + AllIndices(b)
  {
    if |b| > 0 {
      var c := b[..|b| - 1];
      AllIndicesConcat(a, c);
      assert a + b == (a + c) + [b[|b| - 1]];
      assert b == c + [b[|b| - 1]];
      AllIndicesAppend(a + c, b[|b| - 1]);
      AllIndicesAppend(c, b[|b| - 1]);
    } else {
      assert a + b == a;
    }
  }

  /// The pass loses no corner: every vertex index of the cut wall's faces
  /// is in exactly as many finished faces as before, the faces stay valid,
  /// and when the sides merged some but not all faces, the finished wall is
  /// the merged side faces followed by one face of all the rest.
  lemma FinishKeepsWall(vs: seq<Vec3>, fs: seq<Face>, s: Sides)
    requires FacesValid(vs, fs)
    ensures var m, r := SidesMerged(vs, fs, s), FinishedFaces(vs, fs, s);
      (r.Some? <==> m.count > 0 || |m.faces| >= 2) &&
      (r.Some? ==> FacesValid(vs, r.value) && multiset(AllIndices(r.value)) == multiset(AllIndices(fs))) &&
      (0 < m.count < |m.faces| ==>
        r == Some(m.faces[|m.faces| - m.count..] + [Combined(m.faces[..|m.faces| - m.count])]))
  {
    SidesMergedKeepsIndices(vs, fs, s);
    FinishKeepsFaces(vs, SidesMerged(vs, fs, s));
  }

  lemma FinishKeepsFaces(vs: seq<Vec3>, m: Merged)
    requires FacesValid(vs, m.faces) && 0 <= m.count
    ensures Finish(m).Some? <==> m.count > 0 || |m.faces| >= 2
    ensures Finish(m).Some? ==> FacesValid(vs, Finish(m).value)
    ensures Finish(m).Some? ==> multiset(AllIndices(Finish(m).value)) == multiset(AllIndices(m.faces))
    ensures 0 < m.count < |m.faces| ==>
      Finish(m) == Some(m.faces[|m.faces| - m.count..] + [Combined(m.faces[..|m.faces| - m.count])])
  {
    if m.count > 0 {
      RemainingKeepsFaces(vs, m.faces, m.count);
    } else if |m.faces| >= 2 {
      SwapKeepsIndices(m.faces);
      SwapKeepsValid(vs, m.faces);
    }
  }

  lemma RemainingKeepsFaces(vs: seq<Vec3>, fs: seq<Face>, count: int)
    requires FacesValid(vs, fs) && 0 < count
    ensures var r := MergeFaces(fs, Upto(|fs| - count));
      FacesValid(vs, r) && multiset(AllIndices(r)) == multiset(AllIndices(fs)) &&
      (count < |fs| ==> r == fs[|fs| - count..] + [Combined(fs[..|fs| - count])])
  {
    var sel := Upto(|fs| - count);
    MergeKeepsValid(vs, fs, sel);
    MergeFacesCount(fs, sel);
    if count < |fs| {
      RemainingMerge(fs, count);
    }
  }

  lemma SwapKeepsValid(vs: seq<Vec3>, fs: seq<Face>)
    requires FacesValid(vs, fs) && |fs| >= 2
    ensures FacesValid(vs, [fs[1], fs[0]] + fs[2..])
  {
    var r := [fs[1], fs[0]] + fs[2..];
    forall k | 0 <= k < |r| ensures ValidFace(vs, r[k]) {
      if k >= 2 { assert r[k] == fs[k]; }
    }
  }

  /// MergeFacesOfSameSide without rotation, as SideMerge specifies it.
  method MergeSide(wall: PbObject, side: real, axis: Axis) returns (merged: int)
    requires wall.Valid()
    modifies wall
    ensures wall.Valid()
    ensures var m := SideMerge(old(wall.vertices), old(wall.faces), side, axis);
      wall.faces == m.faces && merged == m.count
    ensures wall.vertices == old(wall.vertices) && wall.position == old(wall.position) && wall.turns == old(wall.turns)
  {
    merged := MergeFacesOfSameSide(wall, side, axis, false);
  }

  /// The four side merges of the pass.
  method MergeSides(wall: PbObject, thickness: real, end: real) returns (merged: int)
    requires wall.Valid()
    modifies wall
    ensures wall.Valid()
    ensures var m := SidesMerged(old(wall.vertices), old(wall.faces), WallSides(thickness, end));
      wall.faces == m.faces && merged == m.count
    ensures wall.vertices == old(wall.vertices) && wall.position == old(wall.position) && wall.turns == old(wall.turns)
  {
    ghost var vs, fs := wall.vertices, wall.faces;
    var m1 := MergeSide(wall, -(thickness / 2.0), Z);
    ghost var f1 := wall.faces;
    assert SideMerge(vs, fs, -(thickness / 2.0), Z) == Merged(f1, m1);
    var m2 := MergeSide(wall, thickness / 2.0, Z);
    ghost var f2 := wall.faces;
    assert SideMerge(vs, f1, thickness / 2.0, Z) == Merged(f2, m2);
    var m3 := MergeSide(wall, end, X);
    ghost var f3 := wall.faces;
    assert SideMerge(vs, f2, end, X) == Merged(f3, m3);
    var m4 := MergeSide(wall, -end, X);
    assert SideMerge(vs, f3, -end, X) == Merged(wall.faces, m4);
    merged := m1 + m2 + m3 + m4;
    assert SidesMerged(vs, fs, WallSides(thickness, end)) == Merged(wall.faces, merged);
  }

  /// The merges that end the pass on one wall; `ok` is false where the
  /// source would fail on a wall with fewer than two faces.
  method CoalesceFaces(wall: PbObject, thickness: real, end: real) returns (ok: bool)
    requires wall.Valid()
    modifies wall
    ensures ok == FinishedFaces(old(wall.vertices), old(wall.faces), WallSides(thickness, end)).Some?
    ensures ok ==> wall.faces == FinishedFaces(old(wall.vertices), old(wall.faces), WallSides(thickness, end)).value
    ensures wall.vertices == old(wall.vertices) && wall.position == old(wall.position) && wall.turns == old(wall.turns)
  {
    ghost var m := SidesMerged(wall.vertices, wall.faces, WallSides(thickness, end));
    ghost var fin := Finish(m);
    assert FinishedFaces(wall.vertices, wall.faces, WallSides(thickness, end)) == fin;
    var merged := MergeSides(wall, thickness, end);
    assert wall.faces == m.faces && merged == m.count;
    ok := true;
    if merged > 0 {
      MergeRemainingFaces(wall, merged);
      assert fin == Some(wall.faces);
    } else if |wall.faces| >= 2 {
      wall.faces := [wall.faces[1], wall.faces[0]] + wall.faces[2..];
      assert fin == Some(wall.faces);
    } else {
      ok := false;
      assert fin == None;
    }
  }
}
