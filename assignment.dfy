// The texture pass of CustomizableHouse: each object list gets a material
// and a UV tiling on every face, with some lists giving one face (the inside
// of a wall, the underside of a ceiling, the top of a roof) a second one;
// the sprite lists get a colour. The house caches the textures it last
// applied, and ApplyMaterialChanges / ApplyColorChanges /
// ApplyTilingChanges do nothing while the cache matches.
//
// Materials are integers (Unity compares them by reference). The tiling
// curve t |-> Pow(100 / (t + NUDGE + 100), 10) is a function the house is
// given. Each generated object belongs to exactly one of the house's
// object lists; the lists are kept as one sequence of objects with the
// list each belongs to.

module Assignment {
  import opened HouseTypes
  import opened PBUtility

  datatype OuterTextures = OuterTextures(siding: int, roof: int, outerTrim: int, foundation: int,
                                         outerWood: int, chimney: int, awning: int)

  datatype InnerTextures = InnerTextures(innerWall: int, floor: int, ceiling: int, innerTrim: int,
                                         innerWood: int, innerStairs: int, baluster: int, railing: int)

  datatype Color = Color(r: real, g: real, b: real, a: real)

  datatype Colors = Colors(porchRailing: Color, gableWindow: Color, shutter: Color)

  datatype Tilings = Tilings(siding: real, roof: real, outerTrim: real, foundation: real, outerWood: real,
                             chimney: real, awning: real, innerWall: real, floor: real, ceiling: real,
                             innerTrim: real, innerWood: real, innerStairs: real, baluster: real, railing: real)

  datatype Textures = Textures(outer: OuterTextures, inner: InnerTextures, colors: Colors, tilings: Tilings)

  /// The house's lists of ProBuilder objects, in the order the passes visit them.
  datatype ObjectList =
    | Foundation | BottomFloors | ExteriorWalls | InteriorWalls | Ceilings | Roofs | Beams
    | StairCases | Balusters | StairRailings | OuterFrames | OuterInnerFrames | InnerFrames
    | OuterWood | ChimneyObjs | OuterTrim | ExteriorSiding | Awnings

  /// The house's lists of sprites.
  datatype SpriteList = PorchRailings | GableWindowSprites | ShutterSprites

  /// The position of a list in the passes.
  function Rank(l: ObjectList): nat
  {
    match l
    case Foundation => 0
    case BottomFloors => 1
    case ExteriorWalls => 2
    case InteriorWalls => 3
    case Ceilings => 4
    case Roofs => 5
    case Beams => 6
    case StairCases => 7
    case Balusters => 8
    case StairRailings => 9
    case OuterFrames => 10
    case OuterInnerFrames => 11
    case InnerFrames => 12
    case OuterWood => 13
    case ChimneyObjs => 14
    case OuterTrim => 15
    case ExteriorSiding => 16
    case Awnings => 17
  }

  const ListOrder: seq<ObjectList> :=
    [Foundation, BottomFloors, ExteriorWalls, InteriorWalls, Ceilings, Roofs, Beams,
     StairCases, Balusters, StairRailings, OuterFrames, OuterInnerFrames, InnerFrames,
     OuterWood, ChimneyObjs, OuterTrim, ExteriorSiding, Awnings]

  /// The passes visit every list exactly once.
  lemma ListOrderRanks()
    ensures |ListOrder| == 18
    ensures forall i :: 0 <= i < |ListOrder| ==> Rank(ListOrder[i]) == i
    ensures forall l: ObjectList :: Rank(l) < |ListOrder| && ListOrder[Rank(l)] == l
  {
  }

  // --------------------------------------------------------------- materials

  /// One AssignMaterialToPbObjects call: the material of every face, and
  /// the face (none when negative) that gets a second material.
  datatype MaterialPass = MaterialPass(material: int, secondFace: int, second: int)

  /// The material pass of each list (AssignMaterials). Lists without a
  /// second face leave `second` unused.
  function MaterialPassOf(l: ObjectList, inner: InnerTextures, outer: OuterTextures): MaterialPass
  {
    match l
    case Foundation => MaterialPass(outer.foundation, -1, 0)
    case BottomFloors => MaterialPass(inner.floor, -1, 0)
    case ExteriorWalls => MaterialPass(outer.siding, 1, inner.innerWall)
    case InteriorWalls => MaterialPass(inner.innerWall, -1, 0)
    case Ceilings => MaterialPass(inner.ceiling, 4, inner.floor)
    case Roofs => MaterialPass(outer.outerTrim, 4, outer.roof)
    case Beams => MaterialPass(inner.innerWood, -1, 0)
    case StairCases => MaterialPass(inner.innerStairs, -1, 0)
    case Balusters => MaterialPass(inner.baluster, -1, 0)
    case StairRailings => MaterialPass(inner.railing, -1, 0)
    case OuterFrames => MaterialPass(outer.outerTrim, -1, 0)
    case OuterInnerFrames => MaterialPass(inner.innerTrim, -1, 0)
    case InnerFrames => MaterialPass(inner.innerTrim, -1, 0)
    case OuterWood => MaterialPass(outer.outerWood, -1, 0)
    case ChimneyObjs => MaterialPass(outer.chimney, -1, 0)
    case OuterTrim => MaterialPass(outer.outerTrim, -1, 0)
    case ExteriorSiding => MaterialPass(outer.siding, -1, 0)
    case Awnings => MaterialPass(outer.awning, -1, 0)
  }

  /// The faces of one object after its material pass: every face gets the
  /// material, then the second face, if any, gets the second material.
  function MaterialFaces(fs: seq<Face>, p: MaterialPass): seq<Face>
    requires p.secondFace < |fs|
  {
    var all := seq(|fs|, i requires 0 <= i < |fs| => fs[i].(material := p.material));
    if p.secondFace >= 0 then all[p.secondFace := fs[p.secondFace].(material := p.second)] else all
  }

  /// Face i ends with the second material when it is the second face and
  /// with the main one otherwise; nothing else about any face changes.
  lemma MaterialFacesMeaning(fs: seq<Face>, p: MaterialPass)
    requires p.secondFace < |fs|
    ensures |MaterialFaces(fs, p)| == |fs|
    ensures forall i :: 0 <= i < |fs| ==>
      MaterialFaces(fs, p)[i] == fs[i].(material := if i == p.secondFace then p.second else p.material)
  {
  }

  /// Assigning the same materials again changes nothing.
  lemma MaterialFacesIdempotent(fs: seq<Face>, p: MaterialPass)
    requires p.secondFace < |fs|
    ensures MaterialFaces(MaterialFaces(fs, p), p) == MaterialFaces(fs, p)
  {
    MaterialFacesMeaning(fs, p);
    MaterialFacesMeaning(MaterialFaces(fs, p), p);
  }

  // ----------------------------------------------------------------- tilings

  /// One AssignTilingToPbObjects call: the tiling of every face, and the
  /// face (none when negative) that gets a second tiling.
  datatype TilingPass = TilingPass(tiling: real, secondFace: int, second: real)

  function TilingPassOf(l: ObjectList, t: Tilings): TilingPass
  {
    match l
    case Foundation => TilingPass(t.foundation, -1, -1.0)
    case BottomFloors => TilingPass(t.floor, -1, -1.0)
    case ExteriorWalls => TilingPass(t.siding, 1, t.innerWall)
    case InteriorWalls => TilingPass(t.innerWall, -1, -1.0)
    case Ceilings => TilingPass(t.ceiling, 4, t.floor)
    case Roofs => TilingPass(t.outerTrim, 4, t.roof)
    case Beams => TilingPass(t.innerWood, -1, -1.0)
    case StairCases => TilingPass(t.innerStairs, -1, -1.0)
    case Balusters => TilingPass(t.baluster, -1, -1.0)
    case StairRailings => TilingPass(t.railing, -1, -1.0)
    case OuterFrames => TilingPass(t.outerTrim, -1, -1.0)
    case OuterInnerFrames => TilingPass(t.innerTrim, -1, -1.0)
    case InnerFrames => TilingPass(t.innerTrim, -1, -1.0)
    case OuterWood => TilingPass(t.outerWood, -1, -1.0)
    case ChimneyObjs => TilingPass(t.chimney, -1, -1.0)
    case OuterTrim => TilingPass(t.outerTrim, -1, -1.0)
    case ExteriorSiding => TilingPass(t.siding, -1, -1.0)
    case Awnings => TilingPass(t.awning, -1, -1.0)
  }

  /// The UV scale face i gets from a pass, through the tiling curve.
  function TileScale(p: TilingPass, i: int, curve: real -> real): real
  {
    curve(if i == p.secondFace then p.second else p.tiling)
  }

  /// The faces of one object after its tiling pass.
  function TiledFaces(fs: seq<Face>, p: TilingPass, curve: real -> real): (r: seq<Face>)
    ensures |r| == |fs|
    ensures forall i :: 0 <= i < |fs| ==> r[i] == SetUVTiling(fs[i], TileScale(p, i, curve))
  {
    seq(|fs|, i requires 0 <= i < |fs| => SetUVTiling(fs[i], TileScale(p, i, curve)))
  }

  /// Tiling again with the same pass changes nothing.
  lemma TiledFacesIdempotent(fs: seq<Face>, p: TilingPass, curve: real -> real)
    ensures TiledFaces(TiledFaces(fs, p, curve), p, curve) == TiledFaces(fs, p, curve)
  {
  }

  /// The material and tiling passes touch different parts of a face, so
  /// their order does not matter.
  lemma MaterialsAndTilingsCommute(fs: seq<Face>, m: MaterialPass, t: TilingPass, curve: real -> real)
    requires m.secondFace < |fs|
    ensures TiledFaces(MaterialFaces(fs, m), t, curve) == MaterialFaces(TiledFaces(fs, t, curve), m)
  {
    MaterialFacesMeaning(fs, m);
    MaterialFacesMeaning(TiledFaces(fs, t, curve), m);
  }

  // --------------------------------------------------------------- colours

  function ColorOf(l: SpriteList, c: Colors): Color
  {
    match l
    case PorchRailings => c.porchRailing
    case GableWindowSprites => c.gableWindow
    case ShutterSprites => c.shutter
  }

  const SpriteOrder: seq<SpriteList> := [PorchRailings, GableWindowSprites, ShutterSprites]

  class Sprite {
    var color: Color

    constructor (c: Color)
      ensures color == c
    {
      color := c;
    }
  }

  // ------------------------------------------------------------- one list

  /// The faces of each object.
  function FacesOf(os: seq<PbObject>): (r: seq<seq<Face>>)
    reads set o | o in os
    ensures |r| == |os|
    ensures forall k :: 0 <= k < |os| ==> r[k] == os[k].faces
  {
    if |os| == 0 then [] else FacesOf(os[..|os| - 1]) + [os[|os| - 1].faces]
  }

  /// The objects (or sprites) of one list, in order.
  function Members<T(==), L(==)>(os: seq<T>, ls: seq<L>, l: L): (r: seq<T>)
    requires |os| == |ls|
    ensures forall k :: 0 <= k < |os| && ls[k] == l ==> os[k] in r
    ensures forall i :: 0 <= i < |r| ==> exists k :: 0 <= k < |os| && os[k] == r[i] && ls[k] == l
  {
    if |os| == 0 then []
    else Members(os[..|os| - 1], ls[..|ls| - 1], l) + (if ls[|ls| - 1] == l then [os[|os| - 1]] else [])
  }

  /// Every one of distinct objects is a member of its own list and of no other.
  lemma MembersExactly<T, L>(os: seq<T>, ls: seq<L>, l: L, k: int)
    requires |os| == |ls| && 0 <= k < |os| && Distinct(os)
    ensures os[k] in Members(os, ls, l) <==> ls[k] == l
  {
  }

  /// The members of a list of distinct objects are distinct.
  lemma {:induction false} MembersDistinct<T, L>(os: seq<T>, ls: seq<L>, l: L)
    requires |os| == |ls| && Distinct(os)
    ensures Distinct(Members(os, ls, l))
  {
    if |os| > 0 {
      var n := |os| - 1;
      MembersDistinct(os[..n], ls[..n], l);
      if ls[n] == l {
        assert os[n] !in Members(os[..n], ls[..n], l);
      }
    }
  }

  predicate Distinct<T(==)>(s: seq<T>)
  {
    forall i, j :: 0 <= i < j < |s| ==> s[i] != s[j]
  }

  /// AssignMaterialToPbObjects: the pass applied to every object of the list.
  method AssignMaterialToPbObjects(objects: seq<PbObject>, p: MaterialPass)
    requires Distinct(objects)
    requires forall k :: 0 <= k < |objects| ==> p.secondFace < |objects[k].faces|
    modifies set o | o in objects
    ensures forall k :: 0 <= k < |objects| ==> objects[k].faces == MaterialFaces(old(objects[k].faces), p)
    ensures forall o :: o in objects ==> o.vertices == old(o.vertices) && o.position == old(o.position) && o.turns == old(o.turns)
  {
    var n := 0;
    while n < |objects|
      invariant 0 <= n <= |objects|
      invariant forall k :: 0 <= k < n ==> objects[k].faces == MaterialFaces(old(objects[k].faces), p)
      invariant forall k :: n <= k < |objects| ==> objects[k].faces == old(objects[k].faces)
      invariant forall o :: o in objects ==> o.vertices == old(o.vertices) && o.position == old(o.position) && o.turns == old(o.turns)
    {
      var o := objects[n];
      o.faces := MaterialFaces(o.faces, p);
      n := n + 1;
    }
  }

  /// AssignTilingToPbObjects: the tiling of each face of each object of the list.
  method AssignTilingToPbObjects(objects: seq<PbObject>, p: TilingPass, curve: real -> real)
    requires Distinct(objects)
    modifies set o | o in objects
    ensures forall k :: 0 <= k < |objects| ==> objects[k].faces == TiledFaces(old(objects[k].faces), p, curve)
    ensures forall o :: o in objects ==> o.vertices == old(o.vertices) && o.position == old(o.position) && o.turns == old(o.turns)
  {
    var n := 0;
    while n < |objects|
      invariant 0 <= n <= |objects|
      invariant forall k :: 0 <= k < n ==> objects[k].faces == TiledFaces(old(objects[k].faces), p, curve)
      invariant forall k :: n <= k < |objects| ==> objects[k].faces == old(objects[k].faces)
      invariant forall o :: o in objects ==> o.vertices == old(o.vertices) && o.position == old(o.position) && o.turns == old(o.turns)
    {
      TileObject(objects[n], p, curve);
      n := n + 1;
    }
  }

  /// The face loop of AssignTilingToPbObjects on one object.
  method TileObject(o: PbObject, p: TilingPass, curve: real -> real)
    modifies o
    ensures o.faces == TiledFaces(old(o.faces), p, curve)
    ensures o.vertices == old(o.vertices) && o.position == old(o.position) && o.turns == old(o.turns)
  {
    var i := 0;
    while i < |o.faces|
      invariant 0 <= i <= |o.faces| == |old(o.faces)|
      invariant o.faces[..i] == TiledFaces(old(o.faces), p, curve)[..i]
      invariant o.faces[i..] == old(o.faces)[i..]
      invariant o.vertices == old(o.vertices) && o.position == old(o.position) && o.turns == old(o.turns)
    {
      o.faces := o.faces[i := SetUVTiling(o.faces[i], TileScale(p, i, curve))];
      i := i + 1;
    }
    assert o.faces == o.faces[..i];
  }

  /// AssignColorToSprites: the colour on every sprite of the list.
  method AssignColorToSprites(c: Color, rends: seq<Sprite>)
    modifies set r | r in rends
    ensures forall r :: r in rends ==> r.color == c
  {
    var n := 0;
    while n < |rends|
      invariant 0 <= n <= |rends|
      invariant forall k :: 0 <= k < n ==> rends[k].color == c
    {
      rends[n].color := c;
      n := n + 1;
    }
  }

  // ------------------------------------------------------------- the house

  /// The texture state of a house: the textures asked for, the ones last
  /// applied, and the objects and sprites they are applied to.
  class House {
    var tex: Textures
    var currentInner: InnerTextures
    var currentOuter: OuterTextures
    var currentColors: Colors
    var currentTilings: Tilings
    const objects: seq<PbObject>
    const lists: seq<ObjectList>
    const sprites: seq<Sprite>
    const spriteLists: seq<SpriteList>
    /// t |-> Pow(100 / (t + NUDGE + 100), 10)
    const curve: real -> real

    constructor (t: Textures, os: seq<PbObject>, ls: seq<ObjectList>, ss: seq<Sprite>, sls: seq<SpriteList>, c: real -> real,
                 applied: Textures)
      requires |os| == |ls| && |ss| == |sls| && Distinct(os) && Distinct(ss)
      ensures Valid()
      ensures tex == t && objects == os && lists == ls && sprites == ss && spriteLists == sls && curve == c
      ensures currentInner == applied.inner && currentOuter == applied.outer
      ensures currentColors == applied.colors && currentTilings == applied.tilings
    {
      tex, objects, lists, sprites, spriteLists, curve := t, os, ls, ss, sls, c;
      currentInner, currentOuter, currentColors, currentTilings := applied.inner, applied.outer, applied.colors, applied.tilings;
    }

    /// Each object and each sprite is in exactly one list.
    predicate Valid()
    {
      |objects| == |lists| && |sprites| == |spriteLists| && Distinct(objects) && Distinct(sprites)
    }

    /// Every object of a list with a second face has that face (the
    /// source throws otherwise).
    predicate HasSecondFaces()
      reads this, set o | o in objects
    {
      |objects| == |lists| &&
      forall k :: 0 <= k < |objects| ==> MaterialPassOf(lists[k], tex.inner, tex.outer).secondFace < |objects[k].faces|
    }

    predicate MaterialsSynced()
      reads this
    {
      currentInner == tex.inner && currentOuter == tex.outer
    }

    /// AssignMaterials: each list's pass, list by list, then the cache.
    method AssignMaterials()
      requires Valid() && HasSecondFaces()
      modifies this, set o | o in objects
      ensures forall k :: 0 <= k < |objects| ==>
        objects[k].faces == MaterialFaces(old(objects[k].faces), MaterialPassOf(lists[k], tex.inner, tex.outer))
      ensures forall o :: o in objects ==> o.vertices == old(o.vertices) && o.position == old(o.position) && o.turns == old(o.turns)
      ensures currentInner == tex.inner && currentOuter == tex.outer
      ensures tex == old(tex) && currentColors == old(currentColors) && currentTilings == old(currentTilings)
    {
      ghost var before := FacesOf(objects);
      ListOrderRanks();
      var j := 0;
      while j < |ListOrder|
        invariant 0 <= j <= |ListOrder|
        invariant PaintedUpTo(before, j)
        invariant forall o :: o in objects ==> o.vertices == old(o.vertices) && o.position == old(o.position) && o.turns == old(o.turns)
        invariant unchanged(this)
      {
        PaintNextList(j, before);
        j := j + 1;
      }
      currentInner, currentOuter := tex.inner, tex.outer;
    }

    /// The objects of the first j lists carry their material pass over
    /// `before`; the others are still at `before`.
    ghost predicate PaintedUpTo(before: seq<seq<Face>>, j: int)
      reads this, set o | o in objects
    {
      |before| == |objects| == |lists| &&
      (forall k :: 0 <= k < |objects| ==> MaterialPassOf(lists[k], tex.inner, tex.outer).secondFace < |before[k]|) &&
      (forall k :: 0 <= k < |objects| && Rank(lists[k]) < j ==>
         MaterialPassOf(lists[k], tex.inner, tex.outer).secondFace < |before[k]| &&
         objects[k].faces == MaterialFaces(before[k], MaterialPassOf(lists[k], tex.inner, tex.outer))) &&
      (forall k :: 0 <= k < |objects| && Rank(lists[k]) >= j ==> objects[k].faces == before[k])
    }

    /// The pass of the j-th list in the order.
    method PaintNextList(j: int, ghost before: seq<seq<Face>>)
      requires Valid() && 0 <= j < |ListOrder| && PaintedUpTo(before, j)
      modifies set o | o in objects
      ensures PaintedUpTo(before, j + 1)
      ensures forall o :: o in objects ==> o.vertices == old(o.vertices) && o.position == old(o.position) && o.turns == old(o.turns)
    {
      ListOrderRanks();
      AssignListMaterials(ListOrder[j]);
    }

    /// One list's AssignMaterialToPbObjects call.
    method AssignListMaterials(l: ObjectList)
      requires Valid()
      requires forall k :: 0 <= k < |objects| && lists[k] == l ==>
        MaterialPassOf(l, tex.inner, tex.outer).secondFace < |objects[k].faces|
      modifies set o | o in objects
      ensures forall k :: 0 <= k < |objects| && lists[k] == l ==>
        objects[k].faces == MaterialFaces(old(objects[k].faces), MaterialPassOf(l, tex.inner, tex.outer))
      ensures forall k :: 0 <= k < |objects| && lists[k] != l ==> objects[k].faces == old(objects[k].faces)
      ensures forall o :: o in objects ==> o.vertices == old(o.vertices) && o.position == old(o.position) && o.turns == old(o.turns)
    {
      var members := Members(objects, lists, l);
      MembersDistinct(objects, lists, l);
      AssignMaterialToPbObjects(members, MaterialPassOf(l, tex.inner, tex.outer));
      forall k | 0 <= k < |objects|
        ensures lists[k] == l ==> objects[k].faces == MaterialFaces(old(objects[k].faces), MaterialPassOf(l, tex.inner, tex.outer))
        ensures lists[k] != l ==> objects[k].faces == old(objects[k].faces)
      {
        MembersExactly(objects, lists, l, k);
      }
    }
  
    predicate ColorsSynced()
      reads this
    {
      currentColors == tex.colors
    }

    predicate TilingsSynced()
      reads this
    {
      currentTilings == tex.tilings
    }

    /// AssignColors: each sprite list's colour, then the cache.
    method AssignColors()
      requires Valid()
      modifies this, set r | r in sprites
      ensures forall k :: 0 <= k < |sprites| ==> sprites[k].color == ColorOf(spriteLists[k], tex.colors)
      ensures currentColors == tex.colors
      ensures tex == old(tex) && currentInner == old(currentInner) && currentOuter == old(currentOuter)
      ensures currentTilings == old(currentTilings)
    {
      AssignListColors(PorchRailings);
      AssignListColors(GableWindowSprites);
      AssignListColors(ShutterSprites);
      currentColors := tex.colors;
    }

    /// One sprite list's AssignColorToSprites call.
    method AssignListColors(l: SpriteList)
      requires Valid()
      modifies set r | r in sprites
      ensures forall k :: 0 <= k < |sprites| && spriteLists[k] == l ==> sprites[k].color == ColorOf(l, tex.colors)
      ensures forall k :: 0 <= k < |sprites| && spriteLists[k] != l ==> sprites[k].color == old(sprites[k].color)
    {
      var members := Members(sprites, spriteLists, l);
      MembersDistinct(sprites, spriteLists, l);
      AssignColorToSprites(ColorOf(l, tex.colors), members);
      forall k | 0 <= k < |sprites|
        ensures spriteLists[k] == l ==> sprites[k].color == ColorOf(l, tex.colors)
        ensures spriteLists[k] != l ==> sprites[k].color == old(sprites[k].color)
      {
        MembersExactly(sprites, spriteLists, l, k);
      }
    }

    /// AssignTilings: each list's tiling pass, list by list, then the cache.
    method AssignTilings()
      requires Valid()
      modifies this, set o | o in objects
      ensures forall k :: 0 <= k < |objects| ==>
        objects[k].faces == TiledFaces(old(objects[k].faces), TilingPassOf(lists[k], tex.tilings), curve)
      ensures forall o :: o in objects ==> o.vertices == old(o.vertices) && o.position == old(o.position) && o.turns == old(o.turns)
      ensures currentTilings == tex.tilings
      ensures tex == old(tex) && currentInner == old(currentInner) && currentOuter == old(currentOuter)
      ensures currentColors == old(currentColors)
    {
      ghost var before := FacesOf(objects);
      ListOrderRanks();
      var j := 0;
      while j < |ListOrder|
        invariant 0 <= j <= |ListOrder|
        invariant TiledUpTo(before, j)
        invariant forall o :: o in objects ==> o.vertices == old(o.vertices) && o.position == old(o.position) && o.turns == old(o.turns)
        invariant unchanged(this)
      {
        TileNextList(j, before);
        j := j + 1;
      }
      currentTilings := tex.tilings;
    }

    /// The objects of the first j lists carry their tiling pass over
    /// `before`; the others are still at `before`.
    ghost predicate TiledUpTo(before: seq<seq<Face>>, j: int)
      reads this, set o | o in objects
    {
      |before| == |objects| == |lists| &&
      (forall k :: 0 <= k < |objects| && Rank(lists[k]) < j ==>
         objects[k].faces == TiledFaces(before[k], TilingPassOf(lists[k], tex.tilings), curve)) &&
      (forall k :: 0 <= k < |objects| && Rank(lists[k]) >= j ==> objects[k].faces == before[k])
    }

    /// The tiling pass of the j-th list in the order.
    method TileNextList(j: int, ghost before: seq<seq<Face>>)
      requires Valid() && 0 <= j < |ListOrder| && TiledUpTo(before, j)
      modifies set o | o in objects
      ensures TiledUpTo(before, j + 1)
      ensures forall o :: o in objects ==> o.vertices == old(o.vertices) && o.position == old(o.position) && o.turns == old(o.turns)
    {
      ListOrderRanks();
      AssignListTilings(ListOrder[j]);
    }

    /// One list's AssignTilingToPbObjects call.
    method AssignListTilings(l: ObjectList)
      requires Valid()
      modifies set o | o in objects
      ensures forall k :: 0 <= k < |objects| && lists[k] == l ==>
        objects[k].faces == TiledFaces(old(objects[k].faces), TilingPassOf(l, tex.tilings), curve)
      ensures forall k :: 0 <= k < |objects| && lists[k] != l ==> objects[k].faces == old(objects[k].faces)
      ensures forall o :: o in objects ==> o.vertices == old(o.vertices) && o.position == old(o.position) && o.turns == old(o.turns)
    {
      var members := Members(objects, lists, l);
      MembersDistinct(objects, lists, l);
      AssignTilingToPbObjects(members, TilingPassOf(l, tex.tilings), curve);
      forall k | 0 <= k < |objects|
        ensures lists[k] == l ==> objects[k].faces == TiledFaces(old(objects[k].faces), TilingPassOf(l, tex.tilings), curve)
        ensures lists[k] != l ==> objects[k].faces == old(objects[k].faces)
      {
        MembersExactly(objects, lists, l, k);
      }
    }

    /// ApplyMaterialChanges: the material pass runs exactly when the
    /// textures differ from the ones last applied, and afterwards they match.
    method ApplyMaterialChanges() returns (ran: bool)
      requires Valid() && HasSecondFaces()
      modifies this, set o | o in objects
      ensures ran <==> !old(MaterialsSynced())
      ensures forall k :: 0 <= k < |objects| ==>
        objects[k].faces ==
          (if ran then MaterialFaces(old(objects[k].faces), MaterialPassOf(lists[k], tex.inner, tex.outer))
           else old(objects[k].faces))
      ensures MaterialsSynced()
      ensures forall o :: o in objects ==> o.vertices == old(o.vertices) && o.position == old(o.position) && o.turns == old(o.turns)
      ensures tex == old(tex) && currentColors == old(currentColors) && currentTilings == old(currentTilings)
    {
      ran := !(currentInner == tex.inner && currentOuter == tex.outer);
      if ran {
        AssignMaterials();
      }
    }

    /// ApplyColorChanges: the colour pass runs exactly when the colours differ
    /// from the ones last applied, and afterwards they match.
    method ApplyColorChanges() returns (ran: bool)
      requires Valid()
      modifies this, set r | r in sprites
      ensures ran <==> !old(ColorsSynced())
      ensures forall k :: 0 <= k < |sprites| ==>
        sprites[k].color ==
          (if ran then ColorOf(spriteLists[k], tex.colors) else old(sprites[k].color))
      ensures ColorsSynced()
      ensures tex == old(tex) && MaterialsSynced() == old(MaterialsSynced()) && currentTilings == old(currentTilings)
    {
      ran := currentColors != tex.colors;
      if ran {
        AssignColors();
      }
    }

    /// ApplyTilingChanges: the tiling pass runs exactly when the tilings
    /// differ from the ones last applied, and afterwards they match.
    method ApplyTilingChanges() returns (ran: bool)
      requires Valid()
      modifies this, set o | o in objects
      ensures ran <==> !old(TilingsSynced())
      ensures forall k :: 0 <= k < |objects| ==>
        objects[k].faces ==
          (if ran then TiledFaces(old(objects[k].faces), TilingPassOf(lists[k], tex.tilings), curve)
           else old(objects[k].faces))
      ensures TilingsSynced()
      ensures forall o :: o in objects ==> o.vertices == old(o.vertices) && o.position == old(o.position) && o.turns == old(o.turns)
      ensures tex == old(tex) && MaterialsSynced() == old(MaterialsSynced()) && currentColors == old(currentColors)
    {
      ran := currentTilings != tex.tilings;
      if ran {
        AssignTilings();
      }
    }

    /// AssignEverything: all three passes; every face ends with its list's
    /// material and tiling, every sprite with its list's colour, and the
    /// cache matches the textures.
    method AssignEverything()
      requires Valid() && HasSecondFaces()
      modifies this, set o | o in objects, set r | r in sprites
      ensures forall k :: 0 <= k < |objects| ==>
        objects[k].faces ==
          TiledFaces(MaterialFaces(old(objects[k].faces), MaterialPassOf(lists[k], tex.inner, tex.outer)),
                     TilingPassOf(lists[k], tex.tilings), curve)
      ensures forall k :: 0 <= k < |sprites| ==> sprites[k].color == ColorOf(spriteLists[k], tex.colors)
      ensures MaterialsSynced() && ColorsSynced() && TilingsSynced()
      ensures forall o :: o in objects ==> o.vertices == old(o.vertices) && o.position == old(o.position) && o.turns == old(o.turns)
      ensures tex == old(tex)
    {
      ghost var before := FacesOf(objects);
      AssignMaterials();
      ghost var painted := FacesOf(objects);
      AssignColors();
      assert FacesOf(objects) == painted;
      AssignTilings();
    }
  }
}
