/** The selective-bloom material swap shared by the orbital background and by
    the sphere demo: before the bloom composer renders, every object that
    must not glow has its material stashed (keyed by the object's uuid) and
    replaced by a black material; afterwards the stash is walked and every
    original material put back. Also the sphere demo's click handler, which
    toggles bloom-layer membership of the object under the pointer.

    A scene is the list of its objects in traversal order; bloom-layer
    membership is the boolean `glow`; the raycaster's hits are an input
    list of object ids, nearest first. */
module Bloom {

  datatype Kind = Mesh | Line | Other

  /** DarkMaterial is the shared black material; every other material is an
      opaque handle. */
  datatype Material = DarkMaterial | Own(handle: nat)

  datatype Obj = Obj(id: nat, kind: Kind, glow: bool, material: Material)

  /** The two copies of the swap differ only in their darkening test: the
      orbital background also darkens lines, the sphere demo does not. */
  datatype Variant = BackgroundBloom | SphereDemoBloom

  /** The `materials` side table: object id to stashed material. */
  type Stash = map<nat, Material>

  /** darkenNonBloomed's test: a mesh outside the bloom layer, or (in the
      orbital background only) any line. */
  predicate Darkens(variant: Variant, o: Obj)
  {
    (o.kind == Mesh && !o.glow) || (variant == BackgroundBloom && o.kind == Line)
  }

  /** Object ids are uuids: no two objects of a scene share one. */
  predicate DistinctIds(objs: seq<Obj>)
  {
    forall i, j :: 0 <= i < j < |objs| ==> objs[i].id != objs[j].id
  }

  function Ids(objs: seq<Obj>): set<nat>
  {
    set i | 0 <= i < |objs| :: objs[i].id
  }

  function DarkenedIds(variant: Variant, objs: seq<Obj>): set<nat>
  {
    set i | 0 <= i < |objs| && Darkens(variant, objs[i]) :: objs[i].id
  }

  /** A scene together with the stash after a traversal. */
  datatype Pass = Pass(objs: seq<Obj>, stash: Stash)

  /** The id of the first object is not the id of any later one. */
  lemma HeadIdFresh(objs: seq<Obj>)
    requires |objs| > 0 && DistinctIds(objs)
    ensures objs[0].id !in Ids(objs[1..])
  {
  }

  /** scene.traverse(darkenNonBloomed): every object that fails the bloom test
      wears the dark material and has its own material stashed under its id;
      every other object is untouched, and stash entries of other ids
      survive. */
  function Darken(variant: Variant, objs: seq<Obj>, stash: Stash): (p: Pass)
    requires DistinctIds(objs)
    ensures |p.objs| == |objs|
    ensures forall i :: 0 <= i < |objs| ==>
      p.objs[i] == (if Darkens(variant, objs[i]) then objs[i].(material := DarkMaterial) else objs[i])
    ensures p.stash.Keys == stash.Keys + DarkenedIds(variant, objs)
    ensures forall i :: 0 <= i < |objs| && Darkens(variant, objs[i]) ==> p.stash[objs[i].id] == objs[i].material
    ensures forall k :: k in stash && k !in DarkenedIds(variant, objs) ==> p.stash[k] == stash[k]
    decreases |objs|
  {
    if objs == [] then Pass([], stash)
    else
      var o := objs[0];
      var o' := if Darkens(variant, o) then o.(material := DarkMaterial) else o;
      var stash' := if Darkens(variant, o) then stash[o.id := o.material] else stash;
      var rest := Darken(variant, objs[1..], stash');
      HeadIdFresh(objs);
      assert DarkenedIds(variant, objs) == (if Darkens(variant, o) then {o.id} else {}) + DarkenedIds(variant, objs[1..]) by {
        forall k | k in DarkenedIds(variant, objs)
          ensures k in (if Darkens(variant, o) then {o.id} else {}) + DarkenedIds(variant, objs[1..])
        {
          var i :| 0 <= i < |objs| && Darkens(variant, objs[i]) && objs[i].id == k;
          if i > 0 {
            assert objs[1..][i - 1] == objs[i];
          }
        }
      }
      assert DarkenedIds(variant, objs[1..]) <= Ids(objs[1..]);
      Pass([o'] + rest.objs, rest.stash)
  }

  /** scene.traverse(restoreMaterial): every object whose id is stashed gets
      the stashed material back and its entry is deleted; every other object
      is untouched. Only entries of ids outside the scene remain. */
  function Restore(objs: seq<Obj>, stash: Stash): (p: Pass)
    requires DistinctIds(objs)
    ensures |p.objs| == |objs|
    ensures forall i :: 0 <= i < |objs| ==>
      p.objs[i] == (if objs[i].id in stash then objs[i].(material := stash[objs[i].id]) else objs[i])
    ensures p.stash == stash - Ids(objs)
    decreases |objs|
  {
    if objs == [] then
      assert Ids(objs) == {};
      Pass([], stash)
    else
      var o := objs[0];
      var o' := if o.id in stash then o.(material := stash[o.id]) else o;
      var stash' := stash - {o.id};
      var rest := Restore(objs[1..], stash');
      HeadIdFresh(objs);
      assert Ids(objs) == {o.id} + Ids(objs[1..]) by {
        forall k | k in Ids(objs) ensures k in {o.id} + Ids(objs[1..]) {
          var i :| 0 <= i < |objs| && objs[i].id == k;
          if i > 0 {
            assert objs[1..][i - 1] == objs[i];
          }
        }
      }
      assert forall i :: 0 <= i < |objs[1..]| ==> (objs[1..][i].id in stash' <==> objs[1..][i].id in stash);
      Pass([o'] + rest.objs, rest.stash)
  }

  /** One frame as the render function runs it: darken, let the bloom
      composer see the scene (`bloomView`), restore, then the final composer
      sees `scene`. */
  datatype Frame = Frame(bloomView: seq<Obj>, scene: seq<Obj>, stash: Stash)

  /** render(): provided the stash holds no entry for an object of the scene
      (it starts empty and every render leaves it so), the bloom composer sees
      exactly the objects that fail the bloom test in black and all others in
      their own material, and afterwards every object has its original
      material again and the stash is back to what it was. */
  function Render(variant: Variant, objs: seq<Obj>, stash: Stash): (f: Frame)
    requires DistinctIds(objs)
    requires stash.Keys !! Ids(objs)
    ensures |f.bloomView| == |objs|
    ensures forall i :: 0 <= i < |objs| ==>
      f.bloomView[i] == (if Darkens(variant, objs[i]) then objs[i].(material := DarkMaterial) else objs[i])
    ensures f.scene == objs
    ensures f.stash == stash
  {
    var dark := Darken(variant, objs, stash);
    assert DarkenedIds(variant, objs) <= Ids(objs);
    var restored := Restore(dark.objs, dark.stash);
    assert Ids(dark.objs) == Ids(objs) by {
      assert forall i :: 0 <= i < |objs| ==> dark.objs[i].id == objs[i].id;
    }
    assert forall i :: 0 <= i < |objs| && !Darkens(variant, objs[i]) ==> objs[i].id !in dark.stash;
    assert restored.objs == objs;
    Frame(dark.objs, restored.objs, restored.stash)
  }

  /** onPointerDown: when the raycaster hit something, the first object hit
      has its bloom-layer membership toggled; every other object, and every
      other field, is unchanged. */
  function PointerDown(objs: seq<Obj>, hits: seq<nat>): (r: seq<Obj>)
    ensures |r| == |objs|
    ensures forall i :: 0 <= i < |objs| ==>
      && r[i].id == objs[i].id && r[i].kind == objs[i].kind && r[i].material == objs[i].material
      && r[i].glow == (if |hits| > 0 && objs[i].id == hits[0] then !objs[i].glow else objs[i].glow)
    ensures Ids(r) == Ids(objs)
    ensures DistinctIds(objs) ==> DistinctIds(r)
  {
    if |hits| == 0 then objs
    else
      var r := seq(|objs|, i requires 0 <= i < |objs| =>
        if objs[i].id == hits[0] then objs[i].(glow := !objs[i].glow) else objs[i]);
      assert forall i :: 0 <= i < |objs| ==> r[i].id == objs[i].id;
      r
  }

  /** Clicking the same object twice restores its original membership. */
  lemma PointerDownTwice(objs: seq<Obj>, hits: seq<nat>)
    ensures PointerDown(PointerDown(objs, hits), hits) == objs
  {
    var once := PointerDown(objs, hits);
    var twice := PointerDown(once, hits);
    assert forall i :: 0 <= i < |objs| ==> twice[i] == objs[i];
  }
}
