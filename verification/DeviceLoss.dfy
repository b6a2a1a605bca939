/**
 * Direct3D 11 device loss: every object on the device's list gives up its resources, the device is
 * created anew, and a second walk over the list rebuilds the objects. A chroma texture shares the
 * resource of its luma partner and is rebuilt from there.
 */
module DeviceLoss {
  import opened Wrappers

  datatype Kind = Texture2D | Texture3D | Duplicator | Simple

  /** A driver resource, made by one incarnation of the device. */
  datatype Resource = Resource(device: nat, id: nat)

  class Object {
    const kind: Kind
    const chroma: bool
    var paired: Object?
    var next: Object?
    var resource: Option<Resource>
    var linearView: Option<Resource>
    ghost var builds: nat

    constructor (kind: Kind, chroma: bool, next: Object?, resource: Resource)
      ensures this.kind == kind && this.paired == null && this.chroma == chroma && this.next == next
      ensures this.resource == Some(resource) && this.linearView == Some(resource) && builds == 1
    {
      this.kind, this.paired, this.chroma, this.next := kind, null, chroma, next;
      this.resource, linearView, builds := Some(resource), Some(resource), 1;
    }

    /** The release of a 3D texture forgets its linear view. */
    method Release()
      modifies this`resource, this`linearView
      ensures resource == None && linearView == if kind == Texture3D then old(linearView) else None
    {
      resource := None;
      if kind != Texture3D {
        linearView := None;
      }
    }

    method Rebuild(r: Resource)
      modifies this`resource, this`linearView, this`builds
      ensures resource == Some(r) && linearView == Some(r) && builds == old(builds) + 1
    {
      resource, linearView := Some(r), Some(r);
      builds := builds + 1;
    }

    /** Capturing a monitor again can fail, which leaves the duplicator released. */
    method Start(r: Resource, fails: bool)
      modifies this`resource, this`linearView, this`builds
      ensures builds == old(builds) + 1 && resource == if fails then None else Some(r)
    {
      builds := builds + 1;
      if fails {
        resource, linearView := None, None;
      } else {
        resource, linearView := Some(r), Some(r);
      }
    }
  }

  /** Chroma textures of a pair are rebuilt with their partner, everything else on its own. */
  function Owner(o: Object): Object
    reads o`paired
  {
    if o.kind == Texture2D && o.paired != null && o.chroma then o.paired else o
  }

  class Device {
    var firstObj: Object?
    var incarnation: nat
    var nextId: nat
    ghost var list: seq<Object>

    constructor ()
      ensures Valid() && list == []
    {
      firstObj, incarnation, nextId, list := null, 0, 0, [];
    }

    ghost function Objects(): set<Object>
      reads this`list
    {
      set o | o in list
    }

    ghost function At(i: nat): Object?
      reads this`list
    {
      if i < |list| then list[i] else null
    }

    /** Partners are both on the list, point at each other, and one of them is chroma. */
    ghost predicate PairedWell(o: Object)
      requires o in list
      reads this`list, Objects()`paired
    {
      o.kind == Texture2D && o.paired != null ==>
        o.paired in list && o.paired != o && o.paired.kind == Texture2D && o.paired.paired == o && o.paired.chroma != o.chroma
    }

    /** Following `next` from the first object spells out the list. */
    ghost predicate Chained()
      reads this`list, this`firstObj, Objects()`next
    {
      && firstObj == At(0)
      && (forall i {:trigger list[i].next} :: 0 <= i < |list| ==> list[i].next == At(i + 1))
      && (forall i, j :: 0 <= i < j < |list| ==> list[i] != list[j])
    }

    ghost predicate Valid()
      reads this`list, this`firstObj, Objects()`next, Objects()`paired
    {
      Chained() && forall o :: o in list ==> PairedWell(o)
    }

    /** Every new object enters the list at the front. */
    method AddObject(kind: Kind, chroma: bool, resource: Resource) returns (o: Object)
      requires Valid()
      modifies this`firstObj, this`list
      ensures Valid() && fresh(o) && list == [o] + old(list)
      ensures o.kind == kind && o.chroma == chroma && o.paired == null && o.resource == Some(resource)
    {
      ghost var was := list;
      o := new Object(kind, chroma, firstObj, resource);
      firstObj := o;
      list := [o] + list;
      assert forall i :: 1 <= i < |list| ==> list[i] == was[i - 1];
    }

    method Pair(y: Object, uv: Object)
      requires Valid() && y in list && uv in list && y != uv && y.chroma != uv.chroma
      requires y.kind == Texture2D && uv.kind == Texture2D && y.paired == null && uv.paired == null
      modifies y`paired, uv`paired
      ensures Valid() && y.paired == uv && uv.paired == y
    {
      hide Chained;
      assert forall o :: o in list ==> PairedWell(o) && (o.kind == Texture2D ==> o.paired != y && o.paired != uv);
      y.paired := uv;
      uv.paired := y;
    }

    /** A luma and a chroma texture over one resource. */
    method CreatePair() returns (y: Object, uv: Object)
      requires Valid()
      modifies this
      ensures Valid() && fresh(y) && fresh(uv) && list == [uv, y] + old(list)
      ensures y.paired == uv && uv.paired == y && !y.chroma && uv.chroma && y.resource == uv.resource
    {
      hide Chained, PairedWell;
      var r := Resource(incarnation, nextId);
      nextId := nextId + 1;
      y := AddObject(Texture2D, false, r);
      uv := AddObject(Texture2D, true, r);
      assert list[0] == uv && list[1] == y;
      Pair(y, uv);
    }

    method ReleaseAll()
      requires Valid()
      modifies Objects()`resource, Objects()`linearView
      ensures forall o :: o in list ==> o.resource == None
      ensures forall o :: o in list ==> o.linearView == if o.kind == Texture3D then old(o.linearView) else None
    {
      var obj := firstObj;
      ghost var k := 0;
      while obj != null
        invariant k <= |list| && obj == At(k)
        invariant forall i :: 0 <= i < k ==>
          list[i].resource == None && list[i].linearView == if list[i].kind == Texture3D then old(list[i].linearView) else None
        invariant forall i :: k <= i < |list| ==> list[i].linearView == old(list[i].linearView)
        decreases |list| - k
      {
        obj.Release();
        obj := obj.next;
        k := k + 1;
      }
    }

    /** Rebuilt once, on this incarnation of the device; a failed duplicator ends released. */
    ghost predicate Restored(o: Object, was: nat, failing: set<Object>)
      reads this`incarnation, o`resource, o`builds, o`paired, Owner(o)`resource
    {
      && o.builds == was + 1
      && (if o.kind == Duplicator && o in failing then o.resource == None
          else o.resource.Some? && o.resource.value.device == incarnation)
      && o.resource == Owner(o).resource
    }

    /** A failed creation ends the program, except for a duplicator. */
    ghost predicate Fatal(o: Object, failing: set<Object>) { o in failing && o.kind != Duplicator }

    /** One object's turn restores it, and its chroma partner with it, and nothing else. */
    method RebuildOne(obj: Object, failing: set<Object>) returns (ok: bool)
      requires Valid() && obj in list
      modifies this`nextId, Objects()`resource, Objects()`linearView, Objects()`builds
      ensures ok <==> forall o :: o in list && Owner(o) == obj ==> !Fatal(o, failing)
      ensures ok ==> forall o :: o in list && Owner(o) == obj ==> Restored(o, old(o.builds), failing)
      ensures ok ==> forall o :: o in list && Owner(o) != obj ==> o.builds == old(o.builds) && o.resource == old(o.resource)
    {
      var r := Resource(incarnation, nextId);
      nextId := nextId + 1;
      ok := true;
      match obj.kind {
        case Texture2D =>
          if obj.paired == null {
            ok := obj !in failing;
            if ok {
              obj.Rebuild(r);
            }
          } else if !obj.chroma {
            assert PairedWell(obj) && obj.paired in list && Owner(obj.paired) == obj;
            ok := RebuildPairedY(obj, r, failing);
          }
        case Duplicator =>
          obj.Start(r, obj in failing);
        case _ =>
          ok := obj !in failing;
          if ok {
            obj.Rebuild(r);
          }
      }
    }

    /** The luma texture first, then its partner over the same resource. */
    method RebuildPairedY(obj: Object, r: Resource, failing: set<Object>) returns (ok: bool)
      requires Valid() && obj in list && obj.kind == Texture2D && obj.paired != null && !obj.chroma
      modifies obj`resource, obj`linearView, obj`builds, obj.paired`resource, obj.paired`linearView, obj.paired`builds
      ensures ok == (obj !in failing && obj.paired !in failing)
      ensures ok ==> obj.resource == Some(r) && obj.paired.resource == obj.resource
      ensures ok ==> obj.builds == old(obj.builds) + 1 && obj.paired.builds == old(obj.paired.builds) + 1
    {
      assert PairedWell(obj);
      if obj in failing {
        return false;
      }
      obj.Rebuild(r);
      if obj.paired in failing {
        return false;
      }
      RebuildPairedUV(obj.paired);
      return true;
    }

    method RebuildPairedUV(obj: Object)
      requires obj.paired != null && obj.paired != obj && obj.paired.resource.Some?
      modifies obj`resource, obj`linearView, obj`builds
      ensures obj.resource == obj.paired.resource && obj.builds == old(obj.builds) + 1
    {
      obj.Rebuild(obj.paired.resource.value);
    }

    method RebuildAll(failing: set<Object>) returns (ok: bool)
      requires Valid() && forall o :: o in list ==> o.resource == None
      modifies this`nextId, Objects()`resource, Objects()`linearView, Objects()`builds
      ensures ok <==> forall o :: o in list ==> !Fatal(o, failing)
      ensures ok ==> forall o :: o in list ==> Restored(o, old(o.builds), failing)
    {
      var obj := firstObj;
      ghost var k := 0;
      while obj != null
        invariant k <= |list| && obj == At(k)
        invariant forall o :: o in list ==>
          if Owner(o) in list[..k] then Restored(o, old(o.builds), failing)
          else o.builds == old(o.builds) && o.resource == None
        invariant forall o :: o in list && Owner(o) in list[..k] ==> !Fatal(o, failing)
        decreases |list| - k
      {
        assert list[..k + 1] == list[..k] + [obj] && obj !in list[..k];
        ok := RebuildOne(obj, failing);
        if !ok {
          return false;
        }
        obj := obj.next;
        k := k + 1;
      }
      assert list[..k] == list;
      forall o | o in list ensures Owner(o) in list { assert PairedWell(o); }
      return true;
    }

    /**
     * Nothing of the old device is left when the new one is created, except linear views of 3D
     * textures. The program goes on exactly if no creation fails but a duplicator's, and then every
     * object has been rebuilt exactly once.
     */
    method RebuildDevice(failing: set<Object>) returns (ok: bool)
      requires Valid()
      modifies this`incarnation, this`nextId, Objects()`resource, Objects()`linearView, Objects()`builds
      ensures Valid() && list == old(list) && incarnation == old(incarnation) + 1
      ensures ok <==> forall o :: o in list ==> !Fatal(o, failing)
      ensures ok ==> forall o :: o in list ==> Restored(o, old(o.builds), failing)
      ensures ok ==> forall o :: o in list && o.kind == Texture2D && o.paired != null ==>
                o.resource.Some? && o.resource == o.paired.resource
    {
      ReleaseAll();
      incarnation := incarnation + 1;
      ok := RebuildAll(failing);
      if !ok {
        return;
      }
      forall o | o in list && o.kind == Texture2D && o.paired != null
        ensures o.resource.Some? && o.resource == o.paired.resource
      {
        assert PairedWell(o) && Restored(o, old(o.builds), failing);
        assert o.paired in list && Restored(o.paired, old(o.paired.builds), failing);
      }
    }
  }
}
