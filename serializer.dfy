/**
 * The data-contract serializer's run, setter by setter: a fresh `Data` object
 * or `Thing` whose setters are called member by member in wire order. Each
 * run decodes exactly what the binding of `Envelope` describes.
 */
module Serializer {
  import opened Wrappers
  import opened Records
  import opened Shapes
  import opened Conversions
  import opened Helper
  import opened Envelope
  import opened Binding

  /**
   * The setter the serializer calls for a member of `Data` that fills stored
   * property `p` with wire value `v`: `Created64` or `CreatedUtc64` on a
   * number, `EditedObject` on the boxed value, and otherwise `p`'s own setter
   * on the value bound to its type. `ok` is false when the value does not fit
   * or the setter throws.
   */
  method SetMember(obj: DataObject, p: Prop, v: Json, message: map<Prop, PropType>) returns (ok: bool)
    requires obj.Valid() && obj.types == Stored(DataTable) && obj.dataClass == Data && !IsHelper(p)
    modifies obj
    ensures obj.Valid()
    ensures ok <==> BindMember(p, v, message).Some?
    ensures ok ==> obj.props == old(obj.props)[p := BindMember(p, v, message).value]
  {
    StoredTimestamps(Data, map[]);
    StoredEdited(Data, map[]);
    if p == Created || p == CreatedUtc {
      if !v.JNum? {
        return false;
      }
      if p == Created {
        obj.SetCreated64(v.n);
      } else {
        obj.SetCreatedUtc64(v.n);
      }
    } else if p == Edited {
      var boxed := BoxedOf(v);
      if boxed.None? {
        return false;
      }
      var threw := obj.SetEditedObject(boxed.value);
      if threw {
        return false;
      }
    } else {
      StoredOnData(p);
      var x := DecodeValue(v, obj.types[p], message);
      if x.None? {
        return false;
      }
      obj.Store(p, x.value);
    }
    ok := true;
  }

  /**
   * The serializer's run over a `data` object `j`: a fresh `Data` whose
   * properties hold their defaults, then for each member that `Data`
   * declares, in wire order, its setter: `Created64` or `CreatedUtc64` on a
   * number, `EditedObject` on the boxed value, and the member's own setter
   * on the value bound to its type; `None` when a value does not fit or a
   * setter throws. It decodes exactly what `DecodeData` does.
   */
  method DeserializeData(j: Json, message: map<Prop, PropType>) returns (r: Option<map<Prop, Value>>)
    requires j.JObj?
    ensures r == DecodeData(j, message)
  {
    var obj := new DataObject(Data, map[]);
    var ms := j.members;
    var i := 0;
    while i < |ms|
      invariant 0 <= i <= |ms|
      invariant obj.Valid() && obj.types == Stored(DataTable) && obj.dataClass == Data
      invariant DecodeData(j, message) == BindData(j, i, obj.props, message)
    {
      var m := ms[i];
      BindDataStep(j, i, obj.props, message);
      var target := Target(m.key);
      if target.Some? {
        var ok := SetMember(obj, target.value, m.value, message);
        if !ok {
          return None;
        }
      }
      i := i + 1;
    }
    r := Some(obj.props);
  }

  /**
   * The serializer's run over envelope `j`: a fresh `Thing`, the setter of
   * each `kind` and `data` member in wire order (other members skipped), then
   * `OnDeserialized`; `None` when a member's value does not fit its setter or
   * a call throws. It decodes exactly what `DecodeThing` does.
   */
  method DeserializeThing(j: Json, message: map<Prop, PropType>) returns (r: Option<Thing>)
    requires j.JObj?
    ensures r == DecodeThing(j, message)
  {
    var obj := new ThingObject();
    var ms := j.members;
    var i := 0;
    while i < |ms|
      invariant 0 <= i <= |ms|
      invariant GoodState(EnvelopeState(obj.kind, obj.internalData))
      invariant BindThing(j, 0, EnvelopeState(Listing, None), message) ==
                BindThing(j, i, EnvelopeState(obj.kind, obj.internalData), message)
    {
      var m := ms[i];
      if m.key == "kind" {
        if !m.value.JStr? {
          return None;
        }
        var threw := obj.SetInternalKind(m.value.s);
        if threw {
          return None;
        }
      } else if m.key == "data" {
        if m.value.JNull? {
          obj.SetInternalData(None);
        } else if m.value.JObj? {
          var props := DeserializeData(m.value, message);
          if props.None? {
            return None;
          }
          obj.SetInternalData(props);
        } else {
          return None;
        }
      }
      i := i + 1;
    }
    if obj.kind == T1 && obj.internalData.Some? {
      CommentProjectionFails(obj.internalData.value, message);
    }
    var threw := obj.OnDeserialized(message);
    if threw {
      return None;
    }
    r := Some(Thing(obj.kind, obj.data.value));
  }

}
