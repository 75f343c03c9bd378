/**
 * The private wire helpers `Created64`, `CreatedUtc64` and `EditedObject` that
 * `Data`, `LinkData`, `CommentData`, `AccountData` and `SubredditData` declare:
 * Unix seconds on the wire, `DateTime` ticks in the public properties
 * `Created`, `CreatedUtc` and `Edited`.
 */
module Conversions {
  import opened Wrappers
  import opened Clock
  import opened Records
  import opened Shapes

  /** A boxed `object` handed to the `EditedObject` setter. */
  datatype Boxed = BoxedNull | BoxedBool(b: bool) | BoxedLong(n: int)

  /** How a class's `EditedObject` setter treats its argument. */
  datatype EditedSetter =
    | ReturnOnBool        // Data: `value is bool` clears Edited and returns
    | FallThroughOnBool   // LinkData: `value is bool` clears Edited, then falls through
    | FallThroughGetType  // CommentData: `value.GetType() == typeof(bool)`, then falls through

  /** The `EditedObject` setter each class declares; `None` for the classes without one. */
  function EditedSetterOf(c: DataClass): Option<EditedSetter>
  {
    match c
    case Data => Some(ReturnOnBool)
    case LinkData => Some(FallThroughOnBool)
    case CommentData => Some(FallThroughGetType)
    case _ => None
  }

  /** `Convert.ToInt64(object)`: null is 0, a boolean is 0 or 1, a long is itself. */
  function ToInt64(v: Boxed): int
  {
    match v
    case BoxedNull => 0
    case BoxedBool(b) => if b then 1 else 0
    case BoxedLong(n) => n
  }

  /** The `DateTime` a setter stores for `n` Unix seconds. */
  function AtSeconds(n: int): Value
  {
    Date(FromUnixSeconds(n))
  }

  /** The `Created64`/`CreatedUtc64` getter applied to a stored `DateTime`. */
  function Seconds(v: Value): int
    requires v.Date?
  {
    UnixSeconds(v.ticks)
  }

  /** The `EditedObject` getter applied to a stored `DateTime?`: null stays null. */
  function EditedSeconds(e: Value): (r: Option<int>)
    requires e.Null? || e.Date?
    ensures r.None? <==> e.Null?
  {
    if e.Null? then None else Some(UnixSeconds(e.ticks))
  }

  /**
   * The value the `EditedObject` setter leaves in `Edited`, or `None` when the
   * setter throws (`GetType` on a null argument).
   */
  function EditedValue(s: EditedSetter, v: Boxed): (r: Option<Value>)
    ensures r.None? <==> s == FallThroughGetType && v == BoxedNull
    ensures r.Some? ==> r.value.Null? || r.value.Date?
  {
    if s == ReturnOnBool && v.BoxedBool? then Some(Null)
    else if s == FallThroughGetType && v == BoxedNull then None
    else Some(AtSeconds(ToInt64(v)))
  }

  /** Setting a timestamp helper to `n` and reading it back gives `n`. */
  lemma {:induction false} SecondsRoundTrip(n: int)
    ensures Seconds(AtSeconds(n)) == n
  {
    UnixSecondsRoundTrip(n);
  }

  /**
   * A numeric `edited` round-trips through every setter: `Edited` becomes the
   * epoch plus `n` seconds and the getter reports `n`.
   */
  lemma {:induction false} EditedNumberRoundTrip(s: EditedSetter, n: int)
    ensures EditedValue(s, BoxedLong(n)) == Some(AtSeconds(n))
    ensures EditedSeconds(EditedValue(s, BoxedLong(n)).value) == Some(n)
  {
    UnixSecondsRoundTrip(n);
  }

  /**
   * A boolean `edited`: `Data` stores null and its getter reports null; the
   * link and comment setters fall through to `Convert.ToInt64`, so `false`
   * stores the epoch, `true` one second after it, and the getter reports 0 or 1.
   */
  lemma {:induction false} EditedBooleanSetters(s: EditedSetter, b: bool)
    ensures s == ReturnOnBool ==> EditedValue(s, BoxedBool(b)) == Some(Null)
    ensures s == ReturnOnBool ==> EditedSeconds(EditedValue(s, BoxedBool(b)).value) == None
    ensures s != ReturnOnBool ==> EditedValue(s, BoxedBool(b)) == Some(AtSeconds(if b then 1 else 0))
    ensures s != ReturnOnBool ==> EditedSeconds(EditedValue(s, BoxedBool(b)).value) == Some(if b then 1 else 0)
  {
    UnixSecondsRoundTrip(if b then 1 else 0);
  }

  /**
   * A null `edited`: `Data` and `LinkData` store the epoch (`Convert.ToInt64(null)`
   * is 0), and `CommentData` throws.
   */
  lemma EditedNullSetters(s: EditedSetter)
    ensures s != FallThroughGetType ==> EditedValue(s, BoxedNull) == Some(AtSeconds(0))
    ensures s == FallThroughGetType ==> EditedValue(s, BoxedNull) == None
  {
  }

  /** The classes that declare the timestamp helpers `Created64` and `CreatedUtc64`. */
  predicate HasTimestamps(c: DataClass)
  {
    c in {Data, CommentData, AccountData, LinkData, SubredditData}
  }

  /** `Created64` is declared on `Data`, comment, account, link and subreddit, and nowhere else. */
  lemma CreatedHelperDeclared(c: DataClass)
    requires c != MessageData
    ensures DeclaredType(c, Created64).Some? <==> HasTimestamps(c)
  {
  }

  /** `CreatedUtc64` is declared on the same classes as `Created64`. */
  lemma CreatedUtcHelperDeclared(c: DataClass)
    requires c != MessageData
    ensures DeclaredType(c, CreatedUtc64).Some? <==> HasTimestamps(c)
  {
  }

  /** `EditedObject` is declared exactly on the classes with an `EditedObject` setter. */
  lemma EditedHelperDeclared(c: DataClass)
    requires c != MessageData
    ensures DeclaredType(c, EditedObject).Some? <==> EditedSetterOf(c).Some?
  {
  }

  /** True when `types` stores `Created` and `CreatedUtc` as `DateTime`s, which the timestamp helpers work on. */
  predicate TimestampsStored(types: map<Prop, PropType>)
  {
    Created in types && types[Created] == DateTimeT && CreatedUtc in types && types[CreatedUtc] == DateTimeT
  }

  /** True when `types` stores `Edited` as a `DateTime?`, which the `EditedObject` helper works on. */
  predicate EditedStored(types: map<Prop, PropType>)
  {
    Edited in types && types[Edited] == NullableDateTimeT
  }

  /** Every class with the timestamp helpers stores the two `DateTime`s they work on. */
  lemma {:induction false} StoredTimestamps(c: DataClass, message: map<Prop, PropType>)
    requires HasTimestamps(c)
    ensures TimestampsStored(Stored(Table(c, message)))
  {
    assert Table(c, message).Copies(Created) && Table(c, message).Copies(CreatedUtc);
  }

  /** Every class with an `EditedObject` setter stores the `DateTime?` it works on. */
  lemma {:induction false} StoredEdited(c: DataClass, message: map<Prop, PropType>)
    requires EditedSetterOf(c).Some?
    ensures EditedStored(Stored(Table(c, message)))
  {
    assert Table(c, message).Copies(Edited);
  }

  /** The stored properties of a fresh instance (`Activator.CreateInstance`): every one at its default. */
  function Defaults(types: map<Prop, PropType>): (props: map<Prop, Value>)
    ensures Typed(props, types)
    ensures forall p :: p in props ==> (!IsValueType(types[p]) <==> props[p] == Null)
  {
    map p | p in types :: Default(types[p])
  }

  /** Storing a value of the declared type into a stored property keeps the object well typed. */
  lemma StorePreservesTyping(props: map<Prop, Value>, types: map<Prop, PropType>, p: Prop, v: Value)
    requires Typed(props, types)
    requires p in props && Conforms(v, types[p])
    ensures Typed(props[p := v], types)
  {
  }

  /**
   * An instance of one record class. `props` holds its public auto-properties;
   * the private helpers store nothing of their own and work on `Created`,
   * `CreatedUtc` and `Edited`.
   */
  class DataObject {
    const dataClass: DataClass
    /** The declared types of the properties this object stores. */
    const types: map<Prop, PropType>
    var props: map<Prop, Value>

    /** The object holds exactly the stored properties, each with a value of its declared type. */
    ghost predicate Valid()
      reads this
    {
      Typed(props, types)
    }

    /** `Activator.CreateInstance`: a fresh object of class `c` whose properties hold their defaults. */
    constructor (c: DataClass, message: map<Prop, PropType>)
      ensures Valid()
      ensures dataClass == c && types == Stored(Table(c, message))
      ensures props == Defaults(types)
    {
      dataClass := c;
      types := Stored(Table(c, message));
      props := Defaults(Stored(Table(c, message)));
    }

    /** The `Created64` getter. */
    function Created64(): int
      reads this
      requires Valid() && TimestampsStored(types)
    {
      Seconds(props[Created])
    }

    /** The `CreatedUtc64` getter. */
    function CreatedUtc64(): int
      reads this
      requires Valid() && TimestampsStored(types)
    {
      Seconds(props[CreatedUtc])
    }

    /** The `EditedObject` getter: null when `Edited` is null, else its Unix seconds. */
    function EditedObject(): (r: Option<int>)
      reads this
      requires Valid() && EditedStored(types)
      ensures r.None? <==> props[Edited] == Null
    {
      EditedSeconds(props[Edited])
    }

    /** Stores `v` into the stored property `p`, whose declared type can hold it. */
    method Store(p: Prop, v: Value)
      requires Valid() && p in types && Conforms(v, types[p])
      modifies this
      ensures Valid()
      ensures props == old(props)[p := v]
    {
      StorePreservesTyping(props, types, p, v);
      props := props[p := v];
    }

    /** The `Created64` setter: changes `Created` and nothing else; reading back gives `n`. */
    method SetCreated64(n: int)
      requires Valid() && TimestampsStored(types)
      modifies this
      ensures Valid()
      ensures props == old(props)[Created := AtSeconds(n)]
      ensures Created64() == n
    {
      Store(Created, AtSeconds(n));
      SecondsRoundTrip(n);
    }

    /** The `CreatedUtc64` setter: changes `CreatedUtc` and nothing else; reading back gives `n`. */
    method SetCreatedUtc64(n: int)
      requires Valid() && TimestampsStored(types)
      modifies this
      ensures Valid()
      ensures props == old(props)[CreatedUtc := AtSeconds(n)]
      ensures CreatedUtc64() == n
    {
      Store(CreatedUtc, AtSeconds(n));
      SecondsRoundTrip(n);
    }

    /**
     * The `EditedObject` setter of this object's class. It changes `Edited` and
     * nothing else, or throws (`threw`) and changes nothing.
     */
    method SetEditedObject(v: Boxed) returns (threw: bool)
      requires Valid() && EditedStored(types) && EditedSetterOf(dataClass).Some?
      modifies this
      ensures Valid()
      ensures threw <==> EditedValue(EditedSetterOf(dataClass).value, v).None?
      ensures threw ==> props == old(props)
      ensures !threw ==> props == old(props)[Edited := EditedValue(EditedSetterOf(dataClass).value, v).value]
    {
      var setter := EditedSetterOf(dataClass).value;
      if setter == FallThroughGetType && v == BoxedNull {
        return true;
      }
      if v.BoxedBool? {
        Store(Edited, Null);
        if setter == ReturnOnBool {
          return false;
        }
      }
      Store(Edited, AtSeconds(ToInt64(v)));
      threw := false;
    }

    /**
     * `PropertyInfo.SetValue` on a public property of this object: stores the
     * assigned value, or throws (`threw`) for a property the object does not
     * store or a value its declared type cannot take, changing nothing.
     */
    method SetValue(p: Prop, v: Value) returns (threw: bool)
      requires Valid()
      modifies this
      ensures Valid()
      ensures threw <==> p !in types || Assign(v, types[p]).None?
      ensures threw ==> props == old(props)
      ensures !threw ==> props == old(props)[p := Assign(v, types[p]).value]
    {
      if p !in types {
        return true;
      }
      var stored := Assign(v, types[p]);
      if stored.None? {
        return true;
      }
      Store(p, stored.value);
      threw := false;
    }
  }
}
