/**
 * `Helper.ToData<T>`: the by-name reflective projection of a record onto the
 * declared properties of a target class.
 */
module Helper {
  import opened Wrappers
  import opened Records
  import opened Shapes
  import opened Conversions

  /**
   * The stored properties `ToData` gives a target whose stored properties have
   * the types `target` when it reads them from `source`, or `None` when a name
   * is missing on the source or its value cannot be assigned to the target's
   * declared type.
   */
  function Projection(source: map<Prop, Value>, target: map<Prop, PropType>): (r: Option<map<Prop, Value>>)
    ensures r.Some? <==> forall p :: p in target ==> p in source && Assign(source[p], target[p]).Some?
    ensures r.Some? ==> Typed(r.value, target)
    ensures r.Some? ==> forall p :: p in r.value ==>
              r.value[p] == source[p] || (source[p] == Null && r.value[p] == Default(target[p]))
  {
    if forall p :: p in target ==> p in source && Assign(source[p], target[p]).Some? then
      Some(map p | p in target :: Assign(source[p], target[p]).value)
    else
      None
  }

  /** A stored name of the target that the source does not have makes the projection fail. */
  lemma MissingPropertyFails(source: map<Prop, Value>, target: map<Prop, PropType>, p: Prop)
    requires p in target && p !in source
    ensures Projection(source, target).None?
  {
  }

  /**
   * When every value already conforms to the target's type, the projection is
   * exactly the source restricted to the target's names.
   */
  lemma {:induction false} ProjectionRestricts(source: map<Prop, Value>, target: map<Prop, PropType>)
    requires forall p :: p in target ==> p in source && Conforms(source[p], target[p])
    ensures Projection(source, target) == Some(map p | p in target :: source[p])
  {
    var m := map p | p in target :: source[p];
    var r := Projection(source, target);
    assert r.Some?;
    assert r.value.Keys == m.Keys;
    forall p | p in m
      ensures r.value[p] == m[p]
    {
      assert Assign(source[p], target[p]) == Some(source[p]);
    }
    assert r.value == m;
  }

  /** Projecting an already projected record onto the same table gives it back unchanged. */
  lemma {:induction false} ProjectionIdempotent(source: map<Prop, Value>, target: map<Prop, PropType>)
    requires Projection(source, target).Some?
    ensures Projection(Projection(source, target).value, target) == Projection(source, target)
  {
    var m := Projection(source, target).value;
    forall p | p in target
      ensures p in m && Assign(m[p], target[p]) == Some(m[p])
    {
      AssignIdempotent(source[p], target[p]);
    }
    var r := Projection(m, target);
    assert r.Some?;
    assert r.value.Keys == m.Keys;
    forall p | p in m
      ensures r.value[p] == m[p]
    {
    }
    assert r.value == m;
  }

  /** Each property of a successful projection holds the source value as assigned to the target's type. */
  lemma ProjectedValue(source: map<Prop, Value>, target: map<Prop, PropType>, p: Prop)
    requires Projection(source, target).Some? && p in target
    ensures Projection(source, target).value[p] == Assign(source[p], target[p]).value
  {
  }

  /** A value of a type compatible with the target's is always assignable. */
  lemma CompatibleAssigns(v: Value, from: PropType, to: PropType)
    requires Conforms(v, from) && Compatible(from, to)
    ensures Assign(v, to).Some?
  {
  }

  /** A well-typed source whose types are compatible with every type of the target always projects. */
  lemma {:induction false} ProjectableSucceeds(source: map<Prop, Value>, from: map<Prop, PropType>, target: map<Prop, PropType>)
    requires Typed(source, from) && ProjectableFrom(from, target)
    ensures Projection(source, target).Some?
  {
    forall p | p in target
      ensures p in source && Assign(source[p], target[p]).Some?
    {
      CompatibleAssigns(source[p], from[p], target[p]);
    }
  }

  /** A well-typed source whose types agree with every type of the target projects to its restriction. */
  lemma {:induction false} SameTypedRestricts(source: map<Prop, Value>, from: map<Prop, PropType>, target: map<Prop, PropType>)
    requires Typed(source, from) && SameTypedExcept(from, target, None)
    ensures Projection(source, target) == Some(map p | p in target :: source[p])
  {
    forall p | p in target
      ensures p in source && Conforms(source[p], target[p])
    {
      assert from[p] == target[p];
    }
    ProjectionRestricts(source, target);
  }

  /** True for the stored properties of a well-formed `Data` instance. */
  predicate IsDataRecord(source: map<Prop, Value>)
  {
    Typed(source, Stored(DataTable))
  }

  /** A well-typed source keeps, through a successful projection, every value whose type the target shares. */
  lemma {:induction false} SameTypedCopied(source: map<Prop, Value>, from: map<Prop, PropType>, to: map<Prop, PropType>, x: Option<Prop>)
    requires Typed(source, from) && SameTypedExcept(from, to, x) && Projection(source, to).Some?
    ensures forall p :: p in to && Some(p) != x ==> Projection(source, to).value[p] == source[p]
  {
    forall p | p in to && Some(p) != x
      ensures Projection(source, to).value[p] == source[p]
    {
      assert Conforms(source[p], to[p]);
    }
  }

  /**
   * `ToData<T>` from `Data` for the listing, account, link and more variants
   * never fails and copies every property of the variant unchanged.
   */
  lemma {:induction false} VariantProjects(source: map<Prop, Value>, c: DataClass, message: map<Prop, PropType>)
    requires IsDataRecord(source)
    requires c == ListingData || c == AccountData || c == LinkData || c == MoreData
    ensures Projection(source, Stored(Table(c, message))).Some?
    ensures forall p :: p in Stored(Table(c, message)) ==> Projection(source, Stored(Table(c, message))).value[p] == source[p]
  {
    var from, to := Stored(DataTable), Stored(Table(c, message));
    match c {
      case ListingData => DataCoversListing();
      case AccountData => DataCoversAccount();
      case LinkData => DataCoversLink();
      case MoreData => DataCoversMore();
    }
    StoredSameTyped(c, message, None);
    SameTypedProjectable(from, to);
    ProjectableSucceeds(source, from, to);
    SameTypedCopied(source, from, to, None);
  }

  /**
   * `ToData<SubredditData>` from `Data` never fails, and copies every
   * property but `Subscribers` unchanged.
   */
  lemma {:induction false} SubredditProjects(source: map<Prop, Value>, message: map<Prop, PropType>)
    requires IsDataRecord(source)
    ensures Projection(source, Stored(Table(SubredditData, message))).Some?
    ensures forall p :: p in Stored(Table(SubredditData, message)) && p != Subscribers ==>
              Projection(source, Stored(Table(SubredditData, message))).value[p] == source[p]
  {
    var from, to := Stored(DataTable), Stored(Table(SubredditData, message));
    SubredditProjectable(message);
    ProjectableSucceeds(source, from, to);
    DataCoversSubreddit();
    StoredSameTyped(SubredditData, message, Some(Subscribers));
    SameTypedCopied(source, from, to, Some(Subscribers));
  }

  /** A null projected into a `long` property becomes 0; a `long` is copied. */
  lemma NullBecomesZero(source: map<Prop, Value>, to: map<Prop, PropType>, p: Prop)
    requires Projection(source, to).Some? && p in to && to[p] == LongT
    requires source[p].Null? || source[p].Long?
    ensures Projection(source, to).value[p] == if source[p] == Null then Long(0) else source[p]
  {
    ProjectedValue(source, to, p);
  }

  /**
   * `Subscribers` is `long` on the subreddit variant where `Data` has `long?`:
   * a null count becomes 0, any other count is copied.
   */
  lemma {:induction false} SubscribersProjected(source: map<Prop, Value>, message: map<Prop, PropType>)
    requires Projection(source, Stored(Table(SubredditData, message))).Some?
    requires Subscribers in source && (source[Subscribers].Null? || source[Subscribers].Long?)
    ensures Subscribers in Projection(source, Stored(Table(SubredditData, message))).value
    ensures Projection(source, Stored(Table(SubredditData, message))).value[Subscribers]
            == if source[Subscribers] == Null then Long(0) else source[Subscribers]
  {
    SubscribersStoredAsLong(message);
    NullBecomesZero(source, Stored(Table(SubredditData, message)), Subscribers);
  }

  /**
   * `ToData<CommentData>` from `Data` always fails: `Gilded` is a `long` there
   * and a `bool` on the comment variant.
   */
  lemma {:induction false} CommentProjectionFails(source: map<Prop, Value>, message: map<Prop, PropType>)
    requires IsDataRecord(source)
    ensures Projection(source, Stored(Table(CommentData, message))).None?
  {
    assert DataTable.Copies(Gilded);
    assert Stored(DataTable)[Gilded] == LongT;
    assert source[Gilded].Long?;
    assert Table(CommentData, message).Copies(Gilded);
    assert Stored(Table(CommentData, message))[Gilded] == BoolT;
  }

  /** The properties table `t` declares, the private helpers included. */
  function Declared(t: Table): (s: set<Prop>)
    ensures forall p :: p in s <==> t.TypeOf(p).Some?
  {
    set p: Prop | t.TypeOf(p).Some?
  }

  /** The declared properties other than the helpers are exactly the stored ones. */
  lemma DeclaredStored(t: Table)
    ensures forall p :: p in Declared(t) && !IsHelper(p) <==> p in Stored(t)
  {
  }

  /**
   * The state of the copy loop with `pending` still to visit: every visited
   * stored property holds its source value as assigned, every pending one its
   * default.
   */
  ghost predicate CopiedExcept(source: map<Prop, Value>, types: map<Prop, PropType>, props: map<Prop, Value>, pending: set<Prop>)
  {
    && props.Keys == types.Keys
    && (forall p :: p in props && p !in pending ==> p in source && Assign(source[p], types[p]) == Some(props[p]))
    && (forall p :: p in props && p in pending ==> props[p] == Default(types[p]))
  }

  /** Copying the pending property `p` moves it to the visited ones. */
  lemma CopyStep(source: map<Prop, Value>, types: map<Prop, PropType>, props: map<Prop, Value>, pending: set<Prop>, p: Prop)
    requires CopiedExcept(source, types, props, pending) && p in pending && p in types && p in source
    requires Assign(source[p], types[p]).Some?
    ensures CopiedExcept(source, types, props[p := Assign(source[p], types[p]).value], pending - {p})
  {
  }

  /** Visiting a name the object does not store changes nothing. */
  lemma SkipStep(source: map<Prop, Value>, types: map<Prop, PropType>, props: map<Prop, Value>, pending: set<Prop>, p: Prop)
    requires CopiedExcept(source, types, props, pending) && p !in props
    ensures CopiedExcept(source, types, props, pending - {p})
  {
  }

  /** Once every name has been visited, the object holds the projection. */
  lemma {:induction false} CopiedAll(source: map<Prop, Value>, types: map<Prop, PropType>, props: map<Prop, Value>)
    requires Typed(props, types) && CopiedExcept(source, types, props, {})
    ensures Projection(source, types) == Some(props)
  {
    var r := Projection(source, types);
    assert r.Some?;
    assert r.value == props;
  }

  /**
   * The loop of `ToData`: visits every name of `declared`, skips the three
   * helpers by name, and copies every other property from `data` into
   * `toData` with `SetValue`, throwing on the first name `data` lacks or the
   * first value `SetValue` refuses.
   */
  method CopyDeclared(data: DataObject, toData: DataObject, declared: set<Prop>) returns (threw: bool)
    requires data.Valid() && toData.Valid() && data != toData
    requires toData.props == Defaults(toData.types)
    requires forall p :: p in declared && !IsHelper(p) <==> p in toData.types
    modifies toData
    ensures toData.Valid()
    ensures threw <==> Projection(data.props, toData.types).None?
    ensures !threw ==> toData.props == Projection(data.props, toData.types).value
  {
    var pending := declared;
    while pending != {}
      invariant toData.Valid() && pending <= declared
      invariant CopiedExcept(data.props, toData.types, toData.props, pending)
      decreases pending
    {
      var p :| p in pending;
      if p != EditedObject && p != Created64 && p != CreatedUtc64 {
        if p !in data.props {
          // `GetDeclaredProperty` finds nothing and `GetValue` dereferences null.
          MissingPropertyFails(data.props, toData.types, p);
          return true;
        }
        ghost var before := toData.props;
        threw := toData.SetValue(p, data.props[p]);
        if threw {
          return;
        }
        CopyStep(data.props, toData.types, before, pending, p);
      } else {
        SkipStep(data.props, toData.types, toData.props, pending, p);
      }
      pending := pending - {p};
    }
    CopiedAll(data.props, toData.types, toData.props);
    return false;
  }

  /**
   * `ToData<T>`: creates a fresh `T` and copies, one by one, every declared
   * property of `T` but the three private helpers from `data`, or throws. The
   * source object is only read.
   */
  method ToData(data: DataObject, c: DataClass, message: map<Prop, PropType>) returns (r: Outcome<DataObject>)
    requires data.Valid()
    ensures r.Returned? <==> Projection(data.props, Stored(Table(c, message))).Some?
    ensures r.Returned? ==> fresh(r.value) && r.value.Valid()
    ensures r.Returned? ==> r.value.dataClass == c && r.value.types == Stored(Table(c, message))
    ensures r.Returned? ==> r.value.props == Projection(data.props, Stored(Table(c, message))).value
  {
    var toData := new DataObject(c, message);
    DeclaredStored(Table(c, message));
    var threw := CopyDeclared(data, toData, Declared(Table(c, message)));
    if threw {
      return Threw;
    }
    return Returned(toData);
  }
}
