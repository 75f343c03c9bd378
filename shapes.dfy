/**
 * The declared property tables of the record classes: the god object `Data`
 * (only its live, uncommented properties) and every narrow variant, including
 * each variant's private wire helpers.
 */
module Shapes {
  import opened Wrappers
  import opened Records

  /** `Some(t)` when class `c` is one of `classes`, which declare the property with type `t`. */
  function DeclaredBy(c: DataClass, classes: set<DataClass>, t: PropType): Option<PropType>
  {
    if c in classes then Some(t) else None
  }

  /**
   * The declared type of property `p` on the god object `Data`, which
   * declares every property (only its live, uncommented ones exist).
   */
  function DataType(p: Prop): PropType
  {
    match p
    // listing region
    case Modhash => StringT
    case Children => ThingListT
    case After => StringT
    case Before => StringT
    // comment region
    case SubredditId => StringT
    case BannedBy => StringT
    case LinkId => StringT
    case Likes => NullableBoolT
    case Replies => ThingT
    case Id => StringT
    case Gilded => LongT
    case Author => StringT
    case ParentId => StringT
    case ApprovedBy => StringT
    case Body => StringT
    case Edited => NullableDateTimeT
    case AuthorFlairCssClass => StringT
    case Downs => NullableLongT
    case BodyHtml => StringT
    case Subreddit => StringT
    case Name => StringT
    case Created => DateTimeT
    case AuthorFlairText => StringT
    case CreatedUtc => DateTimeT
    case NumReports => NullableLongT
    case Ups => NullableLongT
    // account region
    case HasMail => BoolT
    case LinkKarma => NullableLongT
    case CommentKarma => NullableLongT
    case IsGold => BoolT
    case IsMod => BoolT
    case HasModMail => BoolT
    // link region
    case Domain => StringT
    case SelfTextHtml => StringT
    case SelfText => StringT
    case LinkFlairText => StringT
    case Saved => BoolT
    case Clicked => BoolT
    case Score => NullableLongT
    case Over18 => BoolT
    case Hidden => NullableBoolT
    case Thumbnail => StringT
    case LinkFlairCssClass => StringT
    case IsSelf => BoolT
    case Permalink => StringT
    case Url => StringT
    case Title => StringT
    case NumComments => NullableLongT
    // subreddit region
    case DisplayName => StringT
    case Subscribers => NullableLongT
    case Description => StringT
    // more region
    case Count => NullableLongT
    // private wire helpers
    case Created64 => LongT
    case CreatedUtc64 => LongT
    case EditedObject => ObjectT
  }

  /**
   * The declared type of property `p` on the narrow variant `c`, or `None`
   * when `c` declares no such property. `MessageData` is not part of this
   * model: it declares nothing here.
   */
  function VariantType(c: DataClass, p: Prop): Option<PropType>
  {
    match p
    // listing region
    case Modhash => DeclaredBy(c, {ListingData, AccountData}, StringT)
    case Children => DeclaredBy(c, {ListingData}, ThingListT)
    case After => DeclaredBy(c, {ListingData}, StringT)
    case Before => DeclaredBy(c, {ListingData}, StringT)
    // comment region
    case SubredditId => DeclaredBy(c, {CommentData, LinkData}, StringT)
    case BannedBy => DeclaredBy(c, {CommentData, LinkData}, StringT)
    case LinkId => DeclaredBy(c, {CommentData}, StringT)
    case Likes => if c == CommentData then Some(StringT) else DeclaredBy(c, {LinkData}, NullableBoolT)
    case Replies => if c == CommentData then Some(ThingListT) else None
    case Id => DeclaredBy(c, {CommentData, AccountData, LinkData, SubredditData, MoreData}, StringT)
    case Gilded => if c == CommentData then Some(BoolT) else None
    case Author => DeclaredBy(c, {CommentData, LinkData}, StringT)
    case ParentId => DeclaredBy(c, {CommentData}, StringT)
    case ApprovedBy => DeclaredBy(c, {CommentData, LinkData}, StringT)
    case Body => DeclaredBy(c, {CommentData}, StringT)
    case Edited => DeclaredBy(c, {CommentData, LinkData}, NullableDateTimeT)
    case AuthorFlairCssClass => DeclaredBy(c, {CommentData, LinkData}, StringT)
    case Downs => if c == CommentData then Some(LongT) else DeclaredBy(c, {LinkData}, NullableLongT)
    case BodyHtml => DeclaredBy(c, {CommentData}, StringT)
    case Subreddit => DeclaredBy(c, {CommentData, LinkData}, StringT)
    case Name => DeclaredBy(c, {CommentData, AccountData, LinkData, SubredditData, MoreData}, StringT)
    case Created => DeclaredBy(c, {CommentData, AccountData, LinkData, SubredditData}, DateTimeT)
    case AuthorFlairText => DeclaredBy(c, {CommentData, LinkData}, StringT)
    case CreatedUtc => DeclaredBy(c, {CommentData, AccountData, LinkData, SubredditData}, DateTimeT)
    case NumReports => DeclaredBy(c, {CommentData, LinkData}, NullableLongT)
    case Ups => if c == CommentData then Some(LongT) else DeclaredBy(c, {LinkData}, NullableLongT)
    // account region
    case HasMail => DeclaredBy(c, {AccountData}, BoolT)
    case LinkKarma => DeclaredBy(c, {AccountData}, NullableLongT)
    case CommentKarma => DeclaredBy(c, {AccountData}, NullableLongT)
    case IsGold => DeclaredBy(c, {AccountData}, BoolT)
    case IsMod => DeclaredBy(c, {AccountData}, BoolT)
    case HasModMail => DeclaredBy(c, {AccountData}, BoolT)
    // link region
    case Domain => DeclaredBy(c, {LinkData}, StringT)
    case SelfTextHtml => DeclaredBy(c, {LinkData}, StringT)
    case SelfText => DeclaredBy(c, {LinkData}, StringT)
    case LinkFlairText => DeclaredBy(c, {LinkData}, StringT)
    case Saved => DeclaredBy(c, {LinkData}, BoolT)
    case Clicked => DeclaredBy(c, {LinkData}, BoolT)
    case Score => DeclaredBy(c, {LinkData}, NullableLongT)
    case Over18 => DeclaredBy(c, {LinkData, SubredditData}, BoolT)
    case Hidden => DeclaredBy(c, {LinkData}, NullableBoolT)
    case Thumbnail => DeclaredBy(c, {LinkData}, StringT)
    case LinkFlairCssClass => DeclaredBy(c, {LinkData}, StringT)
    case IsSelf => DeclaredBy(c, {LinkData}, BoolT)
    case Permalink => DeclaredBy(c, {LinkData}, StringT)
    case Url => DeclaredBy(c, {LinkData, SubredditData}, StringT)
    case Title => DeclaredBy(c, {LinkData, SubredditData}, StringT)
    case NumComments => DeclaredBy(c, {LinkData}, NullableLongT)
    // subreddit region
    case DisplayName => DeclaredBy(c, {SubredditData}, StringT)
    case Subscribers => if c == SubredditData then Some(LongT) else None
    case Description => DeclaredBy(c, {SubredditData}, StringT)
    // more region
    case Count => DeclaredBy(c, {MoreData}, NullableLongT)
    // private wire helpers
    case Created64 => DeclaredBy(c, {CommentData, AccountData, LinkData, SubredditData}, LongT)
    case CreatedUtc64 => DeclaredBy(c, {CommentData, AccountData, LinkData, SubredditData}, LongT)
    case EditedObject => DeclaredBy(c, {CommentData, LinkData}, ObjectT)
  }

  /** The declared type of property `p` on record class `c`, or `None` when `c` declares no such property. */
  function DeclaredType(c: DataClass, p: Prop): Option<PropType>
  {
    if c == Data then Some(DataType(p)) else VariantType(c, p)
  }

  /**
   * The declared property table of a record class. `MessageData` is not part
   * of this model, so its table is the caller-supplied `message`; the other
   * classes ignore it.
   */
  datatype Table = Table(dataClass: DataClass, message: map<Prop, PropType>)
  {
    /** The declared type of property `p`, or `None` when the class declares no such property. */
    function TypeOf(p: Prop): Option<PropType>
    {
      if dataClass == MessageData then
        if p in message then Some(message[p]) else None
      else
        DeclaredType(dataClass, p)
    }

    /** True for the declared properties an instance stores and the projection copies: all but the private helpers. */
    predicate Copies(p: Prop)
    {
      TypeOf(p).Some? && !IsHelper(p)
    }
  }

  /** The table of `Data` itself. */
  const DataTable: Table := Table(Data, map[])

  /** The stored properties of table `t` with their declared types. */
  function Stored(t: Table): (m: map<Prop, PropType>)
    ensures forall p :: p in m <==> t.Copies(p)
    ensures forall p :: p in m ==> t.TypeOf(p) == Some(m[p])
  {
    map p | t.Copies(p) :: t.TypeOf(p).value
  }

  /**
   * True when every value a `from` property can hold is one a `to` property
   * accepts (null included, through the default of a value type).
   */
  predicate Compatible(from: PropType, to: PropType)
  {
    from == to
    || (from == BoolT && to == NullableBoolT)
    || (from == LongT && to == NullableLongT)
    || (from == DateTimeT && to == NullableDateTimeT)
    || (from == NullableBoolT && to == BoolT)
    || (from == NullableLongT && to == LongT)
    || (from == NullableDateTimeT && to == DateTimeT)
    || to == ObjectT
  }

  /** Every property of `to` is a property of `from` with a compatible type. */
  predicate ProjectableFrom(from: map<Prop, PropType>, to: map<Prop, PropType>)
  {
    forall p :: p in to ==> p in from && Compatible(from[p], to[p])
  }

  /** Every property of `to` other than `x` is a property of `from` with the very same type. */
  predicate SameTypedExcept(from: map<Prop, PropType>, to: map<Prop, PropType>, x: Option<Prop>)
  {
    forall p :: p in to && Some(p) != x ==> p in from && from[p] == to[p]
  }

  /** True when class `c` declares every property of its own with the type `Data` gives it, except `x`. */
  predicate DataDeclaresAs(c: DataClass, x: Option<Prop>)
  {
    forall p :: DeclaredType(c, p).Some? && Some(p) != x ==> DeclaredType(Data, p) == DeclaredType(c, p)
  }

  /** What a class declares as `Data` does carries over to the stored tables. */
  lemma {:induction false} StoredSameTyped(c: DataClass, message: map<Prop, PropType>, x: Option<Prop>)
    requires c != MessageData && DataDeclaresAs(c, x)
    ensures SameTypedExcept(Stored(DataTable), Stored(Table(c, message)), x)
  {
    var from, to := Stored(DataTable), Stored(Table(c, message));
    forall p | p in to && Some(p) != x
      ensures p in from && from[p] == to[p]
    {
      assert Table(c, message).TypeOf(p) == DeclaredType(c, p);
      assert DataTable.TypeOf(p) == DeclaredType(Data, p);
    }
  }

  /** Same-typed properties are in particular compatible. */
  lemma SameTypedProjectable(from: map<Prop, PropType>, to: map<Prop, PropType>)
    requires SameTypedExcept(from, to, None)
    ensures ProjectableFrom(from, to)
  {
  }

  /** `Data` declares every listing property, with the same type. */
  lemma DataCoversListing()
    ensures DataDeclaresAs(ListingData, None)
  {
  }

  /** `Data` declares every account property, with the same type. */
  lemma DataCoversAccount()
    ensures DataDeclaresAs(AccountData, None)
  {
  }

  /** `Data` declares every link property, with the same type. */
  lemma DataCoversLink()
    ensures DataDeclaresAs(LinkData, None)
  {
  }

  /** `Data` declares all three "more" properties, with the same types. */
  lemma DataCoversMore()
    ensures DataDeclaresAs(MoreData, None)
  {
  }

  /**
   * `Data` declares every subreddit property with the same type, except
   * `Subscribers`, which is `long?` there and `long` here.
   */
  lemma DataCoversSubreddit()
    ensures DataDeclaresAs(SubredditData, Some(Subscribers))
    ensures DeclaredType(Data, Subscribers) == Some(NullableLongT)
    ensures DeclaredType(SubredditData, Subscribers) == Some(LongT)
  {
  }

  /** The subreddit variant stores `Subscribers` as a `long`. */
  lemma {:induction false} SubscribersStoredAsLong(message: map<Prop, PropType>)
    ensures Subscribers in Stored(Table(SubredditData, message))
    ensures Stored(Table(SubredditData, message))[Subscribers] == LongT
  {
    assert Table(SubredditData, message).Copies(Subscribers);
  }

  /** The subreddit table is still projectable from the `Data` table: `long?` and `long` are compatible. */
  lemma {:induction false} SubredditProjectable(message: map<Prop, PropType>)
    ensures ProjectableFrom(Stored(DataTable), Stored(Table(SubredditData, message)))
  {
    DataCoversSubreddit();
    StoredSameTyped(SubredditData, message, Some(Subscribers));
    var from, to := Stored(DataTable), Stored(Table(SubredditData, message));
    assert Subscribers in from && from[Subscribers] == NullableLongT;
    assert Subscribers in to && to[Subscribers] == LongT;
  }

  /**
   * The comment variant redeclares `Likes`, `Replies` and `Gilded` with types
   * that the ones on `Data` are not compatible with.
   */
  lemma CommentIncompatible()
    ensures !Compatible(DeclaredType(Data, Likes).value, DeclaredType(CommentData, Likes).value)
    ensures !Compatible(DeclaredType(Data, Replies).value, DeclaredType(CommentData, Replies).value)
    ensures !Compatible(DeclaredType(Data, Gilded).value, DeclaredType(CommentData, Gilded).value)
  {
  }
}
