/**
 * The entities of the decoder: the envelope (`Thing`), the typed record it
 * carries (`IData`), the property names and declared property types the
 * reflective projection works with, and boxed property values.
 */
module Records {
  import opened Wrappers

  /** `Thing.ThingKind`: the closed set of wire tags. */
  datatype Kind =
    | Listing  // "Listing"
    | T1       // "t1", comment
    | T2       // "t2", account
    | T3       // "t3", link
    | T4       // "t4", message
    | T5       // "t5", subreddit
    | More     // "more"

  /** The runtime class of a record: the god object `Data` or one of the narrow variants. */
  datatype DataClass =
    | Data
    | ListingData
    | CommentData
    | AccountData
    | LinkData
    | MessageData
    | SubredditData
    | MoreData

  /**
   * Property names of the record classes. Two classes share a property exactly
   * when they declare a property of the same name; the last three are the
   * private wire helpers.
   */
  datatype Prop =
    | Modhash | Children | After | Before
    | SubredditId | BannedBy | LinkId | Likes | Replies | Id | Gilded | Author
    | ParentId | ApprovedBy | Body | Edited | AuthorFlairCssClass | Downs
    | BodyHtml | Subreddit | Name | Created | AuthorFlairText | CreatedUtc
    | NumReports | Ups
    | HasMail | LinkKarma | CommentKarma | IsGold | IsMod | HasModMail
    | Domain | SelfTextHtml | SelfText | LinkFlairText | Saved | Clicked
    | Score | Over18 | Hidden | Thumbnail | LinkFlairCssClass | IsSelf
    | Permalink | Url | Title | NumComments
    | DisplayName | Subscribers | Description
    | Count
    | Created64 | CreatedUtc64 | EditedObject

  /** The declared CLR type of a property, as far as assignment distinguishes them. */
  datatype PropType =
    | StringT            // string
    | BoolT              // bool
    | NullableBoolT      // bool?
    | LongT              // long
    | NullableLongT      // long?
    | DateTimeT          // DateTime
    | NullableDateTimeT  // DateTime?
    | ThingT             // Thing
    | ThingListT         // List<Thing>
    | ObjectT            // object

  /** A boxed property value; `Null` is the null reference. */
  datatype Value =
    | Null
    | Str(s: string)
    | Bool(b: bool)
    | Long(n: int)
    | Date(ticks: int)
    | One(thing: Thing)
    | Many(things: seq<Option<Thing>>)

  /** A decoded envelope: its kind and the typed record `Data` holds. */
  datatype Thing = Thing(kind: Kind, data: Record)

  /** A record object: its runtime class and the values of its stored properties. */
  datatype Record = Record(dataClass: DataClass, props: map<Prop, Value>)

  /** The three private wire helpers, which the projection skips by name. */
  predicate IsHelper(p: Prop)
  {
    p == EditedObject || p == Created64 || p == CreatedUtc64
  }

  /**
   * True when `props` holds exactly the properties `types` declares, each with
   * a value its declared type can hold.
   */
  predicate Typed(props: map<Prop, Value>, types: map<Prop, PropType>)
  {
    props.Keys == types.Keys && forall p :: p in props ==> Conforms(props[p], types[p])
  }

  /** True when a property of type `t` can hold `v` as it is. */
  predicate Conforms(v: Value, t: PropType)
  {
    match t
    case StringT => v.Null? || v.Str?
    case BoolT => v.Bool?
    case NullableBoolT => v.Null? || v.Bool?
    case LongT => v.Long?
    case NullableLongT => v.Null? || v.Long?
    case DateTimeT => v.Date?
    case NullableDateTimeT => v.Null? || v.Date?
    case ThingT => v.Null? || v.One?
    case ThingListT => v.Null? || v.Many?
    case ObjectT => true
  }

  /** True for the value types that cannot hold null. */
  predicate IsValueType(t: PropType)
  {
    t == BoolT || t == LongT || t == DateTimeT
  }

  /** The value a freshly created object holds in a property of type `t`. */
  function Default(t: PropType): (v: Value)
    ensures Conforms(v, t)
    ensures !IsValueType(t) <==> v == Null
  {
    match t
    case BoolT => Bool(false)
    case LongT => Long(0)
    case DateTimeT => Date(0)
    case _ => Null
  }

  /**
   * `PropertyInfo.SetValue`: a conforming value is stored as it is, a null
   * stored into a value type becomes that type's default, and anything else
   * throws (`None`).
   */
  function Assign(v: Value, t: PropType): (r: Option<Value>)
    ensures r.Some? <==> Conforms(v, t) || (v == Null && IsValueType(t))
    ensures r.Some? ==> Conforms(r.value, t)
    ensures r.Some? && r.value != v ==> v == Null && r.value == Default(t)
  {
    if Conforms(v, t) then Some(v)
    else if v == Null && IsValueType(t) then Some(Default(t))
    else None
  }

  /** Assigning a value that already came out of an assignment to the same type changes nothing. */
  lemma AssignIdempotent(v: Value, t: PropType)
    requires Assign(v, t).Some?
    ensures Assign(Assign(v, t).value, t) == Assign(v, t)
  {
  }
}
