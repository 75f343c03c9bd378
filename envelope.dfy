/**
 * `Thing`: the tagged envelope. The wire tag names, the binding of a parsed
 * JSON envelope to a `Thing` whose `Data` is projected onto the variant the
 * tag selects, `DeserializeList` and `GetDataList`.
 *
 * The JSON text parser is foreign: it is a parameter `parse` that yields a
 * JSON tree or fails. The data-contract binding of a tree to `Thing` and
 * `Data` is modelled here.
 */
module Envelope {
  import opened Wrappers
  import opened Records
  import opened Shapes
  import opened Conversions
  import opened Helper
  import opened Text

  /** A parsed JSON value. */
  datatype Json =
    | JNull
    | JBool(b: bool)
    | JNum(n: int)
    | JStr(s: string)
    | JArr(items: seq<Json>)
    | JObj(members: seq<Member>)

  /** One member of a JSON object, in wire order. */
  datatype Member = Member(key: string, value: Json)

  /** `ThingKind.ToString()`: the wire name of each tag. */
  function KindName(k: Kind): string
  {
    match k
    case Listing => "Listing"
    case T1 => "t1"
    case T2 => "t2"
    case T3 => "t3"
    case T4 => "t4"
    case T5 => "t5"
    case More => "more"
  }

  /** `Enum.Parse(typeof(ThingKind), name)`: one of the seven names, or `None` when it throws. */
  function ParseKind(name: string): Option<Kind>
  {
    match name
    case "Listing" => Some(Listing)
    case "t1" => Some(T1)
    case "t2" => Some(T2)
    case "t3" => Some(T3)
    case "t4" => Some(T4)
    case "t5" => Some(T5)
    case "more" => Some(More)
    case _ => None
  }

  /** Each tag's name parses back to that tag. */
  lemma KindNameParses(k: Kind)
    ensures ParseKind(KindName(k)) == Some(k)
  {
  }

  /** A name that parses is exactly the name of the tag it parses to. */
  lemma ParsedKindNamed(name: string)
    requires ParseKind(name).Some?
    ensures KindName(ParseKind(name).value) == name
  {
  }

  /** The variant class `OnDeserialized` projects `Data` onto for each tag. */
  function ClassOf(k: Kind): DataClass
  {
    match k
    case Listing => ListingData
    case T1 => CommentData
    case T2 => AccountData
    case T3 => LinkData
    case T4 => MessageData
    case T5 => SubredditData
    case More => MoreData
  }

  /** Distinct tags select distinct variants, none of them the god object. */
  lemma ClassOfInjective(k1: Kind, k2: Kind)
    ensures ClassOf(k1) == ClassOf(k2) ==> k1 == k2
    ensures ClassOf(k1) != Data
  {
  }

  /**
   * The data member of `Data` each wire key binds to; `None` for keys `Data`
   * does not declare. `Data` declares its members region by region, and no
   * key is declared in two regions.
   */
  function WireKey(key: string): Option<Prop>
  {
    if ListingKey(key).Some? then ListingKey(key)
    else if CommentKey(key).Some? then CommentKey(key)
    else if AccountKey(key).Some? then AccountKey(key)
    else if LinkKey(key).Some? then LinkKey(key)
    else if SubredditKey(key).Some? then SubredditKey(key)
    else if MoreKey(key).Some? then MoreKey(key)
    else HelperKey(key)
  }

  /** The wire keys of the listing region of `Data`. */
  function ListingKey(key: string): Option<Prop>
  {
    match key
    case "modhash" => Some(Modhash)
    case "children" => Some(Children)
    case "after" => Some(After)
    case "before" => Some(Before)
    case _ => None
  }

  /** The wire keys of the comment region of `Data`. */
  function CommentKey(key: string): Option<Prop>
  {
    match key
    case "subreddit_id" => Some(SubredditId)
    case "banned_by" => Some(BannedBy)
    case "link_id" => Some(LinkId)
    case "likes" => Some(Likes)
    case "replies" => Some(Replies)
    case "id" => Some(Id)
    case "gilded" => Some(Gilded)
    case "author" => Some(Author)
    case "parent_id" => Some(ParentId)
    case "approved_by" => Some(ApprovedBy)
    case "body" => Some(Body)
    case "author_flair_css_class" => Some(AuthorFlairCssClass)
    case "downs" => Some(Downs)
    case "body_html" => Some(BodyHtml)
    case "subreddit" => Some(Subreddit)
    case "name" => Some(Name)
    case "author_flair_text" => Some(AuthorFlairText)
    case "num_reports" => Some(NumReports)
    case "ups" => Some(Ups)
    case _ => None
  }

  /** The wire keys of the account region of `Data`. */
  function AccountKey(key: string): Option<Prop>
  {
    match key
    case "has_mail" => Some(HasMail)
    case "link_karma" => Some(LinkKarma)
    case "comment_karma" => Some(CommentKarma)
    case "is_gold" => Some(IsGold)
    case "is_mod" => Some(IsMod)
    case "has_mod_mail" => Some(HasModMail)
    case _ => None
  }

  /** The wire keys of the link region of `Data`. */
  function LinkKey(key: string): Option<Prop>
  {
    match key
    case "domain" => Some(Domain)
    case "selftext_html" => Some(SelfTextHtml)
    case "selftext" => Some(SelfText)
    case "link_flair_text" => Some(LinkFlairText)
    case "saved" => Some(Saved)
    case "clicked" => Some(Clicked)
    case "score" => Some(Score)
    case "over_18" => Some(Over18)
    case "hidden" => Some(Hidden)
    case "thumbnail" => Some(Thumbnail)
    case "link_flair_css_class" => Some(LinkFlairCssClass)
    case "is_self" => Some(IsSelf)
    case "permalink" => Some(Permalink)
    case "url" => Some(Url)
    case "title" => Some(Title)
    case "num_comments" => Some(NumComments)
    case _ => None
  }

  /** The wire keys of the subreddit region of `Data`. */
  function SubredditKey(key: string): Option<Prop>
  {
    match key
    case "display_name" => Some(DisplayName)
    case "subscribers" => Some(Subscribers)
    case "description" => Some(Description)
    case _ => None
  }

  /** The wire keys of the "more" region of `Data`. */
  function MoreKey(key: string): Option<Prop>
  {
    match key
    case "count" => Some(Count)
    case _ => None
  }

  /** The wire keys of the private helpers of `Data`. */
  function HelperKey(key: string): Option<Prop>
  {
    match key
    case "created" => Some(Created64)
    case "created_utc" => Some(CreatedUtc64)
    case "edited" => Some(EditedObject)
    case _ => None
  }

  /** No wire key binds to one of the three `DateTime` properties: their values arrive through the helpers. */
  lemma WireKeysSkipDates(key: string)
    ensures WireKey(key).Some? ==> WireKey(key).value !in {Created, CreatedUtc, Edited}
  {
  }

  /** The subreddit variant's `Over18` is bound from `over_18`; `over18` binds to nothing. */
  lemma Over18WireKey()
    ensures WireKey("over_18") == Some(Over18)
    ensures WireKey("over18").None?
  {
  }

  /** The boxed `object` the serializer hands to an `object` member, or `None` when it cannot. */
  function BoxedOf(v: Json): (r: Option<Boxed>)
    ensures r.Some? <==> v.JNull? || v.JBool? || v.JNum?
  {
    match v
    case JNull => Some(BoxedNull)
    case JBool(b) => Some(BoxedBool(b))
    case JNum(n) => Some(BoxedLong(n))
    case _ => None
  }

  /** The state of a `Thing` while its members are bound: `Kind` and `InternalData` (`None` is null). */
  datatype EnvelopeState = EnvelopeState(kind: Kind, internalData: Option<map<Prop, Value>>)

  /** True when a bound `InternalData` is a well-formed `Data` instance. */
  ghost predicate GoodState(st: EnvelopeState)
  {
    st.internalData.Some? ==> IsDataRecord(st.internalData.value)
  }

  /**
   * `OnDeserialized`: `Data` becomes `InternalData.ToData<T>()` for the variant
   * `T` the tag selects, or `None` when that throws (a null `InternalData`, or
   * a failed projection).
   */
  function Dispatch(kind: Kind, internalData: Option<map<Prop, Value>>, message: map<Prop, PropType>): (r: Option<Record>)
    ensures r.Some? <==> internalData.Some? && Projection(internalData.value, Stored(Table(ClassOf(kind), message))).Some?
    ensures r.Some? ==> r.value.dataClass == ClassOf(kind)
    ensures r.Some? ==> r.value.props == Projection(internalData.value, Stored(Table(ClassOf(kind), message))).value
  {
    match internalData
    case None => None
    case Some(source) =>
      match Projection(source, Stored(Table(ClassOf(kind), message)))
      case None => None
      case Some(props) => Some(Record(ClassOf(kind), props))
  }

  /** A bound `Data` always dispatches for the listing, account, link and more tags. */
  lemma {:induction false} VariantsDispatch(kind: Kind, source: map<Prop, Value>, message: map<Prop, PropType>)
    requires IsDataRecord(source)
    requires kind == Listing || kind == T2 || kind == T3 || kind == More
    ensures Dispatch(kind, Some(source), message).Some?
  {
    VariantProjects(source, ClassOf(kind), message);
  }

  /** A bound `Data` always dispatches for the subreddit tag. */
  lemma {:induction false} SubredditDispatches(kind: Kind, source: map<Prop, Value>, message: map<Prop, PropType>)
    requires IsDataRecord(source) && kind == T5
    ensures Dispatch(kind, Some(source), message).Some?
  {
    SubredditProjectable(message);
    ProjectableSucceeds(source, Stored(DataTable), Stored(Table(SubredditData, message)));
  }

  /** A bound `Data` never dispatches for the comment tag. */
  lemma {:induction false} CommentNeverDispatches(source: map<Prop, Value>, message: map<Prop, PropType>)
    requires IsDataRecord(source)
    ensures Dispatch(T1, Some(source), message).None?
  {
    CommentProjectionFails(source, message);
  }

  /**
   * The whole envelope binding: the members of a JSON object bound in wire
   * order (a later member overrides an earlier one; unknown keys are
   * skipped), then `OnDeserialized`. `None` when any step throws.
   */
  function DecodeThing(j: Json, message: map<Prop, PropType>): (r: Option<Thing>)
    ensures r.Some? ==> j.JObj? && r.value.data.dataClass == ClassOf(r.value.kind)
    ensures r.Some? ==> r.value.kind != T1
    decreases j, 3, 0
  {
    if !j.JObj? then None
    else
      match BindThing(j, 0, EnvelopeState(Listing, None), message)
      case None => None
      case Some(st) =>
        NoCommentDispatch(st, message);
        match Dispatch(st.kind, st.internalData, message)
        case None => None
        case Some(record) => Some(Thing(st.kind, record))
  }

  /** Whatever state the members leave, a comment tag never dispatches. */
  lemma NoCommentDispatch(st: EnvelopeState, message: map<Prop, PropType>)
    requires GoodState(st)
    ensures st.kind == T1 ==> Dispatch(st.kind, st.internalData, message).None?
  {
    if st.kind == T1 && st.internalData.Some? {
      CommentNeverDispatches(st.internalData.value, message);
    }
  }

  /**
   * The members of envelope `j` from index `i` on, bound into `st`: `kind`
   * through the `InternalKind` setter, `data` into `InternalData`.
   */
  function BindThing(j: Json, i: nat, st: EnvelopeState, message: map<Prop, PropType>): (r: Option<EnvelopeState>)
    requires j.JObj? && i <= |j.members| && GoodState(st)
    ensures r.Some? ==> GoodState(r.value)
    decreases j, 2, |j.members| - i
  {
    if i == |j.members| then Some(st)
    else
      var m := j.members[i];
      assert m in j.members;
      if m.key == "kind" then
        match m.value
        case JStr(name) =>
          (match ParseKind(name)
           case None => None
           case Some(k) => BindThing(j, i + 1, st.(kind := k), message))
        case _ => None
      else if m.key == "data" then
        match m.value
        case JNull => BindThing(j, i + 1, st.(internalData := None), message)
        case JObj(_) =>
          (match DecodeData(m.value, message)
           case None => None
           case Some(props) => BindThing(j, i + 1, st.(internalData := Some(props)), message))
        case _ => None
      else BindThing(j, i + 1, st, message)
  }

  /** A JSON object bound to a fresh `Data` instance, or `None` when a member cannot be bound. */
  function DecodeData(j: Json, message: map<Prop, PropType>): (r: Option<map<Prop, Value>>)
    requires j.JObj?
    ensures r.Some? ==> IsDataRecord(r.value)
    decreases j, 1, 0
  {
    BindData(j, 0, Defaults(Stored(DataTable)), message)
  }

  /**
   * The stored property of `Data` a wire key fills: the data member it names,
   * or for the three helpers the `DateTime` property their setter writes.
   */
  function Target(key: string): (r: Option<Prop>)
    ensures r.Some? <==> WireKey(key).Some?
    ensures r.Some? ==> !IsHelper(r.value)
    ensures r.Some? && !IsHelper(WireKey(key).value) ==> r.value == WireKey(key).value
  {
    match WireKey(key)
    case None => None
    case Some(p) => Some(Filled(p))
  }

  /** The property a data member's setter writes: itself, or for a helper its `DateTime`. */
  function Filled(p: Prop): (q: Prop)
    ensures !IsHelper(q)
    ensures !IsHelper(p) ==> q == p
  {
    if p == Created64 then Created else if p == CreatedUtc64 then CreatedUtc else if p == EditedObject then Edited else p
  }

  /** Every property other than the three helpers is a stored property of `Data`. */
  lemma StoredOnData(p: Prop)
    requires !IsHelper(p)
    ensures p in Stored(DataTable)
  {
    assert DataTable.Copies(p);
  }

  /**
   * The members of `j` from index `i` on, bound into the `Data` instance
   * `props`: an unknown key is skipped, and a known one stores what
   * `BindMember` binds in the property `Target` names.
   */
  function BindData(j: Json, i: nat, props: map<Prop, Value>, message: map<Prop, PropType>): (r: Option<map<Prop, Value>>)
    requires j.JObj? && i <= |j.members| && IsDataRecord(props)
    ensures r.Some? ==> IsDataRecord(r.value)
    decreases j, 0, |j.members| - i
  {
    if i == |j.members| then Some(props)
    else
      var m := j.members[i];
      assert m in j.members;
      match Target(m.key)
      case None => BindData(j, i + 1, props, message)
      case Some(p) =>
        StoredOnData(p);
        match BindMember(p, m.value, message)
        case None => None
        case Some(v) =>
          StorePreservesTyping(props, Stored(DataTable), p, v);
          BindData(j, i + 1, props[p := v], message)
  }

  /**
   * The value stored property `p` of `Data` takes from the wire value `v` of a
   * member that fills it, or `None` when binding that member throws:
   * `created` and `created_utc` run the timestamp setters on Unix seconds,
   * `edited` runs `Data`'s `EditedObject` setter on the boxed value, and
   * every public member takes the serializer's binding of its type.
   */
  function BindMember(p: Prop, v: Json, message: map<Prop, PropType>): (r: Option<Value>)
    requires p in Stored(DataTable)
    ensures r.Some? ==> Conforms(r.value, Stored(DataTable)[p])
    decreases v, 6, 0
  {
    if p == Created || p == CreatedUtc then
      StoredTimestamps(Data, map[]);
      if v.JNum? then Some(AtSeconds(v.n)) else None
    else if p == Edited then
      StoredEdited(Data, map[]);
      match BoxedOf(v) case None => None case Some(boxed) => EditedValue(ReturnOnBool, boxed)
    else DecodeValue(v, Stored(DataTable)[p], message)
  }

  /**
   * The value the serializer binds to a public member of type `t`: strings,
   * booleans and integers from the JSON value of that kind, null only into a
   * reference or nullable type, a nested envelope into `Thing` and an array
   * of envelopes into `List<Thing>`.
   */
  function DecodeValue(v: Json, t: PropType, message: map<Prop, PropType>): (r: Option<Value>)
    ensures r.Some? ==> Conforms(r.value, t)
    decreases v, 5, 0
  {
    match v
    case JNull => if Conforms(Null, t) then Some(Null) else None
    case JBool(b) => if t == BoolT || t == NullableBoolT then Some(Bool(b)) else None
    case JNum(n) => if t == LongT || t == NullableLongT then Some(Long(n)) else None
    case JStr(s) => if t == StringT then Some(Str(s)) else None
    case JObj(_) =>
      if t != ThingT then None
      else (match DecodeThing(v, message) case None => None case Some(thing) => Some(One(thing)))
    case JArr(_) =>
      if t != ThingListT then None
      else (match DecodeItems(v, 0, message) case None => None case Some(things) => Some(Many(things)))
  }

  /** The element the serializer binds for one array entry: a null reference or an envelope. */
  ghost predicate ItemBinds(item: Json, bound: Option<Thing>, message: map<Prop, PropType>)
    decreases item, 3, 1
  {
    (item.JNull? && bound.None?) || (bound.Some? && DecodeThing(item, message) == bound)
  }

  /**
   * The entries of array `v` from index `i` on, bound in order: the `k`-th
   * bound element comes from the `k`-th entry, and the whole array fails when
   * one entry does.
   */
  function DecodeItems(v: Json, i: nat, message: map<Prop, PropType>): (r: Option<seq<Option<Thing>>>)
    requires v.JArr? && i <= |v.items|
    ensures r.Some? ==> |r.value| == |v.items| - i
    ensures r.Some? ==> forall k :: 0 <= k < |r.value| ==> ItemBinds(v.items[i + k], r.value[k], message)
    ensures r.None? ==> exists k :: i <= k < |v.items| && !v.items[k].JNull? && DecodeThing(v.items[k], message).None?
    decreases v, 4, |v.items| - i
  {
    if i == |v.items| then Some([])
    else
      var item := v.items[i];
      assert item in v.items;
      var head: Option<Option<Thing>> :=
        if item.JNull? then Some(None)
        else match DecodeThing(item, message) case None => None case Some(t) => Some(Some(t));
      match head
      case None => None
      case Some(bound) =>
        match DecodeItems(v, i + 1, message)
        case None => None
        case Some(rest) => Some([bound] + rest)
  }

  /**
   * A `Thing` during deserialization: the serializer creates it uninitialised
   * (`Kind` is its first tag, `Listing`), calls the `InternalKind` and
   * `InternalData` setters, then `OnDeserialized`.
   */
  class ThingObject {
    var kind: Kind
    var internalData: Option<map<Prop, Value>>
    var data: Option<Record>

    /** A `Thing` before any member is bound. */
    constructor ()
      ensures kind == Listing && internalData.None? && data.None?
    {
      kind := Listing;
      internalData := None;
      data := None;
    }

    /** The `InternalKind` getter: the name of `Kind`. */
    function InternalKind(): (name: string)
      reads this
      ensures ParseKind(name) == Some(kind)
    {
      KindName(kind)
    }

    /**
     * The `InternalKind` setter: parses the name and stores the tag, or
     * throws (`threw`) for any other name, changing nothing.
     */
    method SetInternalKind(value: string) returns (threw: bool)
      modifies this
      ensures threw <==> ParseKind(value).None?
      ensures !threw ==> kind == ParseKind(value).value && InternalKind() == value
      ensures threw ==> kind == old(kind)
      ensures internalData == old(internalData) && data == old(data)
    {
      match ParseKind(value) {
        case None =>
          return true;
        case Some(parsed) =>
          match parsed {
            case Listing => kind := Listing;
            case T1 => kind := T1;
            case T2 => kind := T2;
            case T3 => kind := T3;
            case T4 => kind := T4;
            case T5 => kind := T5;
            case More => kind := More;
          }
      }
      threw := false;
    }

    /** The `InternalData` setter. */
    method SetInternalData(value: Option<map<Prop, Value>>)
      modifies this
      ensures internalData == value
      ensures kind == old(kind) && data == old(data)
    {
      internalData := value;
    }

    /**
     * `OnDeserialized`: `Data` becomes the projection of `InternalData` onto
     * the variant of `Kind`, or the call throws (`threw`), changing nothing.
     */
    method OnDeserialized(message: map<Prop, PropType>) returns (threw: bool)
      modifies this
      ensures threw <==> Dispatch(kind, internalData, message).None?
      ensures !threw ==> data == Dispatch(kind, internalData, message)
      ensures threw ==> data == old(data)
      ensures kind == old(kind) && internalData == old(internalData)
    {
      var projected := Dispatch(kind, internalData, message);
      if projected.None? {
        return true;
      }
      data := projected;
      threw := false;
    }
  }

  /** The list a non-array payload yields: its single envelope, or `None` when binding fails. */
  function SinglePayload(parsed: Option<Json>, message: map<Prop, PropType>): (r: Option<seq<Option<Thing>>>)
    ensures r.Some? ==> |r.value| == 1
  {
    match parsed
    case Some(JNull) => Some([None])
    case Some(JObj(_)) =>
      (match DecodeThing(parsed.value, message) case None => None case Some(t) => Some([Some(t)]))
    case _ => None
  }

  /** The list an array payload yields: every entry bound in order, or `None` when binding fails. */
  function ArrayPayload(parsed: Option<Json>, message: map<Prop, PropType>): (r: Option<seq<Option<Thing>>>)
    ensures r.Some? ==> parsed.Some? && parsed.value.JArr? && |r.value| == |parsed.value.items|
  {
    match parsed
    case Some(JArr(_)) => DecodeItems(parsed.value, 0, message)
    case _ => None
  }

  /**
   * `Thing.DeserializeList`: an array payload is normalised and bound as a
   * list; any other payload is bound, untouched, as one envelope. Every
   * failure, an empty payload included, yields `None` (null), which is not an
   * empty list.
   */
  method DeserializeList(text: string, parse: string -> Option<Json>, message: map<Prop, PropType>) returns (r: Option<seq<Option<Thing>>>)
    ensures |text| == 0 ==> r.None?
    ensures |text| > 0 && text[0] == '[' ==> r == ArrayPayload(parse(Normalise(text)), message)
    ensures |text| > 0 && text[0] != '[' ==> r == SinglePayload(parse(text), message)
    ensures r.Some? && text[0] != '[' ==> |r.value| == 1
  {
    var s := text;
    if |s| == 0 {
      // `s[0]` throws.
      return None;
    }
    if s[0] == '[' {
      s := RemoveEmptyReplies(s);
      s := RemoveChildIdLists(s);
      r := ArrayPayload(parse(s), message);
    } else {
      var single := SinglePayload(parse(text), message);
      if single.None? {
        return None;
      }
      var result: seq<Option<Thing>> := [];
      result := result + [single.value[0]];
      assert result == single.value;
      r := Some(result);
    }
  }

  /** The children of a listing envelope, or `None` when the cast or the dereference throws. */
  function ListingChildren(thing: Thing): (r: Option<seq<Option<Thing>>>)
    ensures r.Some? ==> thing.data.dataClass == ListingData
  {
    if thing.data.dataClass == ListingData && Children in thing.data.props && thing.data.props[Children].Many? then
      Some(thing.data.props[Children].things)
    else
      None
  }

  /**
   * The records of class `c` among `children`, in order, or `None` when a
   * child is null (`child.Data` dereferences it).
   */
  function OfClass(children: seq<Option<Thing>>, c: DataClass): (r: Option<seq<Record>>)
    ensures r.Some? <==> forall i :: 0 <= i < |children| ==> children[i].Some?
    ensures r.Some? ==> |r.value| <= |children|
    decreases |children|
  {
    if |children| == 0 then Some([])
    else if children[0].None? then None
    else
      match OfClass(children[1..], c)
      case None => None
      case Some(rest) =>
        if children[0].value.data.dataClass == c then Some([children[0].value.data] + rest) else Some(rest)
  }

  /** Every record `OfClass` keeps has class `c`, and every child of class `c` is kept. */
  lemma {:induction false} OfClassMembers(children: seq<Option<Thing>>, c: DataClass, d: Record)
    requires OfClass(children, c).Some?
    ensures d in OfClass(children, c).value <==>
            d.dataClass == c && exists i :: 0 <= i < |children| && children[i].value.data == d
    decreases |children|
  {
    if |children| > 0 {
      OfClassMembers(children[1..], c, d);
      if d.dataClass == c && exists i :: 0 <= i < |children| && children[i].value.data == d {
        var i :| 0 <= i < |children| && children[i].value.data == d;
        if i > 0 {
          assert children[1..][i - 1].value.data == d;
        }
      }
      if exists i :: 0 <= i < |children[1..]| && children[1..][i].value.data == d {
        var i :| 0 <= i < |children[1..]| && children[1..][i].value.data == d;
        assert children[i + 1].value.data == d;
      }
    }
  }

  /** A single child is kept exactly when its record has class `c`. */
  lemma OfClassSingle(t: Thing, c: DataClass)
    ensures OfClass([Some(t)], c) == if t.data.dataClass == c then Some([t.data]) else Some([])
  {
    assert [Some(t)][1..] == [];
    assert OfClass([], c) == Some([]);
    assert [t.data] + [] == [t.data];
  }

  /** Order is kept: filtering two runs of children one after the other is filtering their concatenation. */
  lemma {:induction false} OfClassConcat(a: seq<Option<Thing>>, b: seq<Option<Thing>>, c: DataClass)
    requires OfClass(a, c).Some? && OfClass(b, c).Some?
    ensures OfClass(a + b, c) == Some(OfClass(a, c).value + OfClass(b, c).value)
    decreases |a|
  {
    if |a| == 0 {
      assert a + b == b;
      assert OfClass(a, c) == Some([]);
      assert [] + OfClass(b, c).value == OfClass(b, c).value;
    } else {
      assert (a + b)[0] == a[0];
      assert (a + b)[1..] == a[1..] + b;
      assert OfClass(a[1..], c).Some? by {
        forall i | 0 <= i < |a[1..]|
          ensures a[1..][i].Some?
        {
          assert a[1..][i] == a[i + 1];
        }
      }
      OfClassConcat(a[1..], b, c);
      var x := OfClass(a[1..], c).value;
      var y := OfClass(b, c).value;
      assert [a[0].value.data] + (x + y) == ([a[0].value.data] + x) + y;
    }
  }

  /**
   * `GetDataList<T>`: the records of the listing's children whose `Data` is
   * a `T`, in their original order; throws when the envelope is not a listing,
   * its children are null or one child is null.
   */
  method GetDataList(thing: Thing, c: DataClass) returns (r: Outcome<seq<Record>>)
    ensures r.Returned? <==> ListingChildren(thing).Some? && OfClass(ListingChildren(thing).value, c).Some?
    ensures r.Returned? ==> r.value == OfClass(ListingChildren(thing).value, c).value
  {
    if thing.data.dataClass != ListingData {
      // The `(ListingData)` cast throws.
      return Threw;
    }
    var children := ListingChildren(thing);
    if children.None? {
      return Threw;
    }
    var all := children.value;
    var list: seq<Record> := [];
    var i := 0;
    while i < |all|
      invariant 0 <= i <= |all|
      invariant OfClass(all[..i], c) == Some(list)
    {
      if all[i].None? {
        assert !OfClass(all, c).Some?;
        return Threw;
      }
      OfClassSingle(all[i].value, c);
      OfClassConcat(all[..i], [all[i]], c);
      assert all[..i + 1] == all[..i] + [all[i]];
      if all[i].value.data.dataClass == c {
        list := list + [all[i].value.data];
      } else {
        assert list + [] == list;
      }
      i := i + 1;
    }
    assert all[..i] == all;
    return Returned(list);
  }
}
