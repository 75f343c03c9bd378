/**
 * What the data-contract binding of `Envelope` means, stated member by
 * member: which JSON objects bind, which wire member each stored property of
 * `Data` and each setter of `Thing` takes its value from (the last one with
 * its key), and what a decoded envelope's variant then holds.
 */
module Binding {
  import opened Wrappers
  import opened Records
  import opened Shapes
  import opened Conversions
  import opened Helper
  import opened Envelope

  /** The value a JSON scalar denotes: null, a boolean, an integer or a string. */
  function ScalarOf(v: Json): (r: Option<Value>)
    ensures r.Some? <==> !v.JObj? && !v.JArr?
  {
    match v
    case JNull => Some(Null)
    case JBool(b) => Some(Bool(b))
    case JNum(n) => Some(Long(n))
    case JStr(s) => Some(Str(s))
    case _ => None
  }

  /**
   * True when `x` is what the wire value `v` denotes: the same scalar, the
   * envelope bound from an object, or the envelopes bound in order from an
   * array, entry by entry.
   */
  ghost predicate Mirrors(v: Json, x: Value, message: map<Prop, PropType>)
  {
    match v
    case JObj(_) => x.One? && DecodeThing(v, message) == Some(x.thing)
    case JArr(items) =>
      x.Many? && |x.things| == |items| &&
      forall k :: 0 <= k < |items| ==> ItemBinds(items[k], x.things[k], message)
    case _ => ScalarOf(v) == Some(x)
  }

  /**
   * A public member of type `t` binds exactly the value its wire value
   * denotes, and only when that value fits `t`: a scalar when it conforms (null
   * into `object` as the null reference, no scalar boxed), an object only into
   * `Thing` and an array only into `List<Thing>`.
   */
  lemma DecodeValueMirrors(v: Json, t: PropType, message: map<Prop, PropType>)
    ensures DecodeValue(v, t, message).Some? ==> Mirrors(v, DecodeValue(v, t, message).value, message)
    ensures ScalarOf(v).Some? ==>
              (DecodeValue(v, t, message).Some? <==> Conforms(ScalarOf(v).value, t) && (t == ObjectT ==> v.JNull?))
    ensures v.JObj? ==> (DecodeValue(v, t, message).Some? <==> t == ThingT && DecodeThing(v, message).Some?)
    ensures v.JArr? ==> (DecodeValue(v, t, message).Some? <==> t == ThingListT && DecodeItems(v, 0, message).Some?)
  {
  }

  /** True when member `m` of a `Data` object binds: its key is unknown, or its value binds to the property the key fills. */
  ghost predicate DataMemberBinds(m: Member, message: map<Prop, PropType>)
  {
    Target(m.key).Some? ==> (StoredOnData(Target(m.key).value); BindMember(Target(m.key).value, m.value, message).Some?)
  }

  /** True when `ok` holds of every member of `ms` from index `i` on. */
  ghost predicate AllFrom(ms: seq<Member>, i: nat, ok: Member -> bool)
    requires i <= |ms|
    decreases |ms| - i
  {
    i == |ms| || (ok(ms[i]) && AllFrom(ms, i + 1, ok))
  }

  /** `AllFrom` is the pointwise statement. */
  lemma {:induction false} AllFromEach(ms: seq<Member>, i: nat, ok: Member -> bool)
    requires i <= |ms|
    ensures AllFrom(ms, i, ok) <==> forall k :: i <= k < |ms| ==> ok(ms[k])
    decreases |ms| - i
  {
    if i < |ms| {
      AllFromEach(ms, i + 1, ok);
    }
  }

  /** True when every member of `ms` from index `i` on binds. */
  ghost predicate DataMembersBind(ms: seq<Member>, i: nat, message: map<Prop, PropType>)
    requires i <= |ms|
  {
    AllFrom(ms, i, m => DataMemberBinds(m, message))
  }

  /** `DataMembersBind` says that each of those members binds. */
  lemma DataMembersBindEach(ms: seq<Member>, i: nat, message: map<Prop, PropType>)
    requires i <= |ms|
    ensures DataMembersBind(ms, i, message) <==> forall k :: i <= k < |ms| ==> DataMemberBinds(ms[k], message)
  {
    AllFromEach(ms, i, m => DataMemberBinds(m, message));
  }

  /** The index of the last member from `i` on with key `key`, or -1 when there is none. */
  ghost function LastWithKey(ms: seq<Member>, i: nat, key: string): (k: int)
    requires i <= |ms|
    ensures k == -1 || i <= k < |ms|
    ensures k >= 0 ==> ms[k].key == key
    ensures forall n :: i <= n < |ms| && k < n ==> ms[n].key != key
    decreases |ms| - i
  {
    if i == |ms| then -1
    else if LastWithKey(ms, i + 1, key) >= 0 then LastWithKey(ms, i + 1, key)
    else if ms[i].key == key then i
    else -1
  }

  /** One member of `BindData`, in terms of the property it fills and the value it binds. */
  lemma BindDataStep(j: Json, i: nat, props: map<Prop, Value>, message: map<Prop, PropType>)
    requires j.JObj? && i < |j.members| && IsDataRecord(props)
    ensures Target(j.members[i].key).None? ==> BindData(j, i, props, message) == BindData(j, i + 1, props, message)
    ensures Target(j.members[i].key).Some? && BindMember(Target(j.members[i].key).value, j.members[i].value, message).None? ==>
              BindData(j, i, props, message).None?
    ensures Target(j.members[i].key).Some? && BindMember(Target(j.members[i].key).value, j.members[i].value, message).Some? ==>
              var q := Target(j.members[i].key).value;
              var x := BindMember(q, j.members[i].value, message).value;
              IsDataRecord(props[q := x]) && BindData(j, i, props, message) == BindData(j, i + 1, props[q := x], message)
  {
    var m := j.members[i];
    if Target(m.key).Some? {
      var q := Target(m.key).value;
      if BindMember(q, m.value, message).Some? {
        StorePreservesTyping(props, Stored(DataTable), q, BindMember(q, m.value, message).value);
      }
    }
  }

  /** `BindData` from member `i` on succeeds exactly when every one of those members binds. */
  lemma {:induction false} BindDataSucceeds(j: Json, i: nat, props: map<Prop, Value>, message: map<Prop, PropType>)
    requires j.JObj? && i <= |j.members| && IsDataRecord(props)
    ensures BindData(j, i, props, message).Some? <==> DataMembersBind(j.members, i, message)
    decreases |j.members| - i
  {
    if i < |j.members| {
      var m := j.members[i];
      BindDataStep(j, i, props, message);
      if Target(m.key).None? {
        BindDataSucceeds(j, i + 1, props, message);
      } else if BindMember(Target(m.key).value, m.value, message).Some? {
        var q := Target(m.key).value;
        BindDataSucceeds(j, i + 1, props[q := BindMember(q, m.value, message).value], message);
      }
    }
  }

  /**
   * The wire key that fills stored property `p` of `Data`: the name its data
   * member is declared with, region by region, or for a `DateTime` the name
   * of the helper that sets it; `None` for the helpers themselves.
   */
  function WireName(p: Prop): Option<string>
  {
    if ListingName(p).Some? then ListingName(p)
    else if CommentName(p).Some? then CommentName(p)
    else if AccountName(p).Some? then AccountName(p)
    else if LinkName(p).Some? then LinkName(p)
    else if SubredditName(p).Some? then SubredditName(p)
    else if MoreName(p).Some? then MoreName(p)
    else DateName(p)
  }

  /** The names of the listing region's data members. */
  function ListingName(p: Prop): Option<string>
  {
    match p
    case Modhash => Some("modhash")
    case Children => Some("children")
    case After => Some("after")
    case Before => Some("before")
    case _ => None
  }

  /** The names of the comment region's data members. */
  function CommentName(p: Prop): Option<string>
  {
    match p
    case SubredditId => Some("subreddit_id")
    case BannedBy => Some("banned_by")
    case LinkId => Some("link_id")
    case Likes => Some("likes")
    case Replies => Some("replies")
    case Id => Some("id")
    case Gilded => Some("gilded")
    case Author => Some("author")
    case ParentId => Some("parent_id")
    case ApprovedBy => Some("approved_by")
    case Body => Some("body")
    case AuthorFlairCssClass => Some("author_flair_css_class")
    case Downs => Some("downs")
    case BodyHtml => Some("body_html")
    case Subreddit => Some("subreddit")
    case Name => Some("name")
    case AuthorFlairText => Some("author_flair_text")
    case NumReports => Some("num_reports")
    case Ups => Some("ups")
    case _ => None
  }

  /** The names of the account region's data members. */
  function AccountName(p: Prop): Option<string>
  {
    match p
    case HasMail => Some("has_mail")
    case LinkKarma => Some("link_karma")
    case CommentKarma => Some("comment_karma")
    case IsGold => Some("is_gold")
    case IsMod => Some("is_mod")
    case HasModMail => Some("has_mod_mail")
    case _ => None
  }

  /** The names of the link region's data members. */
  function LinkName(p: Prop): Option<string>
  {
    match p
    case Domain => Some("domain")
    case SelfTextHtml => Some("selftext_html")
    case SelfText => Some("selftext")
    case LinkFlairText => Some("link_flair_text")
    case Saved => Some("saved")
    case Clicked => Some("clicked")
    case Score => Some("score")
    case Over18 => Some("over_18")
    case Hidden => Some("hidden")
    case Thumbnail => Some("thumbnail")
    case LinkFlairCssClass => Some("link_flair_css_class")
    case IsSelf => Some("is_self")
    case Permalink => Some("permalink")
    case Url => Some("url")
    case Title => Some("title")
    case NumComments => Some("num_comments")
    case _ => None
  }

  /** The names of the subreddit region's data members. */
  function SubredditName(p: Prop): Option<string>
  {
    match p
    case DisplayName => Some("display_name")
    case Subscribers => Some("subscribers")
    case Description => Some("description")
    case _ => None
  }

  /** The names of the "more" region's data members. */
  function MoreName(p: Prop): Option<string>
  {
    match p
    case Count => Some("count")
    case _ => None
  }

  /** The names of the helpers, by the `DateTime` property each one sets. */
  function DateName(p: Prop): Option<string>
  {
    match p
    case Created => Some("created")
    case CreatedUtc => Some("created_utc")
    case Edited => Some("edited")
    case _ => None
  }

  /** `ListingName` inverts the listing region's keys, and `WireName` agrees with it there. */
  lemma ListingKeyNamed(key: string)
    ensures ListingKey(key).Some? ==> WireName(ListingKey(key).value) == Some(key) && !IsHelper(ListingKey(key).value)
  {
    ListingKeyInverted(key);
  }

  /** `ListingName` inverts the listing region's keys. */
  lemma ListingKeyInverted(key: string)
    ensures ListingKey(key).Some? ==> ListingName(ListingKey(key).value) == Some(key) && !IsHelper(ListingKey(key).value)
  {
  }

  /** `CommentName` inverts the comment region's keys, and `WireName` agrees with it there. */
  lemma CommentKeyNamed(key: string)
    ensures CommentKey(key).Some? ==> WireName(CommentKey(key).value) == Some(key) && !IsHelper(CommentKey(key).value)
  {
    CommentKeyInverted(key);
  }

  /** `CommentName` inverts the comment region's keys. */
  lemma CommentKeyInverted(key: string)
    ensures CommentKey(key).Some? ==> CommentName(CommentKey(key).value) == Some(key) && !IsHelper(CommentKey(key).value)
  {
  }

  /** `AccountName` inverts the account region's keys, and `WireName` agrees with it there. */
  lemma AccountKeyNamed(key: string)
    ensures AccountKey(key).Some? ==> WireName(AccountKey(key).value) == Some(key) && !IsHelper(AccountKey(key).value)
  {
    AccountKeyInverted(key);
  }

  /** `AccountName` inverts the account region's keys. */
  lemma AccountKeyInverted(key: string)
    ensures AccountKey(key).Some? ==> AccountName(AccountKey(key).value) == Some(key) && !IsHelper(AccountKey(key).value)
  {
  }

  /** `LinkName` inverts the link region's keys, and `WireName` agrees with it there. */
  lemma LinkKeyNamed(key: string)
    ensures LinkKey(key).Some? ==> WireName(LinkKey(key).value) == Some(key) && !IsHelper(LinkKey(key).value)
  {
    LinkKeyInverted(key);
  }

  /** `LinkName` inverts the link region's keys. */
  lemma LinkKeyInverted(key: string)
    ensures LinkKey(key).Some? ==> LinkName(LinkKey(key).value) == Some(key) && !IsHelper(LinkKey(key).value)
  {
  }

  /** `SubredditName` inverts the subreddit region's keys, and `WireName` agrees with it there. */
  lemma SubredditKeyNamed(key: string)
    ensures SubredditKey(key).Some? ==> WireName(SubredditKey(key).value) == Some(key) && !IsHelper(SubredditKey(key).value)
  {
    SubredditKeyInverted(key);
  }

  /** `SubredditName` inverts the subreddit region's keys. */
  lemma SubredditKeyInverted(key: string)
    ensures SubredditKey(key).Some? ==> SubredditName(SubredditKey(key).value) == Some(key) && !IsHelper(SubredditKey(key).value)
  {
  }

  /** `MoreName` inverts the "more" region's keys, and `WireName` agrees with it there. */
  lemma MoreKeyNamed(key: string)
    ensures MoreKey(key).Some? ==> WireName(MoreKey(key).value) == Some(key) && !IsHelper(MoreKey(key).value)
  {
    MoreKeyInverted(key);
  }

  /** `MoreName` inverts the more region's keys. */
  lemma MoreKeyInverted(key: string)
    ensures MoreKey(key).Some? ==> MoreName(MoreKey(key).value) == Some(key) && !IsHelper(MoreKey(key).value)
  {
  }

  /** The helpers' keys name the `DateTime` properties they set. */
  lemma HelperKeyNamed(key: string)
    ensures HelperKey(key).Some? ==> WireName(Filled(HelperKey(key).value)) == Some(key)
  {
  }

  /** `WireName` inverts `Target`: the key a property is filled from is the key that fills it. */
  lemma WireNameOfTarget(key: string)
    ensures WireKey(key).Some? ==> WireName(Filled(WireKey(key).value)) == Some(key)
  {
    ListingKeyNamed(key);
    CommentKeyNamed(key);
    AccountKeyNamed(key);
    LinkKeyNamed(key);
    SubredditKeyNamed(key);
    MoreKeyNamed(key);
    HelperKeyNamed(key);
  }

  /** Distinct wire keys fill distinct properties. */
  lemma TargetInjective(k1: string, k2: string)
    requires Target(k1).Some? && Target(k1) == Target(k2)
    ensures k1 == k2
  {
    WireNameOfTarget(k1);
    WireNameOfTarget(k2);
  }

  /** Wire key `k1` fills the property `p` that `k2` fills exactly when the keys are the same. */
  lemma SameTarget(k1: string, k2: string, p: Prop)
    requires Target(k2) == Some(p)
    ensures Target(k1) == Some(p) <==> k1 == k2
  {
    if Target(k1) == Some(p) {
      TargetInjective(k1, k2);
    }
  }

  /**
   * Later members win: after `BindData` from member `i` on, the property `p`
   * that wire key `key` fills holds the value bound from the last of those
   * members with that key, and keeps its earlier value when there is none.
   */
  lemma {:induction false} BindDataLastWins(j: Json, i: nat, props: map<Prop, Value>, message: map<Prop, PropType>,
                                            key: string, p: Prop)
    requires j.JObj? && i <= |j.members| && IsDataRecord(props)
    requires Target(key) == Some(p) && p in Stored(DataTable)
    requires BindData(j, i, props, message).Some?
    ensures LastWithKey(j.members, i, key) < 0 ==> BindData(j, i, props, message).value[p] == props[p]
    ensures LastWithKey(j.members, i, key) >= 0 ==>
              Some(BindData(j, i, props, message).value[p]) == BindMember(p, j.members[LastWithKey(j.members, i, key)].value, message)
    decreases |j.members| - i
  {
    if i < |j.members| {
      var m := j.members[i];
      BindDataStep(j, i, props, message);
      SameTarget(m.key, key, p);
      if Target(m.key).None? {
        BindDataLastWins(j, i + 1, props, message, key, p);
      } else {
        var q := Target(m.key).value;
        var x := BindMember(q, m.value, message).value;
        BindDataLastWins(j, i + 1, props[q := x], message, key, p);
        if q != p {
          assert props[q := x][p] == props[p];
        }
      }
    }
  }

  /** A JSON object binds to a `Data` instance exactly when every one of its members binds. */
  lemma {:induction false} DecodeDataSucceeds(j: Json, message: map<Prop, PropType>)
    requires j.JObj?
    ensures DecodeData(j, message).Some? <==> forall k :: 0 <= k < |j.members| ==> DataMemberBinds(j.members[k], message)
  {
    BindDataSucceeds(j, 0, Defaults(Stored(DataTable)), message);
    DataMembersBindEach(j.members, 0, message);
  }

  /**
   * The `Data` a JSON object binds, property by property: the property wire
   * key `key` fills holds the value bound from the last member with that key,
   * and its default when no member has it.
   */
  lemma {:induction false} DecodeDataFromWire(j: Json, message: map<Prop, PropType>, key: string, p: Prop)
    requires j.JObj? && DecodeData(j, message).Some?
    requires Target(key) == Some(p) && p in Stored(DataTable)
    ensures LastWithKey(j.members, 0, key) < 0 ==> DecodeData(j, message).value[p] == Default(Stored(DataTable)[p])
    ensures LastWithKey(j.members, 0, key) >= 0 ==>
              Some(DecodeData(j, message).value[p]) == BindMember(p, j.members[LastWithKey(j.members, 0, key)].value, message)
  {
    BindDataLastWins(j, 0, Defaults(Stored(DataTable)), message, key, p);
  }

  /** A property that no member from index `i` on fills keeps the value it had. */
  lemma {:induction false} BindDataUntouched(j: Json, i: nat, props: map<Prop, Value>, message: map<Prop, PropType>, p: Prop)
    requires j.JObj? && i <= |j.members| && IsDataRecord(props) && p in Stored(DataTable)
    requires BindData(j, i, props, message).Some?
    requires forall n :: i <= n < |j.members| ==> Target(j.members[n].key) != Some(p)
    ensures BindData(j, i, props, message).value[p] == props[p]
    decreases |j.members| - i
  {
    if i < |j.members| {
      var m := j.members[i];
      BindDataStep(j, i, props, message);
      if Target(m.key).None? {
        BindDataUntouched(j, i + 1, props, message, p);
      } else {
        var q := Target(m.key).value;
        var x := BindMember(q, m.value, message).value;
        BindDataUntouched(j, i + 1, props[q := x], message, p);
      }
    }
  }

  /** A property of `Data` that no member of the object fills keeps its default. */
  lemma DecodeDataUntouched(j: Json, message: map<Prop, PropType>, p: Prop)
    requires j.JObj? && DecodeData(j, message).Some? && p in Stored(DataTable)
    requires forall n :: 0 <= n < |j.members| ==> Target(j.members[n].key) != Some(p)
    ensures DecodeData(j, message).value[p] == Default(Stored(DataTable)[p])
  {
    BindDataUntouched(j, 0, Defaults(Stored(DataTable)), message, p);
  }

  /** The tag a `kind` member's value sets, or `None` when the `InternalKind` setter cannot take it. */
  function KindOf(v: Json): Option<Kind>
  {
    if v.JStr? then ParseKind(v.s) else None
  }

  /** The `InternalData` a `data` member's value sets (`Some(None)` for null), or `None` when it cannot be bound. */
  ghost function DataOf(v: Json, message: map<Prop, PropType>): (r: Option<Option<map<Prop, Value>>>)
    ensures r.Some? && r.value.Some? ==> IsDataRecord(r.value.value)
  {
    match v
    case JNull => Some(None)
    case JObj(_) => (match DecodeData(v, message) case None => None case Some(d) => Some(Some(d)))
    case _ => None
  }

  /** True when member `m` of an envelope binds: a `kind` that parses, a `data` that binds, or any other key. */
  ghost predicate ThingMemberBinds(m: Member, message: map<Prop, PropType>)
  {
    (m.key == "kind" ==> KindOf(m.value).Some?) && (m.key == "data" ==> DataOf(m.value, message).Some?)
  }

  /**
   * The state the members `ms` leave in a fresh `Thing`, stated member by
   * member: `None` when some member cannot be bound; otherwise the tag of the
   * last `kind` member (`Listing` when there is none) and the `Data` of the
   * last `data` member (null when there is none).
   */
  ghost function WireEnvelope(ms: seq<Member>, message: map<Prop, PropType>): Option<EnvelopeState>
  {
    if forall k :: 0 <= k < |ms| ==> ThingMemberBinds(ms[k], message) then
      var k, d := LastWithKey(ms, 0, "kind"), LastWithKey(ms, 0, "data");
      Some(EnvelopeState(
        if k < 0 then Listing else KindOf(ms[k].value).value,
        if d < 0 then None else DataOf(ms[d].value, message).value))
    else None
  }

  /** One member of `BindThing`, in terms of the tag or the `Data` it sets. */
  lemma BindThingStep(j: Json, i: nat, st: EnvelopeState, message: map<Prop, PropType>)
    requires j.JObj? && i < |j.members| && GoodState(st)
    ensures !ThingMemberBinds(j.members[i], message) ==> BindThing(j, i, st, message).None?
    ensures ThingMemberBinds(j.members[i], message) ==>
              var m := j.members[i];
              var next := if m.key == "kind" then st.(kind := KindOf(m.value).value)
                          else if m.key == "data" then st.(internalData := DataOf(m.value, message).value)
                          else st;
              GoodState(next) && BindThing(j, i, st, message) == BindThing(j, i + 1, next, message)
  {
  }

  /**
   * `BindThing` from member `i` on succeeds exactly when every one of those
   * members binds, and then leaves the last `kind`'s tag and the last
   * `data`'s instance, keeping the earlier ones when there is no such member.
   */
  lemma {:induction false} BindThingLastWins(j: Json, i: nat, st: EnvelopeState, message: map<Prop, PropType>)
    requires j.JObj? && i <= |j.members| && GoodState(st)
    ensures BindThing(j, i, st, message).Some? <==>
            forall k :: i <= k < |j.members| ==> ThingMemberBinds(j.members[k], message)
    ensures BindThing(j, i, st, message).Some? ==>
              var k := LastWithKey(j.members, i, "kind");
              BindThing(j, i, st, message).value.kind == if k < 0 then st.kind else KindOf(j.members[k].value).value
    ensures BindThing(j, i, st, message).Some? ==>
              var d := LastWithKey(j.members, i, "data");
              BindThing(j, i, st, message).value.internalData ==
                if d < 0 then st.internalData else DataOf(j.members[d].value, message).value
    decreases |j.members| - i
  {
    if i < |j.members| {
      var m := j.members[i];
      BindThingStep(j, i, st, message);
      if ThingMemberBinds(m, message) {
        var next := if m.key == "kind" then st.(kind := KindOf(m.value).value)
                    else if m.key == "data" then st.(internalData := DataOf(m.value, message).value)
                    else st;
        BindThingLastWins(j, i + 1, next, message);
      }
    }
  }

  /**
   * `DecodeThing` of an envelope: the members bound as `WireEnvelope` states,
   * then `Data` dispatched on the tag; shown for every tag at once.
   */
  lemma {:induction false} DecodeThingMeaning(j: Json, message: map<Prop, PropType>)
    requires j.JObj?
    ensures DecodeThing(j, message).Some? <==>
            WireEnvelope(j.members, message).Some? &&
            Dispatch(WireEnvelope(j.members, message).value.kind, WireEnvelope(j.members, message).value.internalData, message).Some?
    ensures DecodeThing(j, message).Some? ==>
              var st := WireEnvelope(j.members, message).value;
              DecodeThing(j, message).value == Thing(st.kind, Dispatch(st.kind, st.internalData, message).value)
  {
    BindThingLastWins(j, 0, EnvelopeState(Listing, None), message);
    var b := BindThing(j, 0, EnvelopeState(Listing, None), message);
    if b.Some? {
      assert b == WireEnvelope(j.members, message);
    }
  }

  /**
   * The `Data` object a decoded envelope was bound from: the value of its last
   * `data` member, an object that binds and whose instance dispatches on the
   * envelope's tag to the decoded record.
   */
  lemma {:induction false} EnvelopeDataFromWire(j: Json, message: map<Prop, PropType>)
    requires j.JObj? && DecodeThing(j, message).Some?
    ensures LastWithKey(j.members, 0, "data") >= 0
    ensures var v := j.members[LastWithKey(j.members, 0, "data")].value;
            v.JObj? && DecodeData(v, message).Some? &&
            Dispatch(DecodeThing(j, message).value.kind, Some(DecodeData(v, message).value), message) ==
              Some(DecodeThing(j, message).value.data)
  {
    DecodeThingMeaning(j, message);
  }

  /**
   * End to end, for the listing, account, link and more variants: the
   * property `p` that wire key `key` fills holds the value bound from the last
   * member with that key in the envelope's last `data` object, and its default
   * when that object has no such member.
   */
  lemma {:induction false} VariantFieldFromWire(j: Json, message: map<Prop, PropType>, key: string, p: Prop)
    requires j.JObj? && DecodeThing(j, message).Some?
    requires DecodeThing(j, message).value.kind in {Listing, T2, T3, More}
    requires Target(key) == Some(p) && p in Stored(DataTable)
    requires p in Stored(Table(ClassOf(DecodeThing(j, message).value.kind), message))
    ensures LastWithKey(j.members, 0, "data") >= 0
    ensures var v := j.members[LastWithKey(j.members, 0, "data")].value;
            v.JObj? && p in DecodeThing(j, message).value.data.props &&
            var k := LastWithKey(v.members, 0, key);
            (k < 0 ==> DecodeThing(j, message).value.data.props[p] == Default(Stored(DataTable)[p])) &&
            (k >= 0 ==> Some(DecodeThing(j, message).value.data.props[p]) == BindMember(p, v.members[k].value, message))
  {
    EnvelopeDataFromWire(j, message);
    var v := j.members[LastWithKey(j.members, 0, "data")].value;
    var kind := DecodeThing(j, message).value.kind;
    VariantProjects(DecodeData(v, message).value, ClassOf(kind), message);
    DecodeDataFromWire(v, message, key, p);
  }

  /**
   * End to end, for the subreddit variant: every property but `Subscribers`
   * is bound as for the other variants.
   */
  lemma {:induction false} SubredditFieldFromWire(j: Json, message: map<Prop, PropType>, key: string, p: Prop)
    requires j.JObj? && DecodeThing(j, message).Some? && DecodeThing(j, message).value.kind == T5
    requires Target(key) == Some(p) && p in Stored(DataTable) && p != Subscribers
    requires p in Stored(Table(SubredditData, message))
    ensures LastWithKey(j.members, 0, "data") >= 0
    ensures var v := j.members[LastWithKey(j.members, 0, "data")].value;
            v.JObj? && p in DecodeThing(j, message).value.data.props &&
            var k := LastWithKey(v.members, 0, key);
            (k < 0 ==> DecodeThing(j, message).value.data.props[p] == Default(Stored(DataTable)[p])) &&
            (k >= 0 ==> Some(DecodeThing(j, message).value.data.props[p]) == BindMember(p, v.members[k].value, message))
  {
    EnvelopeDataFromWire(j, message);
    var v := j.members[LastWithKey(j.members, 0, "data")].value;
    SubredditProjects(DecodeData(v, message).value, message);
    DecodeDataFromWire(v, message, key, p);
  }

  /** A `long?` member of `Data` binds a number as itself and null as null; nothing else binds. */
  lemma NullableLongBinds(p: Prop, w: Json, message: map<Prop, PropType>)
    requires p in Stored(DataTable) && Stored(DataTable)[p] == NullableLongT
    requires p != Created && p != CreatedUtc && p != Edited
    ensures BindMember(p, w, message).Some? <==> w.JNum? || w.JNull?
    ensures BindMember(p, w, message).Some? ==>
              BindMember(p, w, message).value == if w.JNum? then Long(w.n) else Null
  {
    DecodeValueMirrors(w, NullableLongT, message);
  }

  /** `subscribers` fills `Subscribers`. */
  lemma SubscribersKey()
    ensures Target("subscribers") == Some(Subscribers)
  {
  }

  /** `children` fills `Children`. */
  lemma ChildrenKey()
    ensures Target("children") == Some(Children)
  {
  }

  /** `count` fills `Count`. */
  lemma CountKey()
    ensures Target("count") == Some(Count)
  {
  }

  /** `Subscribers` is a `long?` member of `Data`. */
  lemma SubscribersNullableLong()
    ensures Subscribers in Stored(DataTable) && Stored(DataTable)[Subscribers] == NullableLongT
  {
    assert DataTable.Copies(Subscribers);
  }

  /**
   * A subreddit's `Subscribers` holds the last `subscribers` number of its
   * `data` object, and 0 when that member is null or absent.
   */
  lemma SubscribersFromWire(j: Json, message: map<Prop, PropType>)
    requires j.JObj? && DecodeThing(j, message).Some? && DecodeThing(j, message).value.kind == T5
    ensures LastWithKey(j.members, 0, "data") >= 0
    ensures var v := j.members[LastWithKey(j.members, 0, "data")].value;
            v.JObj? && Subscribers in DecodeThing(j, message).value.data.props &&
            var k := LastWithKey(v.members, 0, "subscribers");
            DecodeThing(j, message).value.data.props[Subscribers] ==
              if k >= 0 && v.members[k].value.JNum? then Long(v.members[k].value.n) else Long(0)
  {
    SubscribersKey();
    SubscribersFromKey(j, message, "subscribers");
  }

  /** `SubscribersFromWire` for any key that fills `Subscribers`. */
  lemma {:induction false} SubscribersFromKey(j: Json, message: map<Prop, PropType>, key: string)
    requires j.JObj? && DecodeThing(j, message).Some? && DecodeThing(j, message).value.kind == T5
    requires Target(key) == Some(Subscribers)
    ensures LastWithKey(j.members, 0, "data") >= 0
    ensures var v := j.members[LastWithKey(j.members, 0, "data")].value;
            v.JObj? && Subscribers in DecodeThing(j, message).value.data.props &&
            var k := LastWithKey(v.members, 0, key);
            DecodeThing(j, message).value.data.props[Subscribers] ==
              if k >= 0 && v.members[k].value.JNum? then Long(v.members[k].value.n) else Long(0)
  {
    EnvelopeDataFromWire(j, message);
    var v := j.members[LastWithKey(j.members, 0, "data")].value;
    var data := DecodeData(v, message).value;
    SubscribersOfData(v, message, key);
    SubredditProjects(data, message);
    SubscribersProjected(data, message);
  }

  /** Before projection, `Subscribers` holds the last `subscribers` number of the `data` object, and null when there is none. */
  lemma {:induction false} SubscribersOfData(v: Json, message: map<Prop, PropType>, key: string)
    requires v.JObj? && DecodeData(v, message).Some? && Target(key) == Some(Subscribers)
    ensures Subscribers in DecodeData(v, message).value
    ensures var k := LastWithKey(v.members, 0, key);
            DecodeData(v, message).value[Subscribers] ==
              if k >= 0 && v.members[k].value.JNum? then Long(v.members[k].value.n) else Null
  {
    SubscribersNullableLong();
    DecodeDataFromWire(v, message, key, Subscribers);
    var k := LastWithKey(v.members, 0, key);
    if k >= 0 {
      NullableLongBinds(Subscribers, v.members[k].value, message);
    }
  }

  /** `Children` is a `List<Thing>` member of `Data` and of the listing variant. */
  lemma ChildrenStored(message: map<Prop, PropType>)
    ensures Children in Stored(DataTable) && Stored(DataTable)[Children] == ThingListT
    ensures Children in Stored(Table(ListingData, message))
  {
    assert DataTable.Copies(Children) && Table(ListingData, message).Copies(Children);
  }

  /**
   * The children of a decoded listing are the envelopes of the last
   * `children` array of its `data` object, the `i`-th child bound from the
   * `i`-th entry; null when there is no such member.
   */
  lemma ListingChildrenFromWire(j: Json, message: map<Prop, PropType>)
    requires j.JObj? && DecodeThing(j, message).Some? && DecodeThing(j, message).value.kind == Listing
    ensures LastWithKey(j.members, 0, "data") >= 0
    ensures var v := j.members[LastWithKey(j.members, 0, "data")].value;
            v.JObj? && Children in DecodeThing(j, message).value.data.props &&
            var k := LastWithKey(v.members, 0, "children");
            (k < 0 ==> DecodeThing(j, message).value.data.props[Children] == Null) &&
            (k >= 0 ==> Mirrors(v.members[k].value, DecodeThing(j, message).value.data.props[Children], message))
  {
    ChildrenKey();
    ChildrenFromKey(j, message, "children");
  }

  /** A bound `Children` mirrors its wire value: the `i`-th child is bound from the `i`-th entry. */
  lemma ChildrenBinds(w: Json, message: map<Prop, PropType>)
    requires Children in Stored(DataTable) && Stored(DataTable)[Children] == ThingListT
    ensures BindMember(Children, w, message).Some? ==> Mirrors(w, BindMember(Children, w, message).value, message)
  {
    DecodeValueMirrors(w, ThingListT, message);
  }

  /** `ListingChildrenFromWire` for any key that fills `Children`. */
  lemma {:induction false} ChildrenFromKey(j: Json, message: map<Prop, PropType>, key: string)
    requires j.JObj? && DecodeThing(j, message).Some? && DecodeThing(j, message).value.kind == Listing
    requires Target(key) == Some(Children)
    ensures LastWithKey(j.members, 0, "data") >= 0
    ensures var v := j.members[LastWithKey(j.members, 0, "data")].value;
            v.JObj? && Children in DecodeThing(j, message).value.data.props &&
            var k := LastWithKey(v.members, 0, key);
            (k < 0 ==> DecodeThing(j, message).value.data.props[Children] == Null) &&
            (k >= 0 ==> Mirrors(v.members[k].value, DecodeThing(j, message).value.data.props[Children], message))
  {
    ChildrenStored(message);
    VariantFieldFromWire(j, message, key, Children);
    var v := j.members[LastWithKey(j.members, 0, "data")].value;
    var k := LastWithKey(v.members, 0, key);
    if k >= 0 {
      ChildrenBinds(v.members[k].value, message);
    }
  }

  /** `Count` is a `long?` member of `Data` and of the more variant. */
  lemma CountStored(message: map<Prop, PropType>)
    ensures Count in Stored(DataTable) && Stored(DataTable)[Count] == NullableLongT
    ensures Count in Stored(Table(MoreData, message))
  {
    assert DataTable.Copies(Count) && Table(MoreData, message).Copies(Count);
  }

  /**
   * A "more" placeholder's `Count` is the last `count` number of its
   * `data` object; a null or absent count stays null.
   */
  lemma MoreCountFromWire(j: Json, message: map<Prop, PropType>)
    requires j.JObj? && DecodeThing(j, message).Some? && DecodeThing(j, message).value.kind == More
    ensures LastWithKey(j.members, 0, "data") >= 0
    ensures var v := j.members[LastWithKey(j.members, 0, "data")].value;
            v.JObj? && Count in DecodeThing(j, message).value.data.props &&
            var k := LastWithKey(v.members, 0, "count");
            DecodeThing(j, message).value.data.props[Count] ==
              if k >= 0 && v.members[k].value.JNum? then Long(v.members[k].value.n) else Null
  {
    CountKey();
    CountFromKey(j, message, "count");
  }

  /** `MoreCountFromWire` for any key that fills `Count`. */
  lemma {:induction false} CountFromKey(j: Json, message: map<Prop, PropType>, key: string)
    requires j.JObj? && DecodeThing(j, message).Some? && DecodeThing(j, message).value.kind == More
    requires Target(key) == Some(Count)
    ensures LastWithKey(j.members, 0, "data") >= 0
    ensures var v := j.members[LastWithKey(j.members, 0, "data")].value;
            v.JObj? && Count in DecodeThing(j, message).value.data.props &&
            var k := LastWithKey(v.members, 0, key);
            DecodeThing(j, message).value.data.props[Count] ==
              if k >= 0 && v.members[k].value.JNum? then Long(v.members[k].value.n) else Null
  {
    CountStored(message);
    VariantFieldFromWire(j, message, key, Count);
    var v := j.members[LastWithKey(j.members, 0, "data")].value;
    var k := LastWithKey(v.members, 0, key);
    if k >= 0 {
      NullableLongBinds(Count, v.members[k].value, message);
    }
  }
}
