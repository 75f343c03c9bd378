/**
 * A worked envelope: the account reply of the client's `GetMeAsync` test,
 * trimmed to the members it checks or relies on, with integer seconds.
 */
module Samples {
  import opened Wrappers
  import opened Records
  import opened Shapes
  import opened Conversions
  import opened Helper
  import opened Envelope
  import opened Binding

  /**
   * The `data` object of an account reply like the sample's: the members
   * `hasMailKey`, `nameKey` and `createdKey`, in that order, with a boolean, a
   * string and a number of seconds.
   */
  function AccountDataReply(hasMailKey: string, nameKey: string, createdKey: string, hasMail: bool, name: string, seconds: int): (j: Json)
    ensures j.JObj? && |j.members| == 3
  {
    JObj([Member(hasMailKey, JBool(hasMail)), Member(nameKey, JStr(name)), Member(createdKey, JNum(seconds))])
  }

  /** An account reply: a `t2` envelope around `data` object `v`. */
  function AccountReply(v: Json): (j: Json)
    ensures j.JObj? && |j.members| == 2 && j.members[1].value == v
  {
    JObj([Member("kind", JStr("t2")), Member("data", v)])
  }

  /** `has_mail` fills `HasMail`. */
  lemma HasMailKey()
    ensures Target("has_mail") == Some(HasMail)
  {
  }

  /** `name` fills `Name`. */
  lemma NameKey()
    ensures Target("name") == Some(Name)
  {
  }

  /** `created` fills `Created`, through its helper. */
  lemma CreatedKey()
    ensures Target("created") == Some(Created)
  {
  }

  /** The declared types of those properties on `Data`, and that the account variant declares them too. */
  lemma SampleTypes(message: map<Prop, PropType>)
    ensures HasMail in Stored(DataTable) && Stored(DataTable)[HasMail] == BoolT
    ensures Name in Stored(DataTable) && Stored(DataTable)[Name] == StringT
    ensures Created in Stored(DataTable) && Stored(DataTable)[Created] == DateTimeT
    ensures HasMail in Stored(Table(AccountData, message)) && Name in Stored(Table(AccountData, message))
    ensures Created in Stored(Table(AccountData, message))
  {
    assert DataTable.Copies(HasMail) && DataTable.Copies(Name) && DataTable.Copies(Created);
    assert Table(AccountData, message).Copies(HasMail) && Table(AccountData, message).Copies(Name);
    assert Table(AccountData, message).Copies(Created);
  }

  /** A key that fills `HasMail` binds a boolean as itself. */
  lemma HasMailBinds(key: string, b: bool, message: map<Prop, PropType>)
    requires Target(key) == Some(HasMail)
    ensures DataMemberBinds(Member(key, JBool(b)), message)
    ensures HasMail in Stored(DataTable) && BindMember(HasMail, JBool(b), message) == Some(Bool(b))
  {
    SampleTypes(message);
  }

  /** A key that fills `Name` binds a string as itself. */
  lemma NameBinds(key: string, s: string, message: map<Prop, PropType>)
    requires Target(key) == Some(Name)
    ensures DataMemberBinds(Member(key, JStr(s)), message)
    ensures Name in Stored(DataTable) && BindMember(Name, JStr(s), message) == Some(Str(s))
  {
    SampleTypes(message);
  }

  /** A key that fills `Created` binds a number of seconds as that instant. */
  lemma CreatedBinds(key: string, n: int, message: map<Prop, PropType>)
    requires Target(key) == Some(Created)
    ensures DataMemberBinds(Member(key, JNum(n)), message)
    ensures Created in Stored(DataTable) && BindMember(Created, JNum(n), message) == Some(AtSeconds(n))
  {
    SampleTypes(message);
  }

  /** Three different keys each occur once, at their own index. */
  lemma AccountDataKeys(hk: string, nk: string, ck: string, hasMail: bool, name: string, seconds: int)
    requires hk != nk && hk != ck && nk != ck
    ensures var ms := AccountDataReply(hk, nk, ck, hasMail, name, seconds).members;
            LastWithKey(ms, 0, hk) == 0 && LastWithKey(ms, 0, nk) == 1 && LastWithKey(ms, 0, ck) == 2
  {
    var ms := AccountDataReply(hk, nk, ck, hasMail, name, seconds).members;
    assert LastWithKey(ms, 3, hk) == -1 && LastWithKey(ms, 3, nk) == -1 && LastWithKey(ms, 3, ck) == -1;
    assert LastWithKey(ms, 2, hk) == -1 && LastWithKey(ms, 2, nk) == -1 && LastWithKey(ms, 2, ck) == 2;
    assert LastWithKey(ms, 1, hk) == -1 && LastWithKey(ms, 1, nk) == 1;
  }

  /** The `data` object binds: each of its members does. */
  lemma AccountDataSucceeds(hk: string, nk: string, ck: string, hasMail: bool, name: string, seconds: int,
                            message: map<Prop, PropType>)
    requires Target(hk) == Some(HasMail) && Target(nk) == Some(Name) && Target(ck) == Some(Created)
    ensures DecodeData(AccountDataReply(hk, nk, ck, hasMail, name, seconds), message).Some?
  {
    HasMailBinds(hk, hasMail, message);
    NameBinds(nk, name, message);
    CreatedBinds(ck, seconds, message);
    DecodeDataSucceeds(AccountDataReply(hk, nk, ck, hasMail, name, seconds), message);
  }

  /** Property `p`, filled by the member at index `i` and no later one, holds that member's bound value `x`. */
  lemma {:induction false} FieldOfData(j: Json, message: map<Prop, PropType>, key: string, p: Prop, i: nat, x: Value)
    requires j.JObj? && DecodeData(j, message).Some? && Target(key) == Some(p) && p in Stored(DataTable)
    requires i < |j.members| && LastWithKey(j.members, 0, key) == i && BindMember(p, j.members[i].value, message) == Some(x)
    ensures p in DecodeData(j, message).value && DecodeData(j, message).value[p] == x
  {
    DecodeDataFromWire(j, message, key, p);
  }

  /** The `data` object binds, filling the three properties its keys name. */
  lemma {:induction false} AccountDataBinds(hk: string, nk: string, ck: string, hasMail: bool, name: string, seconds: int,
                                            message: map<Prop, PropType>)
    requires Target(hk) == Some(HasMail) && Target(nk) == Some(Name) && Target(ck) == Some(Created)
    ensures DecodeData(AccountDataReply(hk, nk, ck, hasMail, name, seconds), message).Some?
    ensures var d := DecodeData(AccountDataReply(hk, nk, ck, hasMail, name, seconds), message).value;
            HasMail in d && Name in d && Created in d &&
            d[HasMail] == Bool(hasMail) && d[Name] == Str(name) && d[Created] == AtSeconds(seconds)
  {
    var j := AccountDataReply(hk, nk, ck, hasMail, name, seconds);
    AccountDataSucceeds(hk, nk, ck, hasMail, name, seconds, message);
    AccountDataKeys(hk, nk, ck, hasMail, name, seconds);
    HasMailBinds(hk, hasMail, message);
    NameBinds(nk, name, message);
    CreatedBinds(ck, seconds, message);
    FieldOfData(j, message, hk, HasMail, 0, Bool(hasMail));
    FieldOfData(j, message, nk, Name, 1, Str(name));
    FieldOfData(j, message, ck, Created, 2, AtSeconds(seconds));
  }

  /** The envelope's `kind` and `data` members are its last ones with those keys. */
  lemma AccountReplyKeys(v: Json)
    ensures var ms := AccountReply(v).members;
            LastWithKey(ms, 0, "kind") == 0 && LastWithKey(ms, 0, "data") == 1
  {
  }

  /** The envelope's members bind, leaving the `t2` tag and the bound `data` object. */
  lemma AccountReplyEnvelope(v: Json, message: map<Prop, PropType>)
    requires v.JObj? && DecodeData(v, message).Some?
    ensures WireEnvelope(AccountReply(v).members, message) == Some(EnvelopeState(T2, Some(DecodeData(v, message).value)))
  {
    var ms := AccountReply(v).members;
    assert ThingMemberBinds(ms[0], message) && ThingMemberBinds(ms[1], message);
    AccountReplyKeys(v);
  }

  /** Any envelope that binds to the `t2` tag and a `Data` instance decodes to the account that copies it. */
  lemma {:induction false} AccountEnvelopeDecodes(j: Json, d: map<Prop, Value>, message: map<Prop, PropType>)
    requires j.JObj? && IsDataRecord(d) && WireEnvelope(j.members, message) == Some(EnvelopeState(T2, Some(d)))
    ensures DecodeThing(j, message).Some?
    ensures var t := DecodeThing(j, message).value;
            t.kind == T2 && t.data.dataClass == AccountData &&
            forall p :: p in Stored(Table(AccountData, message)) ==> p in t.data.props && t.data.props[p] == d[p]
  {
    DecodeThingMeaning(j, message);
    VariantProjects(d, AccountData, message);
  }

  /**
   * An account reply decodes to an account whose `Name`, `Created` and
   * `HasMail` are the reply's.
   */
  lemma {:induction false} AccountReplyDecodes(hk: string, nk: string, ck: string, hasMail: bool, name: string, seconds: int,
                                               message: map<Prop, PropType>)
    requires Target(hk) == Some(HasMail) && Target(nk) == Some(Name) && Target(ck) == Some(Created)
    ensures DecodeThing(AccountReply(AccountDataReply(hk, nk, ck, hasMail, name, seconds)), message).Some?
    ensures var t := DecodeThing(AccountReply(AccountDataReply(hk, nk, ck, hasMail, name, seconds)), message).value;
            t.kind == T2 && t.data.dataClass == AccountData &&
            Name in t.data.props && Created in t.data.props && HasMail in t.data.props &&
            t.data.props[Name] == Str(name) && t.data.props[Created] == AtSeconds(seconds) &&
            t.data.props[HasMail] == Bool(hasMail)
  {
    var v := AccountDataReply(hk, nk, ck, hasMail, name, seconds);
    AccountDataBinds(hk, nk, ck, hasMail, name, seconds, message);
    AccountReplyEnvelope(v, message);
    SampleTypes(message);
    AccountEnvelopeDecodes(AccountReply(v), DecodeData(v, message).value, message);
  }

  /**
   * The reply of the client's `GetMeAsync` test, trimmed to `has_mail`,
   * `name` and `created` and with integer seconds, decodes to the account
   * named "username".
   */
  lemma TestReplyIsUsername(message: map<Prop, PropType>)
    ensures DecodeThing(AccountReply(AccountDataReply("has_mail", "name", "created", false, "username", 1213716360)), message).Some?
    ensures var t := DecodeThing(AccountReply(AccountDataReply("has_mail", "name", "created", false, "username", 1213716360)), message).value;
            t.kind == T2 && Name in t.data.props && t.data.props[Name] == Str("username") &&
            Created in t.data.props && t.data.props[Created] == AtSeconds(1213716360)
  {
    HasMailKey();
    NameKey();
    CreatedKey();
    AccountReplyDecodes("has_mail", "name", "created", false, "username", 1213716360, message);
  }
}
