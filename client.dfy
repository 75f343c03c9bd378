/**
 * `RedditClient`: the session state machine (the error list, the cookie, the
 * logged-in flag and the default request headers), the page URI it builds and
 * the mapping from a listing to the links it returns.
 *
 * HTTP is foreign. Every call takes the reply the server gives as a parameter
 * and appends the request it issues to a log. A call's effect on a session is
 * given by a step function on `Session` values; the methods of the class
 * `RedditClient` carry it out field by field.
 */
module Client {
  import opened Wrappers
  import opened Records
  import opened Envelope

  /** The production reddit domain. */
  const Domain: string := "http://www.reddit.com/"

  /** The secure reddit domain the login is posted to. */
  const SecureDomain: string := "https://ssl.reddit.com/"

  /** The front page path. */
  const FrontPage: string := Domain + ".json"

  /** The path of the logged-in user's account. */
  const Me: string := Domain + "api/me.json"

  /** The user agent a client gets when none is given. */
  const DefaultUserAgent: string := "non_io_C#_RedditClient"

  /** The login path for `user`. */
  function LoginUri(user: string): string
  {
    SecureDomain + "api/login/" + user
  }

  /** The listing path of `subreddit`. */
  function SubredditUri(subreddit: string): string
  {
    Domain + "r/" + subreddit + "/.json"
  }

  /** A name and a value: a request header, a form field or a query parameter. */
  datatype Pair = Pair(key: string, value: string)

  /** A request the client issues. */
  datatype Request =
    | Get(uri: string)
    | Post(uri: string, form: seq<Pair>)

  /**
   * The server's reply to a login post, as far as the client reads it:
   * whether the status is a success; what `json.errors` yields, namely
   * `Some(None)` for an empty array, `Some(Some(items))` when its first entry
   * is an array (each item a string, or `None` for an item that is not), and
   * `None` when the body reaches no such entry (so the accessors throw); and
   * `json.data.cookie`, or `None` when it is missing.
   */
  datatype LoginReply = LoginReply(ok: bool, firstEntry: Option<Option<seq<Option<string>>>>, cookie: Option<string>)

  /**
   * The server's reply to a GET: whether the status is a success, and what
   * `Thing.Deserialize` makes of the body (an envelope, null, or a throw).
   */
  datatype GetReply = GetReply(ok: bool, body: Outcome<Option<Thing>>)

  /** The state of a client: its user agent, default headers, error list, cookie, logged-in flag and request log. */
  datatype Session = Session(
    userAgent: string,
    headers: seq<Pair>,
    errors: seq<string>,
    cookie: Option<string>,
    isLoggedIn: bool,
    requests: seq<Request>)

  /** The session after a call, and what the call returned or whether it threw. */
  datatype Step<T> = Step(session: Session, result: Outcome<T>)

  /** A new client: logged out, no errors, no cookie, only the `User-Agent` header. */
  function NewSession(userAgent: string): (s: Session)
    ensures !s.isLoggedIn && s.errors == [] && s.cookie.None? && s.requests == []
    ensures s.headers == [Pair("User-Agent", userAgent)]
  {
    Session(userAgent, [Pair("User-Agent", userAgent)], [], None, false, [])
  }

  /** The form a login posts. */
  function LoginForm(user: string, passwd: string): seq<Pair>
  {
    [Pair("api_type", "json"), Pair("user", user), Pair("passwd", passwd)]
  }

  /** The header a session cookie is sent in. */
  function CookieHeader(cookie: string): Pair
  {
    Pair("Cookie", "reddit_session=" + cookie)
  }

  /** The items the errors loop walks: those of the first entry, none for an empty errors array. */
  function FirstEntry(entry: Option<seq<Option<string>>>): seq<Option<string>>
  {
    if entry.Some? then entry.value else []
  }

  /** The strings at the front of `items`, up to the first item that is not a string. */
  function StringPrefix(items: seq<Option<string>>): (r: seq<string>)
    ensures |r| <= |items|
    ensures forall k :: 0 <= k < |r| ==> items[k] == Some(r[k])
    ensures |r| < |items| ==> items[|r|].None?
    decreases |items|
  {
    if |items| == 0 || items[0].None? then [] else [items[0].value] + StringPrefix(items[1..])
  }

  /** The three properties of `StringPrefix` determine it. */
  lemma {:induction false} StringPrefixUnique(items: seq<Option<string>>, r: seq<string>)
    requires |r| <= |items|
    requires forall k :: 0 <= k < |r| ==> items[k] == Some(r[k])
    requires |r| < |items| ==> items[|r|].None?
    ensures StringPrefix(items) == r
    decreases |items|
  {
    if |items| > 0 && items[0].Some? {
      assert |r| > 0;
      forall k | 0 <= k < |r| - 1
        ensures items[1..][k] == Some(r[1..][k])
      {
        assert items[k + 1] == Some(r[k + 1]);
      }
      StringPrefixUnique(items[1..], r[1..]);
      assert r == [r[0]] + r[1..];
    }
  }

  /**
   * `LoginAsync`: the error list is cleared and the form posted. A failed
   * status returns false. Otherwise the strings of the first errors entry
   * are added one by one; a non-string item throws part way through. A
   * non-empty error list returns false. Otherwise a missing cookie throws,
   * and a present one is stored, sent as one more `Cookie` header, and the
   * session is logged in.
   */
  function LoginStep(s: Session, user: string, passwd: string, reply: LoginReply): (r: Step<bool>)
    ensures r.session.requests == s.requests + [Post(LoginUri(user), LoginForm(user, passwd))]
    ensures r.session.userAgent == s.userAgent
  {
    var cleared := s.(errors := [], requests := s.requests + [Post(LoginUri(user), LoginForm(user, passwd))]);
    if !reply.ok then Step(cleared, Returned(false))
    else
      match reply.firstEntry
      case None => Step(cleared, Threw)
      case Some(entry) =>
        var first := FirstEntry(entry);
        var listed := cleared.(errors := StringPrefix(first));
        if |listed.errors| < |first| then Step(listed, Threw)
        else if |listed.errors| > 0 then Step(listed, Returned(false))
        else
          match reply.cookie
          case None => Step(listed, Threw)
          case Some(c) =>
            Step(listed.(cookie := Some(c), headers := listed.headers + [CookieHeader(c)], isLoggedIn := true), Returned(true))
  }

  /** Errors from an earlier attempt never survive a login: the new error list depends on the reply alone. */
  lemma LoginForgetsEarlierErrors(s: Session, t: Session, user: string, passwd: string, reply: LoginReply)
    ensures LoginStep(s, user, passwd, reply).session.errors == LoginStep(t, user, passwd, reply).session.errors
  {
  }

  /** A login that does not return true leaves the logged-in flag, the cookie and the headers as they were. */
  lemma LoginFailureKeepsSession(s: Session, user: string, passwd: string, reply: LoginReply)
    requires LoginStep(s, user, passwd, reply).result != Returned(true)
    ensures LoginStep(s, user, passwd, reply).session.isLoggedIn == s.isLoggedIn
    ensures LoginStep(s, user, passwd, reply).session.cookie == s.cookie
    ensures LoginStep(s, user, passwd, reply).session.headers == s.headers
  {
  }

  /**
   * A login returns true exactly when the status is a success, the errors
   * array has no entry or an empty first one, and a cookie is present; the
   * session is then logged in with that cookie, sent in exactly one new
   * header.
   */
  lemma LoginSucceeds(s: Session, user: string, passwd: string, reply: LoginReply)
    ensures LoginStep(s, user, passwd, reply).result == Returned(true) <==>
            reply.ok && reply.firstEntry.Some? && FirstEntry(reply.firstEntry.value) == [] && reply.cookie.Some?
    ensures LoginStep(s, user, passwd, reply).result == Returned(true) ==>
            var after := LoginStep(s, user, passwd, reply).session;
            after.isLoggedIn && after.errors == [] && after.cookie == reply.cookie
            && after.headers == s.headers + [CookieHeader(reply.cookie.value)]
  {
  }

  /**
   * When the status is a success and the first errors entry holds only
   * strings, the error list becomes exactly those strings, and the login
   * returns false exactly when there is at least one.
   */
  lemma {:induction false} LoginListsFirstEntry(s: Session, user: string, passwd: string, reply: LoginReply)
    requires reply.ok && reply.firstEntry.Some?
    requires forall k :: 0 <= k < |FirstEntry(reply.firstEntry.value)| ==> FirstEntry(reply.firstEntry.value)[k].Some?
    ensures |LoginStep(s, user, passwd, reply).session.errors| == |FirstEntry(reply.firstEntry.value)|
    ensures forall k :: 0 <= k < |FirstEntry(reply.firstEntry.value)| ==>
              Some(LoginStep(s, user, passwd, reply).session.errors[k]) == FirstEntry(reply.firstEntry.value)[k]
    ensures LoginStep(s, user, passwd, reply).result == Returned(false) <==> |FirstEntry(reply.firstEntry.value)| > 0
  {
    var first := FirstEntry(reply.firstEntry.value);
    assert |StringPrefix(first)| == |first|;
  }

  /** The number of `Cookie` headers in `headers`. */
  function CookieHeaders(headers: seq<Pair>): (n: nat)
    ensures n <= |headers|
  {
    if |headers| == 0 then 0
    else CookieHeaders(headers[..|headers| - 1]) + (if headers[|headers| - 1].key == "Cookie" then 1 else 0)
  }

  /** Every successful login adds exactly one `Cookie` header; every other login adds none. */
  lemma {:induction false} LoginAddsOneCookieHeader(s: Session, user: string, passwd: string, reply: LoginReply)
    ensures CookieHeaders(LoginStep(s, user, passwd, reply).session.headers) ==
            CookieHeaders(s.headers) + (if LoginStep(s, user, passwd, reply).result == Returned(true) then 1 else 0)
  {
    var after := LoginStep(s, user, passwd, reply);
    if after.result == Returned(true) {
      LoginSucceeds(s, user, passwd, reply);
      assert after.session.headers[..|after.session.headers| - 1] == s.headers;
    } else {
      LoginFailureKeepsSession(s, user, passwd, reply);
    }
  }

  /** The wrong-password reply: three error strings, login fails, the session stays logged out. */
  lemma WrongPassword(user: string, passwd: string)
    ensures var step := LoginStep(NewSession(DefaultUserAgent), user, passwd,
                                  LoginReply(true, Some(Some([Some("WRONG_PASSWORD"), Some("invalid password"), Some("passwd")])), None));
            step.result == Returned(false)
            && step.session.errors == ["WRONG_PASSWORD", "invalid password", "passwd"]
            && !step.session.isLoggedIn
  {
    var entry := [Some("WRONG_PASSWORD"), Some("invalid password"), Some("passwd")];
    StringPrefixUnique(entry, ["WRONG_PASSWORD", "invalid password", "passwd"]);
  }

  /** `ApiGetAsync`: the GET is issued; a failed status yields null, a successful one what the body deserializes to. */
  function ApiGetStep(s: Session, uri: string, reply: GetReply): (r: Step<Option<Thing>>)
    ensures r.session == s.(requests := s.requests + [Get(uri)])
    ensures !reply.ok ==> r.result == Returned(None)
    ensures reply.ok ==> r.result == reply.body
  {
    Step(s.(requests := s.requests + [Get(uri)]), if reply.ok then reply.body else Returned(None))
  }

  /** `Data as T`: the record when it is of class `c`, otherwise null. */
  function AsClass(d: Record, c: DataClass): (r: Option<Record>)
    ensures r.Some? <==> d.dataClass == c
    ensures r.Some? ==> r.value == d
  {
    if d.dataClass == c then Some(d) else None
  }

  /**
   * `GetMeAsync`: logged out, null without a request. Logged in, the account
   * path is fetched; a null envelope (a failed status included) throws when
   * its `Data` is read, and a record that is not an account becomes null.
   */
  function MeStep(s: Session, reply: GetReply): (r: Step<Option<Record>>)
    ensures !s.isLoggedIn ==> r == Step(s, Returned(None))
    ensures s.isLoggedIn ==> r.session == s.(requests := s.requests + [Get(Me)])
    ensures r.result.Returned? && r.result.value.Some? ==> r.result.value.value.dataClass == AccountData
  {
    if !s.isLoggedIn then Step(s, Returned(None))
    else
      var got := ApiGetStep(s, Me, reply);
      match got.result
      case Threw => Step(got.session, Threw)
      case Returned(None) => Step(got.session, Threw)
      case Returned(Some(thing)) => Step(got.session, Returned(AsClass(thing.data, AccountData)))
  }

  /** Logged in, a failed status makes `GetMeAsync` throw rather than return null. */
  lemma MeFailedStatusThrows(s: Session, reply: GetReply)
    requires s.isLoggedIn && !reply.ok
    ensures MeStep(s, reply).result == Threw
  {
  }

  /** Logged in, an account envelope yields its record. */
  lemma MeReturnsAccount(s: Session, reply: GetReply)
    requires s.isLoggedIn && reply.ok && reply.body.Returned? && reply.body.value.Some?
    requires reply.body.value.value.data.dataClass == AccountData
    ensures MeStep(s, reply).result == Returned(Some(reply.body.value.value.data))
  {
  }

  /** The URI base: the front page for a null or empty subreddit, otherwise the subreddit's path. */
  function PageBase(subreddit: Option<string>): (r: string)
    ensures subreddit.None? || subreddit.value == "" ==> r == FrontPage
    ensures subreddit.Some? && subreddit.value != "" ==> r == SubredditUri(subreddit.value)
  {
    if subreddit.None? || subreddit.value == "" then FrontPage else SubredditUri(subreddit.value)
  }

  /** One query parameter as the query string holds it: `key=value&`. */
  function QueryEntry(p: Pair): string
  {
    p.key + "=" + p.value + "&"
  }

  /** The query parameters, each as `key=value&`, in order. */
  function QueryPairs(params: seq<Pair>): string
  {
    if |params| == 0 then ""
    else QueryPairs(params[..|params| - 1]) + QueryEntry(params[|params| - 1])
  }

  /** The query string lists the parameters in order: two runs of parameters give two runs of text. */
  lemma {:induction false} QueryPairsConcat(a: seq<Pair>, b: seq<Pair>)
    ensures QueryPairs(a + b) == QueryPairs(a) + QueryPairs(b)
    decreases |b|
  {
    if |b| == 0 {
      assert a + b == a;
    } else {
      var ab, n := a + b, |b| - 1;
      assert ab[..|ab| - 1] == a + b[..n];
      assert ab[|ab| - 1] == b[n];
      QueryPairsConcat(a, b[..n]);
      var x, y, z := QueryPairs(a), QueryPairs(b[..n]), QueryEntry(b[n]);
      assert QueryPairs(ab) == (x + y) + z;
      assert QueryPairs(b) == y + z;
    }
  }

  /** A non-empty query text ends with `&`, the one that closes its last `key=value&` entry. */
  lemma {:induction false} QueryPairsEndsWithAmpersand(params: seq<Pair>)
    requires |params| > 0
    ensures |QueryPairs(params)| > 0 && QueryPairs(params)[|QueryPairs(params)| - 1] == '&'
  {
    var e := QueryEntry(params[|params| - 1]);
    assert e[|e| - 1] == '&';
    var q := QueryPairs(params[..|params| - 1]);
    assert (q + e)[|q + e| - 1] == e[|e| - 1];
  }

  /**
   * The URI `GetPageAsync` requests: the base, then, when there are
   * parameters, `?` and every parameter as `key=value&`.
   */
  function PageUri(subreddit: Option<string>, params: seq<Pair>): string
  {
    PageBase(subreddit) + (if |params| == 0 then "" else "?" + QueryPairs(params))
  }

  /** No parameters leave the base unchanged; the front page without parameters is the plain front page path. */
  lemma PageUriWithoutParams(subreddit: Option<string>)
    ensures PageUri(subreddit, []) == PageBase(subreddit)
    ensures PageUri(None, []) == "http://www.reddit.com/.json"
    ensures PageUri(Some(""), []) == "http://www.reddit.com/.json"
  {
  }

  /** With parameters, the URI ends with `&`. */
  lemma {:induction false} PageUriWithParams(subreddit: Option<string>, params: seq<Pair>)
    requires |params| > 0
    ensures PageUri(subreddit, params)[|PageUri(subreddit, params)| - 1] == '&'
  {
    QueryPairsEndsWithAmpersand(params);
    var q := QueryPairs(params);
    var u := PageBase(subreddit) + "?";
    assert PageUri(subreddit, params) == u + q;
    assert (u + q)[|u + q| - 1] == q[|q| - 1];
  }

  /** The page URI the way `GetPageAsync` assembles it: the base, then a query built entry by entry. */
  method BuildPageUri(subreddit: Option<string>, params: seq<Pair>) returns (uri: string)
    ensures uri == PageUri(subreddit, params)
  {
    uri := FrontPage;
    if subreddit.Some? && subreddit.value != "" {
      uri := SubredditUri(subreddit.value);
    }
    if |params| > 0 {
      var query := "?";
      var i := 0;
      while i < |params|
        invariant 0 <= i <= |params|
        invariant query == "?" + QueryPairs(params[..i])
      {
        assert params[..i + 1][..i] == params[..i];
        query := query + QueryEntry(params[i]);
        i := i + 1;
      }
      assert params[..i] == params;
      uri := uri + query;
    }
  }

  /**
   * The links a page yields: one entry per listing child, in order, the
   * record of a link child and null for any other child; `None` when a child
   * is null (`child.Data` throws).
   */
  function LinksOf(children: seq<Option<Thing>>): (r: Option<seq<Option<Record>>>)
    ensures r.Some? <==> forall k :: 0 <= k < |children| ==> children[k].Some?
    ensures r.Some? ==> |r.value| == |children|
    ensures r.Some? ==> forall k :: 0 <= k < |children| ==> r.value[k] == AsClass(children[k].value.data, LinkData)
  {
    if |children| == 0 then Some([])
    else
      var n := |children| - 1;
      var last := children[n];
      match LinksOf(children[..n])
      case None =>
        assert exists k :: 0 <= k < n && children[..n][k].None?;
        None
      case Some(front) =>
        if last.None? then None else Some(front + [AsClass(last.value.data, LinkData)])
  }

  /** The loop of `GetPageAsync` over the listing's children: `as LinkData` on each child's record, in order. */
  method CollectLinks(all: seq<Option<Thing>>) returns (r: Option<seq<Option<Record>>>)
    ensures r == LinksOf(all)
  {
    var links: seq<Option<Record>> := [];
    var i := 0;
    while i < |all|
      invariant 0 <= i <= |all|
      invariant LinksOf(all[..i]) == Some(links)
    {
      assert all[..i + 1][..i] == all[..i];
      if all[i].None? {
        assert all[i] == all[..i + 1][i];
        return None;
      }
      links := links + [AsClass(all[i].value.data, LinkData)];
      i := i + 1;
    }
    assert all[..i] == all;
    return Some(links);
  }

  /** The records among `links`, in order, without the null entries. */
  function Present(links: seq<Option<Record>>): seq<Record>
  {
    if |links| == 0 then []
    else if links[0].None? then Present(links[1..])
    else [links[0].value] + Present(links[1..])
  }

  /** Removing the nulls of two runs of links one after the other is removing them from their concatenation. */
  lemma {:induction false} PresentConcat(a: seq<Option<Record>>, b: seq<Option<Record>>)
    ensures Present(a + b) == Present(a) + Present(b)
    decreases |a|
  {
    if |a| == 0 {
      assert a + b == b;
    } else {
      assert (a + b)[0] == a[0];
      assert (a + b)[1..] == a[1..] + b;
      PresentConcat(a[1..], b);
    }
  }

  /**
   * The null entries are the only difference from `GetDataList<LinkData>`:
   * without them, a page is exactly the link records of the listing's
   * children.
   */
  lemma {:induction false} LinksWithoutNullsAreDataList(children: seq<Option<Thing>>)
    requires LinksOf(children).Some?
    ensures OfClass(children, LinkData).Some?
    ensures Present(LinksOf(children).value) == OfClass(children, LinkData).value
    decreases |children|
  {
    if |children| > 0 {
      var n := |children| - 1;
      var front := children[..n];
      assert LinksOf(front).Some? by {
        forall k | 0 <= k < |front|
          ensures front[k].Some?
        {
          assert front[k] == children[k];
        }
      }
      LinksWithoutNullsAreDataList(front);
      var links := LinksOf(children).value;
      assert links == LinksOf(front).value + [links[n]];
      PresentConcat(LinksOf(front).value, [links[n]]);
      assert [links[n]][1..] == [];
      OfClassSingle(children[n].value, LinkData);
      OfClassConcat(front, [children[n]], LinkData);
      assert front + [children[n]] == children;
      if links[n].Some? {
        assert Present([links[n]]) == [children[n].value.data];
      } else {
        assert Present([links[n]]) == [];
      }
    }
  }

  /**
   * What `GetPageAsync` makes of the envelope it fetched: the links of the
   * listing's children, or a throw when the envelope is null, is not a
   * listing, or its children or one child are null. It returns exactly when
   * none of these happens.
   */
  function PageResult(got: Outcome<Option<Thing>>): (r: Outcome<seq<Option<Record>>>)
    ensures r.Returned? ==> got.Returned? && got.value.Some? && ListingChildren(got.value.value).Some?
    ensures r.Returned? ==> Some(r.value) == LinksOf(ListingChildren(got.value.value).value)
    ensures got.Returned? && got.value.Some? && ListingChildren(got.value.value).Some? ==>
              (LinksOf(ListingChildren(got.value.value).value).Some? ==> r.Returned?)
  {
    match got
    case Threw => Threw
    case Returned(None) => Threw
    case Returned(Some(thing)) =>
      match ListingChildren(thing)
      case None => Threw
      case Some(children) =>
        match LinksOf(children)
        case None => Threw
        case Some(links) => Returned(links)
  }

  /** A listing with one link child yields exactly that one link. */
  lemma OneLinkChild(props: map<Prop, Value>, link: Thing)
    requires Children in props && props[Children] == Many([Some(link)])
    requires link.data.dataClass == LinkData
    ensures PageResult(Returned(Some(Thing(Listing, Record(ListingData, props))))) == Returned([Some(link.data)])
  {
    var links := LinksOf([Some(link)]);
    assert links.Some? && |links.value| == 1 && links.value[0] == Some(link.data);
    assert links.value == [Some(link.data)];
  }

  /** `GetPageAsync`: the page URI is fetched and the envelope mapped to its links. */
  function PageStep(s: Session, subreddit: Option<string>, params: seq<Pair>, reply: GetReply): (r: Step<seq<Option<Record>>>)
    ensures r.session == s.(requests := s.requests + [Get(PageUri(subreddit, params))])
    ensures !reply.ok ==> r.result == Threw
    ensures reply.ok ==> r.result == PageResult(reply.body)
  {
    var got := ApiGetStep(s, PageUri(subreddit, params), reply);
    Step(got.session, PageResult(got.result))
  }

  /** The client object. `requests` is the log of the requests it has issued. */
  class RedditClient {
    var userAgent: string
    var headers: seq<Pair>
    var errors: seq<string>
    var cookie: Option<string>
    var isLoggedIn: bool
    var requests: seq<Request>

    /** The client's state as a value. */
    function State(): Session
      reads this
    {
      Session(userAgent, headers, errors, cookie, isLoggedIn, requests)
    }

    /** A new client with the given user agent. */
    constructor (agent: string := DefaultUserAgent)
      ensures State() == NewSession(agent)
    {
      userAgent := agent;
      headers := [Pair("User-Agent", agent)];
      errors := [];
      cookie := None;
      isLoggedIn := false;
      requests := [];
    }

    /** `LoginAsync`, with `reply` the server's answer to the post. */
    method Login(user: string, passwd: string, reply: LoginReply) returns (r: Outcome<bool>)
      modifies this
      ensures State() == LoginStep(old(State()), user, passwd, reply).session
      ensures r == LoginStep(old(State()), user, passwd, reply).result
    {
      errors := [];
      requests := requests + [Post(LoginUri(user), LoginForm(user, passwd))];
      if !reply.ok {
        return Returned(false);
      }
      if reply.firstEntry.None? {
        return Threw;
      }
      if reply.firstEntry.value.Some? {
        var first := reply.firstEntry.value.value;
        var i := 0;
        while i < |first|
          invariant 0 <= i <= |first|
          invariant |errors| == i && forall k :: 0 <= k < i ==> first[k] == Some(errors[k])
          invariant headers == old(headers) && cookie == old(cookie) && isLoggedIn == old(isLoggedIn)
          invariant userAgent == old(userAgent) && requests == old(requests) + [Post(LoginUri(user), LoginForm(user, passwd))]
        {
          if first[i].None? {
            StringPrefixUnique(first, errors);
            return Threw;
          }
          errors := errors + [first[i].value];
          i := i + 1;
        }
        StringPrefixUnique(first, errors);
      }
      if |errors| > 0 {
        return Returned(false);
      }
      if reply.cookie.None? {
        return Threw;
      }
      cookie := reply.cookie;
      headers := headers + [CookieHeader(reply.cookie.value)];
      isLoggedIn := true;
      return Returned(true);
    }

    /** `ApiGetAsync`, with `reply` the server's answer to the GET. */
    method ApiGet(uri: string, reply: GetReply) returns (r: Outcome<Option<Thing>>)
      modifies this
      ensures State() == ApiGetStep(old(State()), uri, reply).session
      ensures r == ApiGetStep(old(State()), uri, reply).result
    {
      requests := requests + [Get(uri)];
      if reply.ok {
        return reply.body;
      }
      return Returned(None);
    }

    /** `GetMeAsync`, with `reply` the server's answer should a request be issued. */
    method GetMe(reply: GetReply) returns (r: Outcome<Option<Record>>)
      modifies this
      ensures State() == MeStep(old(State()), reply).session
      ensures r == MeStep(old(State()), reply).result
    {
      if !isLoggedIn {
        return Returned(None);
      }
      var got := ApiGet(Me, reply);
      if got.Threw? || got.value.None? {
        return Threw;
      }
      return Returned(AsClass(got.value.value.data, AccountData));
    }

    /** `GetPageAsync`, with `reply` the server's answer to the GET. */
    method GetPage(subreddit: Option<string>, params: seq<Pair>, reply: GetReply) returns (r: Outcome<seq<Option<Record>>>)
      modifies this
      ensures State() == PageStep(old(State()), subreddit, params, reply).session
      ensures r == PageStep(old(State()), subreddit, params, reply).result
    {
      var uri := BuildPageUri(subreddit, params);
      var got := ApiGet(uri, reply);
      if got.Threw? || got.value.None? {
        return Threw;
      }
      var children := ListingChildren(got.value.value);
      if children.None? {
        // The `(ListingData)` cast or the walk over null children throws.
        return Threw;
      }
      var links := CollectLinks(children.value);
      if links.None? {
        // `child.Data` on a null child throws.
        return Threw;
      }
      return Returned(links.value);
    }

    /** `GetFrontPageAsync`: the page of no subreddit. */
    method GetFrontPage(params: seq<Pair>, reply: GetReply) returns (r: Outcome<seq<Option<Record>>>)
      modifies this
      ensures State() == PageStep(old(State()), None, params, reply).session
      ensures r == PageStep(old(State()), None, params, reply).result
    {
      r := GetPage(None, params, reply);
    }
  }
}
