/**
 * The request-building core of `JenkinsHttpClient`: the normalised context
 * prefix, `urlJoin`, the JSON-API path rewriting done by `api`, and the status
 * rules by which `get`, `getFile`, `post` and `post_xml` accept a response.
 *
 * `api` ends in `uri.resolve("/").resolve(path)`, reference resolution as in
 * section 5.2 of RFC 3986; the model stops at the string handed to it. Sending
 * a request is a call into the HTTP engine; here the server is a parameter,
 * a total function from the request sent to the response received.
 */
module JenkinsHttpClient {
  import opened JavaString
  import opened Regex

  // ---------------------------------------------------------------------------
  // Paths
  // ---------------------------------------------------------------------------

  /**
   * `if (!p.endsWith("/")) p += "/"`: the step by which the constructor
   * normalises the context and `urlJoin` prepares its first argument.
   * The result is the shortest extension of `s` that ends with `/`.
   */
  function EnsureTrailingSlash(s: string): (r: string)
    ensures EndsWith(r, "/")
    ensures StartsWith(r, s) && |r| <= |s| + 1
    ensures r == s <==> EndsWith(s, "/")
  {
    if !EndsWith(s, "/") then s + "/" else s
  }

  /** Normalising a context twice gives what normalising it once gives. */
  lemma EnsureTrailingSlashIdempotent(s: string)
    ensures EnsureTrailingSlash(EnsureTrailingSlash(s)) == EnsureTrailingSlash(s)
  {
  }

  /** `if (p.startsWith("/")) p = p.substring(1)`: at most one `/` goes. */
  function DropLeadingSlash(s: string): (r: string)
    ensures r == s || s == "/" + r
    ensures r != s <==> StartsWith(s, "/")
  {
    if StartsWith(s, "/") then s[1..] else s
  }

  /**
   * `urlJoin(path1, path2)`: `path1`, a `/` unless it already ends with one,
   * then `path2` without one leading `/`.
   */
  function UrlJoin(path1: string, path2: string): (r: string)
    ensures StartsWith(r, path1)
    ensures var seam := |EnsureTrailingSlash(path1)|;
      seam <= |r| && r[seam - 1] == '/' && r[seam..] == DropLeadingSlash(path2)
  {
    EnsureTrailingSlash(path1) + DropLeadingSlash(path2)
  }

  /**
   * The four ways of writing the separator between `x` and `y` (none, after
   * `x`, before `y`, both) all give `x + "/" + y`: one `/` at the seam.
   */
  lemma UrlJoinOneSeparator(x: string, y: string)
    requires !EndsWith(x, "/") && !StartsWith(y, "/")
    ensures UrlJoin(x, y) == x + "/" + y
    ensures UrlJoin(x + "/", y) == x + "/" + y
    ensures UrlJoin(x, "/" + y) == x + "/" + y
    ensures UrlJoin(x + "/", "/" + y) == x + "/" + y
  {
    assert EndsWith(x + "/", "/");
    assert StartsWith("/" + y, "/") && ("/" + y)[1..] == y;
  }

  /** When `a` already ends in `/` and `b` does not start with one, the join is `a + b`. */
  lemma UrlJoinConcat(a: string, b: string)
    requires EndsWith(a, "/") && !StartsWith(b, "/")
    ensures UrlJoin(a, b) == a + b
  {
  }

  /** Only one leading `/` is removed: a second one survives the join. */
  lemma UrlJoinKeepsSecondSlash(a: string, b: string)
    requires StartsWith(b, "//")
    ensures UrlJoin(a, b) == EnsureTrailingSlash(a) + b[1..]
    ensures StartsWith(UrlJoin(a, b)[|EnsureTrailingSlash(a)|..], "/")
  {
    assert StartsWith(b, "/");
  }

  /** The regular expression `https?://.*`. */
  const HttpUrlPattern: seq<Term> :=
    Literals("http") + [Optional(Literal('s'))] + Literals("://") + [Star(AnyButLineTerminator)]

  /** `path.toLowerCase().matches("https?://.*")`: the path is an absolute http(s) URL. */
  predicate IsAbsolute(path: string)
  {
    Matches(HttpUrlPattern, ToLower(path))
  }

  /** No line terminator in `s`: what the trailing `.*` demands. */
  predicate SingleLine(s: string)
  {
    forall i :: 0 <= i < |s| ==> !IsLineTerminator(s[i])
  }

  /**
   * A path is absolute exactly when, lower-cased, it starts with `http://` or
   * `https://` and the rest holds no line terminator.
   */
  lemma IsAbsoluteIff(path: string)
    ensures IsAbsolute(path) <==>
      var l := ToLower(path);
      (StartsWith(l, "http://") && SingleLine(l[7..])) ||
      (StartsWith(l, "https://") && SingleLine(l[8..]))
  {
    var l := ToLower(path);
    var tail := Literals("://") + [Star(AnyButLineTerminator)];
    assert HttpUrlPattern == Literals("http") + ([Optional(Literal('s'))] + tail);
    MatchesLiterals("http", [Optional(Literal('s'))] + tail, l);
    if StartsWith(l, "http") {
      var r := l[4..];
      MatchesOptional(Literal('s'), tail, r);
      MatchesLiterals("://", [Star(AnyButLineTerminator)], r);
      assert StartsWith(l, "http://") <==> StartsWith(r, "://");
      if |r| >= 3 {
        MatchesDotStar(r[3..]);
        assert r[3..] == l[7..];
      }
      if |r| > 0 {
        MatchesLiterals("://", [Star(AnyButLineTerminator)], r[1..]);
        assert StartsWith(l, "https://") <==> r[0] == 's' && StartsWith(r[1..], "://");
        if |r| >= 4 {
          MatchesDotStar(r[1..][3..]);
          assert r[1..][3..] == l[8..];
        }
      }
    }
  }

  /** Lines 264-266: a relative path is joined onto the context, an absolute one kept. */
  function Rooted(context: string, path: string): (r: string)
    ensures IsAbsolute(path) ==> r == path
    ensures !IsAbsolute(path) ==> StartsWith(r, context) && EndsWith(r, DropLeadingSlash(path))
  {
    if !IsAbsolute(path) then UrlJoin(context, path) else path
  }

  /**
   * Lines 267-274: `api/json` is added to the path part. Without a query it
   * is added unless the path ends in `/stop`; with one, the path is split at
   * the first `?` and the query put back after the suffix.
   */
  function JsonApiPath(path: string): (r: string)
    ensures '?' !in path && EndsWith(path, "/stop") ==> r == path
    ensures '?' !in path && !EndsWith(path, "/stop") ==>
      StartsWith(r, path) && '?' !in r
    ensures '?' in path <==> '?' in r
  {
    if '?' !in path then
      if !EndsWith(path, "/stop") then UrlJoin(path, "api/json") else path
    else
      var components := SplitLimit2(path, '?');
      UrlJoin(components[0], "api/json") + "?" + components[1]
  }

  /** `api(path)` up to the string handed to `uri.resolve("/").resolve`. */
  function Api(context: string, path: string): (r: string)
  {
    JsonApiPath(Rooted(context, path))
  }

  /** An absolute path is never prefixed: the context plays no part in its rewriting. */
  lemma ApiAbsoluteIgnoresContext(context1: string, context2: string, path: string)
    requires IsAbsolute(path)
    ensures Api(context1, path) == Api(context2, path) == JsonApiPath(path)
  {
  }

  // Proof helpers about the literal segment `api/json`, stated once so that the
  // lemmas below need not unfold the literal in their larger contexts.

  /** The segment `api` adds: no leading `/` for `urlJoin` to drop, and no `?`. */
  lemma ApiJsonSegment()
    ensures DropLeadingSlash("api/json") == "api/json" && '?' !in "api/json"
  {
    assert "api/json"[0] == 'a';
  }

  /** Regrouping `api/json` with the `/` before it and the `?` after it. */
  lemma ApiJsonRegroup(q: string, query: string)
    ensures q + "/" + "api/json" == q + "/api/json"
    ensures q + "/api/json" + ("?" + query) == q + "/api/json?" + query
  {
  }

  /**
   * Without a query, a path not ending in `/stop` gets `api/json` as one more
   * segment: after the single `/` it adds, or after the `/` it already ends with.
   */
  lemma JsonApiPathSuffix(path: string)
    requires '?' !in path && !EndsWith(path, "/stop")
    ensures !EndsWith(path, "/") ==> JsonApiPath(path) == path + "/api/json"
    ensures EndsWith(path, "/") ==> JsonApiPath(path) == path + "api/json"
    ensures EndsWith(JsonApiPath(path), "/api/json")
  {
    ApiJsonSegment();
    var t := EnsureTrailingSlash(path);
    assert JsonApiPath(path) == t + "api/json";
    var q := t[..|t| - 1];
    assert t == q + "/";
    ApiJsonRegroup(q, "");
    ApiJsonRegroup(path, "");
    EndsWithConcat(q, "/api/json");
  }

  /**
   * With a query, the result is the path part joined with `api/json` (which
   * holds no `?`) followed by everything from the path's first `?` on, later
   * `?`s included, verbatim; so the result's first `?` is where that query
   * begins. A trailing `/stop` on the path part is no exemption.
   */
  lemma JsonApiPathKeepsQuery(path: string)
    requires '?' in path
    ensures var i := IndexOf(path, '?');
            var head := UrlJoin(path[..i], "api/json");
            && '?' !in head
            && JsonApiPath(path) == head + path[i..]
            && IndexOf(JsonApiPath(path), '?') == |head|
  {
    var i := IndexOf(path, '?');
    var rest := path[i + 1..];
    var query := path[i..];
    assert query == ['?'] + rest;
    ConcatAssoc(path[..i], ['?'], rest);
    SplitLimit2Unique(path[..i], '?', rest);
    var head := UrlJoin(path[..i], "api/json");
    ConcatAssoc(head, "?", rest);
    ApiJsonSegment();
    assert '?' !in head;
    IndexOfAtSeam(head, query, '?');
  }

  /** The rewriting never alters a leading part of the path that holds no `?`. */
  lemma JsonApiPathKeepsPrefix(path: string, a: string)
    requires StartsWith(path, a) && '?' !in a
    ensures StartsWith(JsonApiPath(path), a)
  {
    if '?' in path {
      var i := IndexOf(path, '?');
      IndexOfPastPrefix(path, a, '?');
      assert StartsWith(path[..i], a);
      JsonApiPathKeepsQuery(path);
      var head := UrlJoin(path[..i], "api/json");
      assert StartsWith(head, a);
      StartsWithConcat(head, path[i..], a);
    }
  }

  /**
   * A relative path becomes a path under the context: the request stays
   * rooted at the server's prefix (given a context with no `?`, which would
   * otherwise be taken for the start of a query).
   */
  lemma ApiRelativeUnderContext(context: string, path: string)
    requires EndsWith(context, "/") && '?' !in context && !IsAbsolute(path)
    ensures StartsWith(Api(context, path), context)
  {
    JsonApiPathKeepsPrefix(Rooted(context, path), context);
  }

  /**
   * The rewriting of a plain relative path, as the server's API expects it:
   * context, path, `/api/json`. The side conditions are where the code does
   * something else: an absolute or empty path (see `ApiEmptyPath`), a leading
   * or trailing `/` on the path, a `?` anywhere, a joined path ending in `/stop`.
   */
  lemma ApiRelativeNoQuery(context: string, p: string)
    requires EndsWith(context, "/") && '?' !in context + p && !IsAbsolute(p)
    requires p != [] && p[0] != '/' && p[|p| - 1] != '/'
    requires !EndsWith(context + p, "/stop")
    ensures Api(context, p) == context + p + "/api/json"
  {
    assert !StartsWith(p, "/");
    assert UrlJoin(context, p) == context + p;
    assert !EndsWith(context + p, "/");
    JsonApiPathSuffix(context + p);
  }

  /** A relative path not starting with `/` is appended to a context ending in `/`. */
  lemma RootedRelative(context: string, path: string)
    requires EndsWith(context, "/") && !IsAbsolute(path) && !StartsWith(path, "/")
    ensures Rooted(context, path) == context + path
  {
    UrlJoinConcat(context, path);
  }

  /** The empty path names the context's own JSON API. */
  lemma ApiEmptyPath(context: string)
    requires EndsWith(context, "/") && '?' !in context
    ensures Api(context, "") == context + "api/json"
  {
    IsAbsoluteIff("");
    assert UrlJoin(context, "") == context;
    assert context[|context| - 1] == '/' != "/stop"[4];
    JsonApiPathSuffix(context);
  }

  /** A relative `.../stop` path without a query is sent as context plus path, nothing added. */
  lemma ApiRelativeStop(context: string, p: string)
    requires EndsWith(context, "/") && '?' !in context + p && !IsAbsolute(p)
    requires !StartsWith(p, "/") && EndsWith(p, "/stop")
    ensures Api(context, p) == context + p
  {
    RootedRelative(context, p);
    assert (context + p)[|context + p| - 5..] == p[|p| - 5..];
  }

  /** A path part `q` with no `?` and no trailing `/`, then a query. */
  lemma JsonApiPathPlainQuery(q: string, query: string)
    requires '?' !in q && q != [] && q[|q| - 1] != '/'
    ensures JsonApiPath(q + "?" + query) == q + "/api/json?" + query
  {
    var path := q + "?" + query;
    var tail := "?" + query;
    assert path == q + tail;
    assert path[|q|] == '?' && path[..|q|] == q && path[|q|..] == tail;
    IndexOfUnique(path, '?', |q|);
    JsonApiPathKeepsQuery(path);
    UrlJoinOneSeparator(q, "api/json");
    ApiJsonRegroup(q, query);
  }

  /** The rewriting of a relative path with a query: context, path, `/api/json?`, query. */
  lemma ApiRelativeWithQuery(context: string, p: string, query: string)
    requires EndsWith(context, "/") && '?' !in context + p
    requires !IsAbsolute(p + "?" + query)
    requires p != [] && p[0] != '/' && p[|p| - 1] != '/'
    ensures Api(context, p + "?" + query) == context + p + "/api/json?" + query
  {
    var path := p + "?" + query;
    assert path[0] == p[0];
    RootedRelative(context, path);
    ConcatAssoc(context, p, "?");
    ConcatAssoc(context, p + "?", query);
    JsonApiPathPlainQuery(context + p, query);
  }

  /**
   * The `/stop` exemption holds only without a query: with one, `api/json`
   * goes in before the query as for any other path.
   */
  lemma StopExemptOnlyWithoutQuery(q: string, query: string)
    requires '?' !in q && EndsWith(q, "/stop")
    ensures JsonApiPath(q) == q
    ensures JsonApiPath(q + "?" + query) == q + "/api/json?" + query
  {
    assert q[|q| - 1] == "/stop"[4];
    JsonApiPathPlainQuery(q, query);
  }

  // ---------------------------------------------------------------------------
  // Status rules
  // ---------------------------------------------------------------------------

  /** `get`, `getFile` and `post_xml` (lines 111, 133, 157, 225): no error raised. */
  predicate GetAccepts(status: int)
  {
    !(status < 200 || status >= 300)
  }

  /** `post` (line 192): a redirect, 302, is taken for success as well. */
  predicate PostAccepts(status: int)
  {
    !(status < 200 || (status >= 300 && status != 302))
  }

  /** The accepted windows, and the one status only `post` takes. */
  lemma AcceptedStatuses(status: int)
    ensures GetAccepts(status) <==> 200 <= status < 300
    ensures PostAccepts(status) <==> GetAccepts(status) || status == 302
    ensures PostAccepts(status) && !GetAccepts(status) <==> status == 302
  {
  }

  /** The boundaries: 199 and 300 are errors, 200 and 299 are not; 302 passes only `post`. */
  lemma StatusBoundaries()
    ensures !GetAccepts(199) && GetAccepts(200) && GetAccepts(299) && !GetAccepts(300)
    ensures !PostAccepts(199) && PostAccepts(200) && PostAccepts(299) && !PostAccepts(300)
    ensures PostAccepts(302) && !GetAccepts(302) && !PostAccepts(301) && !PostAccepts(303)
  {
  }

  // ---------------------------------------------------------------------------
  // Requests and responses
  // ---------------------------------------------------------------------------

  datatype HttpMethod = GET | POST

  /**
   * Where a request goes: a string the client resolves against the server's
   * root (`api`'s result), or a URI taken as it is (`getFile`).
   */
  datatype Target = ApiTarget(path: string) | Uri(uri: string)

  /** The request entity: none, the JSON text of the posted data, or raw XML. */
  datatype Entity = NoEntity | JsonEntity(json: string) | XmlEntity(xml: string)

  datatype Request = Request(verb: HttpMethod, target: Target, entity: Entity)

  /**
   * The status line and the response entity's text as read; `None` when the
   * response has no entity (`getEntity()` is null, as for a 204).
   */
  datatype Response = Response(status: int, reason: string, body: Option<string>)

  /**
   * What a call can raise: `HttpResponseException(status, reasonPhrase)` for
   * a rejected status, or the `NullPointerException` of reading the content
   * of a missing entity.
   */
  datatype Failure = HttpResponseException(status: int, reason: string) | MissingEntity

  datatype Result<T> = Ok(value: T) | Err(error: Failure)

  /** The name of the class a JSON response is to be read into. */
  type ClassName = string

  /** The entity `post` attaches: the JSON text of `data`, when there is data. */
  function JsonBody(data: Option<string>): Entity
  {
    match data
    case None => NoEntity
    case Some(json) => JsonEntity(json)
  }

  /** The entity `post_xml` attaches: the XML text, when there is some. */
  function XmlBody(xml: Option<string>): Entity
  {
    match xml
    case None => NoEntity
    case Some(x) => XmlEntity(x)
  }

  datatype Option<T> = None | Some(value: T)

  /** The failure a rejected status raises. */
  function Rejected(response: Response): Failure
  {
    HttpResponseException(response.status, response.reason)
  }

  /** The call raised `HttpResponseException` with this status. */
  predicate RaisesStatus<T>(r: Result<T>, status: int)
  {
    r.Err? && r.error.HttpResponseException? && r.error.status == status
  }

  /**
   * A client for one server. `context` is the server's path prefix; the
   * constructor leaves it ending in `/` and nothing changes it afterwards.
   */
  class Client {
    var context: string

    ghost predicate Valid()
      reads this
    {
      EndsWith(context, "/")
    }

    /**
     * `JenkinsHttpClient(URI uri)`, given the path of `uri` (`uri.getPath()`).
     * The path is kept when it already ends in `/`, otherwise `/` is added.
     */
    constructor (uriPath: string)
      ensures Valid()
      ensures context == EnsureTrailingSlash(uriPath)
    {
      context := uriPath;
      new;
      if !EndsWith(context, "/") {
        context := context + "/";
      }
    }

    /** The request `get` and `post` send for `path`. */
    function ApiRequest(verb: HttpMethod, path: string, entity: Entity): Request
      reads this
    {
      Request(verb, ApiTarget(Api(context, path)), entity)
    }

    /**
     * `get(path)` and `get(path, cls)`: a GET to the API path. A status outside
     * 200..299 raises an error carrying that status and reason; otherwise the
     * entity's content is read, which fails when there is no entity. `get(path)`
     * reads it whole (a `Scanner` delimited by end of input), the typed
     * overload reads it into `cls`.
     */
    function Get(path: string, server: Request -> Response): (r: Result<string>)
      reads this
      ensures var response := server(ApiRequest(GET, path, NoEntity));
        && (r.Ok? <==> 200 <= response.status < 300 && response.body.Some?)
        && (r.Ok? ==> r.value == response.body.value)
        && (!(200 <= response.status < 300) ==> r == Err(Rejected(response)))
        && (200 <= response.status < 300 && response.body.None? ==> r == Err(MissingEntity))
    {
      var response := server(ApiRequest(GET, path, NoEntity));
      if !GetAccepts(response.status) then
        Err(Rejected(response))
      else if response.body.None? then
        Err(MissingEntity)
      else
        Ok(response.body.value)
    }

    /**
     * `getFile(uri)`: a GET to `uri` as given, with no API rewriting, and the
     * same status rule as `get`; the result is the entity's content, which
     * fails when there is no entity.
     */
    function GetFile(uri: string, server: Request -> Response): (r: Result<string>)
      reads this
      ensures var response := server(Request(GET, Uri(uri), NoEntity));
        && (r.Ok? <==> 200 <= response.status < 300 && response.body.Some?)
        && (r.Ok? ==> r.value == response.body.value)
        && (!(200 <= response.status < 300) ==> r == Err(Rejected(response)))
        && (200 <= response.status < 300 && response.body.None? ==> r == Err(MissingEntity))
    {
      var response := server(Request(GET, Uri(uri), NoEntity));
      if !GetAccepts(response.status) then
        Err(Rejected(response))
      else if response.body.None? then
        Err(MissingEntity)
      else
        Ok(response.body.value)
    }

    /**
     * `post(path, data, cls)`: a POST to the API path carrying the JSON text
     * of `data` when there is data. A status outside 200..299 other than 302
     * raises an error; otherwise the content is read into `cls` (failing when
     * there is no entity), or nothing is returned, and nothing read, when
     * `cls` is null.
     */
    function Post(path: string, data: Option<string>, cls: Option<ClassName>,
                  server: Request -> Response): (r: Result<Option<string>>)
      reads this
      ensures var response := server(ApiRequest(POST, path, JsonBody(data)));
        var accepted := 200 <= response.status < 300 || response.status == 302;
        && (r.Ok? <==> accepted && (cls.None? || response.body.Some?))
        && (r.Ok? ==> (r.value.Some? <==> cls.Some?))
        && (r.Ok? && cls.Some? ==> r.value.value == response.body.value)
        && (!accepted ==> r == Err(Rejected(response)))
        && (accepted && cls.Some? && response.body.None? ==> r == Err(MissingEntity))
    {
      var response := server(ApiRequest(POST, path, JsonBody(data)));
      if !PostAccepts(response.status) then
        Err(Rejected(response))
      else if cls.None? then
        Ok(None)
      else if response.body.None? then
        Err(MissingEntity)
      else
        Ok(Some(response.body.value))
    }

    /**
     * `post_xml(path, xml)`: a POST to the API path carrying the XML text when
     * there is some; only 200..299 is accepted (302 is an error here). The
     * content, which must exist, is read with a `Scanner` on its default
     * delimiter and the tokens appended, so the text comes back with its
     * whitespace removed.
     */
    function PostXml(path: string, xml: Option<string>, server: Request -> Response): (r: Result<string>)
      reads this
      ensures var response := server(ApiRequest(POST, path, XmlBody(xml)));
        && (r.Ok? <==> 200 <= response.status < 300 && response.body.Some?)
        && (r.Ok? ==> r.value == JoinedTokens(response.body.value))
        && (r.Ok? ==> forall c :: c in r.value ==> c in response.body.value && !IsWhitespace(c))
        && (!(200 <= response.status < 300) ==> r == Err(Rejected(response)))
        && (200 <= response.status < 300 && response.body.None? ==> r == Err(MissingEntity))
    {
      var response := server(ApiRequest(POST, path, XmlBody(xml)));
      if !GetAccepts(response.status) then
        Err(Rejected(response))
      else if response.body.None? then
        Err(MissingEntity)
      else
        Ok(JoinedTokens(response.body.value))
    }

    /** `post(path)`: a bodiless POST whose result is discarded. */
    function PostAction(path: string, server: Request -> Response): (r: Result<()>)
      reads this
      ensures var response := server(ApiRequest(POST, path, NoEntity));
        && (r.Ok? <==> PostAccepts(response.status))
        && (r.Err? ==> r.error == Rejected(response))
    {
      match Post(path, None, None, server)
      case Ok(_) => Ok(())
      case Err(e) => Err(e)
    }
  }

  /** A relative path requested through a client goes under its context (one free of `?`). */
  lemma ClientRequestUnderContext(c: Client, verb: HttpMethod, path: string, entity: Entity)
    requires c.Valid() && '?' !in c.context && !IsAbsolute(path)
    ensures StartsWith(c.ApiRequest(verb, path, entity).target.path, c.context)
  {
    ApiRelativeUnderContext(c.context, path);
  }

  /** `post(path)` is `post(path, null, null)`: the same request and the same outcome. */
  lemma PostActionIsPostWithNulls(c: Client, path: string, server: Request -> Response)
    ensures c.Post(path, None, None, server).Ok? ==> c.Post(path, None, None, server).value == None
    ensures c.PostAction(path, server).Ok? <==> c.Post(path, None, None, server).Ok?
    ensures c.PostAction(path, server).Err? ==>
      c.PostAction(path, server).error == c.Post(path, None, None, server).error
  {
  }

  /**
   * A server answering 302 to everything: `post` takes it for success, while
   * `get`, `post_xml` and `getFile` raise an error carrying 302.
   */
  lemma RedirectOnlyForPost(c: Client, path: string, server: Request -> Response)
    requires forall q :: server(q).status == 302
    ensures c.Post(path, None, None, server).Ok?
    ensures RaisesStatus(c.Get(path, server), 302)
    ensures RaisesStatus(c.PostXml(path, None, server), 302)
    ensures RaisesStatus(c.GetFile(path, server), 302)
  {
  }

  /**
   * A server answering 204 with no entity: only a `post` without a class
   * succeeds; every call that reads the content fails on the missing entity.
   */
  lemma NoContentOnlyForPostWithoutClass(c: Client, path: string, data: Option<string>, cls: ClassName,
                                        server: Request -> Response)
    requires forall q :: server(q).status == 204 && server(q).body.None?
    ensures c.Post(path, data, None, server) == Ok(None)
    ensures c.PostAction(path, server) == Ok(())
    ensures c.Post(path, data, Some(cls), server) == Err(MissingEntity)
    ensures c.Get(path, server) == Err(MissingEntity)
    ensures c.GetFile(path, server) == Err(MissingEntity)
    ensures c.PostXml(path, None, server) == Err(MissingEntity)
  {
  }

  /**
   * `post_xml` hands back a body of XML text without its whitespace: the
   * words on either side of a space are glued together, while `get` returns
   * the body as it is.
   */
  lemma PostXmlGluesTokens(c: Client, path: string, xml: Option<string>, a: string, b: string,
                           server: Request -> Response)
    requires forall q :: server(q) == Response(200, "OK", Some(a + " " + b))
    ensures c.PostXml(path, xml, server) == Ok(JoinedTokens(a) + JoinedTokens(b))
    ensures c.Get(path, server) == Ok(a + " " + b)
  {
    JoinedTokensGlues(a, b);
  }

  /** A server at `http://host:8080/jenkins`: its path gains the trailing `/`. */
  method ExampleClient() returns (c: Client)
    ensures c.context == "/jenkins/"
  {
    c := new Client("/jenkins");
  }
}
