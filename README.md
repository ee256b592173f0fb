# JenkinsHttpClient in Dafny

A model of the request-building core of the Jenkins Java client's
`JenkinsHttpClient`:

- how the constructor normalises the server's path prefix (the *context*) so
  that it ends in `/`;
- `urlJoin`, which glues two path pieces with one `/` at the seam;
- `api`, which turns a caller's path into the JSON-API path. A path that is not
  an absolute `http(s)://` URL is put under the context. `api/json` is
  appended, except on a `/stop` path without a query. When there is a query, it
  is put back after the suffix;
- the status rules by which `get`, `getFile`, `post` and `post_xml` accept a
  response or raise `HttpResponseException`. `post` also accepts the redirect
  302, and `post` with a null class returns nothing. `post(path)` is
  `post(path, null, null)`.

There are three modules:

- `JavaString` models the `java.lang.String` and `java.util.Scanner` behaviour
  the code relies on: `startsWith`, `endsWith`, `contains` (written as `'?' in
  path`), `split(regex, 2)`, `toLowerCase`, and the token loop that reads a
  body. `IndexOf` gives the position of the first `?`, where `split` cuts.
- `Regex` is a matcher for the pattern `https?://.*`. `.` does not match a
  line terminator.
- `JenkinsHttpClient` holds the path functions, the status predicates and a
  class `Client` with the `context` field.

The request methods are functions of the client that take the server as a
parameter. The server is a total function from the request sent to the
response received: status code, reason phrase and, when the response has an
entity, its text.

Behaviour worth knowing:

- `urlJoin` drops only one leading `/` from its second argument, and adds a `/`
  only when the first argument does not end in one. A second piece starting
  with `//` therefore leaves two slashes at the seam
  (`UrlJoinKeepsSecondSlash`).
- A relative path becomes context + path + `/api/json` when it is non-empty,
  has no leading or trailing `/` and no `?`, and the joined path does not end
  in `/stop` (`ApiRelativeNoQuery`). An empty path gives context + `api/json`
  (`ApiEmptyPath`).
- A path ending in `/stop` is left without `api/json` only when it has no
  query (`StopExemptOnlyWithoutQuery`).
- `post_xml` reads its response with a `Scanner` on the default delimiter and
  appends the tokens. The XML text therefore comes back with all its
  whitespace removed (`PostXmlGluesTokens`).
- Every call except `post` with a null class reads the response entity's
  content. A response without an entity (a 204, say) that passes the status
  check makes such a call fail with a `NullPointerException`
  (`NoContentOnlyForPostWithoutClass`).

## Model

| member | source | states |
|---|---|---|
| JavaString.StartsWith | jenkins-client/src/com/offbytwo/jenkins/client/JenkinsHttpClient.java:257 | `startsWith`: `prefix` is a prefix of `s`; used through the contracts of `DropLeadingSlash` and `UrlJoin` |
| JavaString.EndsWith | jenkins-client/src/com/offbytwo/jenkins/client/JenkinsHttpClient.java:58 | `endsWith` (also lines 254 and 268): the last characters of `s` are `suffix`; used through the contracts of `EnsureTrailingSlash`, `JsonApiPath` and `JsonApiPathSuffix` |
| JavaString.IndexOf | jenkins-client/src/com/offbytwo/jenkins/client/JenkinsHttpClient.java:272 | the first position of the character, or -1 exactly when it does not occur; no earlier occurrence |
| JavaString.SplitLimit2 | jenkins-client/src/com/offbytwo/jenkins/client/JenkinsHttpClient.java:272 | `split` with limit 2: one piece (the whole string) without the separator; otherwise two pieces around the first separator that rebuild the string, the first piece free of the separator |
| JavaString.SplitLimit2Unique | jenkins-client/src/com/offbytwo/jenkins/client/JenkinsHttpClient.java:272 | any string `a + [c] + b` with no `c` in `a` splits into exactly `[a, b]` |
| JavaString.ToLower | jenkins-client/src/com/offbytwo/jenkins/client/JenkinsHttpClient.java:264 | `toLowerCase()`: keeps the length; `ToLowerAt` gives each character |
| JavaString.ToLowerAt | jenkins-client/src/com/offbytwo/jenkins/client/JenkinsHttpClient.java:264 | lower-casing keeps the length and maps each character in place |
| JavaString.IsWhitespace | jenkins-client/src/com/offbytwo/jenkins/client/JenkinsHttpClient.java:230-233 | the Scanner's default delimiter characters, `Character.isWhitespace` as in Java 7 and 8: ASCII 9-13, 28-31 and the space, U+1680, U+180E, U+2000-U+200A except U+2007, U+2028, U+2029, U+205F and U+3000; `JoinedTokens` removes exactly these |
| JavaString.JoinedTokens | jenkins-client/src/com/offbytwo/jenkins/client/JenkinsHttpClient.java:230-235 | the appended Scanner tokens are no longer than the body and hold only the body's non-whitespace characters |
| JavaString.JoinedTokensNoWhitespace | jenkins-client/src/com/offbytwo/jenkins/client/JenkinsHttpClient.java:230-235 | a body without whitespace comes back unchanged |
| JavaString.JoinedTokensConcat | jenkins-client/src/com/offbytwo/jenkins/client/JenkinsHttpClient.java:230-235 | the tokens of a concatenation are the tokens of each part, appended |
| JavaString.JoinedTokensGlues | jenkins-client/src/com/offbytwo/jenkins/client/JenkinsHttpClient.java:230-235 | the text on either side of a space ends up glued together |
| Regex.Matches | jenkins-client/src/com/offbytwo/jenkins/client/JenkinsHttpClient.java:264 | whether the whole string matches the pattern, as `String.matches` demands; characterised by `MatchesLiterals`, `MatchesOptional` and `MatchesDotStar` |
| Regex.MatchesLiterals | jenkins-client/src/com/offbytwo/jenkins/client/JenkinsHttpClient.java:264 | a literal run then the rest of a pattern matches exactly the strings that start with the literal and whose remainder the rest matches |
| Regex.MatchesOptional | jenkins-client/src/com/offbytwo/jenkins/client/JenkinsHttpClient.java:264 | `s?` matches with or without the `s` |
| Regex.MatchesDotStar | jenkins-client/src/com/offbytwo/jenkins/client/JenkinsHttpClient.java:264 | `.*` matches exactly the strings with no line terminator |
| JenkinsHttpClient.EnsureTrailingSlash | jenkins-client/src/com/offbytwo/jenkins/client/JenkinsHttpClient.java:57-60 | the result ends in `/`, extends the input by at most one character, and equals the input exactly when the input already ended in `/` |
| JenkinsHttpClient.EnsureTrailingSlashIdempotent | jenkins-client/src/com/offbytwo/jenkins/client/JenkinsHttpClient.java:57-60 | normalising twice gives what normalising once gives |
| JenkinsHttpClient.Client.constructor | jenkins-client/src/com/offbytwo/jenkins/client/JenkinsHttpClient.java:56-60 | the context is the URI's path with a `/` added only when missing; it ends in `/` |
| JenkinsHttpClient.ExampleClient | jenkins-client/src/com/offbytwo/jenkins/client/JenkinsHttpClient.java:56-60 | a server at path `/jenkins` gets the context `/jenkins/` |
| JenkinsHttpClient.DropLeadingSlash | jenkins-client/src/com/offbytwo/jenkins/client/JenkinsHttpClient.java:257-259 | the input loses exactly one leading `/`, and changes exactly when it starts with one |
| JenkinsHttpClient.UrlJoin | jenkins-client/src/com/offbytwo/jenkins/client/JenkinsHttpClient.java:253-261 | the join starts with the first piece, has a `/` at the seam, and continues with the second piece less one leading `/` |
| JenkinsHttpClient.UrlJoinOneSeparator | jenkins-client/src/com/offbytwo/jenkins/client/JenkinsHttpClient.java:253-261 | with no slash, a slash after the first piece, one before the second, or both, the join is `x + "/" + y` |
| JenkinsHttpClient.UrlJoinConcat | jenkins-client/src/com/offbytwo/jenkins/client/JenkinsHttpClient.java:253-261 | a first piece ending in `/` and a second without a leading `/` are just concatenated |
| JenkinsHttpClient.UrlJoinKeepsSecondSlash | jenkins-client/src/com/offbytwo/jenkins/client/JenkinsHttpClient.java:257-259 | a second piece starting with `//` keeps one of them, so the seam has two slashes |
| JenkinsHttpClient.IsAbsolute | jenkins-client/src/com/offbytwo/jenkins/client/JenkinsHttpClient.java:264 | `path.toLowerCase().matches("https?://.*")`; `IsAbsoluteIff` gives it as a plain prefix test with no line terminator after it |
| JenkinsHttpClient.IsAbsoluteIff | jenkins-client/src/com/offbytwo/jenkins/client/JenkinsHttpClient.java:264 | a path is absolute exactly when, lower-cased, it starts with `http://` or `https://` and the rest has no line terminator |
| JenkinsHttpClient.Rooted | jenkins-client/src/com/offbytwo/jenkins/client/JenkinsHttpClient.java:264-266 | an absolute path is kept as it is; a relative one starts with the context and ends with the path less one leading `/` |
| JenkinsHttpClient.RootedRelative | jenkins-client/src/com/offbytwo/jenkins/client/JenkinsHttpClient.java:264-266 | a relative path without a leading `/` is appended to a context ending in `/` |
| JenkinsHttpClient.JsonApiPath | jenkins-client/src/com/offbytwo/jenkins/client/JenkinsHttpClient.java:267-274 | without a query, a `/stop` path is unchanged and any other is extended, still with no `?`; the result has a `?` exactly when the path has |
| JenkinsHttpClient.JsonApiPathSuffix | jenkins-client/src/com/offbytwo/jenkins/client/JenkinsHttpClient.java:267-270 | without a query and `/stop`, the result is the path plus `/api/json`, or plus `api/json` when it already ends in `/`; it always ends in `/api/json` |
| JenkinsHttpClient.JsonApiPathKeepsQuery | jenkins-client/src/com/offbytwo/jenkins/client/JenkinsHttpClient.java:271-274 | with a query, the result is the part before the first `?` joined with `api/json`, then everything from that `?` on verbatim; the result's first `?` is where the query begins |
| JenkinsHttpClient.JsonApiPathKeepsPrefix | jenkins-client/src/com/offbytwo/jenkins/client/JenkinsHttpClient.java:267-274 | the rewriting never alters a leading part of the path that holds no `?` |
| JenkinsHttpClient.JsonApiPathPlainQuery | jenkins-client/src/com/offbytwo/jenkins/client/JenkinsHttpClient.java:271-274 | `q?query` with `q` free of `?` and not ending in `/` becomes `q/api/json?query` |
| JenkinsHttpClient.StopExemptOnlyWithoutQuery | jenkins-client/src/com/offbytwo/jenkins/client/JenkinsHttpClient.java:267-274 | a `/stop` path is left alone without a query, but gets `/api/json` before a query |
| JenkinsHttpClient.Api | jenkins-client/src/com/offbytwo/jenkins/client/JenkinsHttpClient.java:263-274 | `api(path)` up to the string handed to `resolve`: pinned down by `ApiAbsoluteIgnoresContext` (absolute paths), `ApiRelativeUnderContext` (relative paths stay under the context), `ApiRelativeNoQuery`, `ApiRelativeStop` and `ApiRelativeWithQuery` (the exact result of each relative shape) |
| JenkinsHttpClient.ApiAbsoluteIgnoresContext | jenkins-client/src/com/offbytwo/jenkins/client/JenkinsHttpClient.java:263-274 | for an absolute path the context plays no part in the result |
| JenkinsHttpClient.ApiRelativeUnderContext | jenkins-client/src/com/offbytwo/jenkins/client/JenkinsHttpClient.java:263-274 | a relative path always ends up under a context (ending in `/`, free of `?`) |
| JenkinsHttpClient.ClientRequestUnderContext | jenkins-client/src/com/offbytwo/jenkins/client/JenkinsHttpClient.java:263-266 | the request a constructed client sends for a relative path lies under its context (one free of `?`) |
| JenkinsHttpClient.ApiRelativeNoQuery | jenkins-client/src/com/offbytwo/jenkins/client/JenkinsHttpClient.java:263-270 | a plain relative path becomes context + path + `/api/json` under the stated side conditions |
| JenkinsHttpClient.ApiEmptyPath | jenkins-client/src/com/offbytwo/jenkins/client/JenkinsHttpClient.java:263-270 | the empty path gives the context (ending in `/`, free of `?`) followed by `api/json` |
| JenkinsHttpClient.ApiRelativeStop | jenkins-client/src/com/offbytwo/jenkins/client/JenkinsHttpClient.java:263-270 | a relative `/stop` path without a query becomes context + path with nothing appended |
| JenkinsHttpClient.ApiRelativeWithQuery | jenkins-client/src/com/offbytwo/jenkins/client/JenkinsHttpClient.java:263-274 | a relative path with a query becomes context + path + `/api/json?` + query |
| JenkinsHttpClient.GetAccepts | jenkins-client/src/com/offbytwo/jenkins/client/JenkinsHttpClient.java:110-113 | the status test of `get`, `getFile` and `post_xml` (also lines 133, 157, 225); `AcceptedStatuses` shows it accepts exactly 200..299 |
| JenkinsHttpClient.PostAccepts | jenkins-client/src/com/offbytwo/jenkins/client/JenkinsHttpClient.java:192-194 | the status test of `post`; `AcceptedStatuses` shows it accepts 200..299 and 302 and nothing else |
| JenkinsHttpClient.AcceptedStatuses | jenkins-client/src/com/offbytwo/jenkins/client/JenkinsHttpClient.java:192-194 | `get`-style calls accept exactly 200..299; `post` accepts those and 302, and 302 is the only status in which they differ |
| JenkinsHttpClient.StatusBoundaries | jenkins-client/src/com/offbytwo/jenkins/client/JenkinsHttpClient.java:110-113 | 199 and 300 are errors, 200 and 299 are not; 302 passes `post` only, 301 and 303 pass neither |
| JenkinsHttpClient.JsonBody | jenkins-client/src/com/offbytwo/jenkins/client/JenkinsHttpClient.java:183-187 | the entity `post` attaches: the JSON text when there is data, none otherwise; fixed by the contract of `Client.Post` |
| JenkinsHttpClient.XmlBody | jenkins-client/src/com/offbytwo/jenkins/client/JenkinsHttpClient.java:220-222 | the entity `post_xml` attaches: the XML text when there is some, none otherwise; fixed by the contract of `Client.PostXml` |
| JenkinsHttpClient.Rejected | jenkins-client/src/com/offbytwo/jenkins/client/JenkinsHttpClient.java:110-113 | the `HttpResponseException` carrying the status and reason phrase (also lines 134, 158, 193, 226); the error the contracts of `Get`, `GetFile`, `Post`, `PostXml` and `PostAction` give for a rejected status |
| JenkinsHttpClient.Client.ApiRequest | jenkins-client/src/com/offbytwo/jenkins/client/JenkinsHttpClient.java:182 | the request `new HttpPost(api(path))` (and `new HttpGet(api(path))` on lines 109, 131, and `HttpPost` on 219) sends: the verb, `Api` of the client's context and the path, and the entity |
| JenkinsHttpClient.Client.Get | jenkins-client/src/com/offbytwo/jenkins/client/JenkinsHttpClient.java:130-143 | a GET of the API path; a status outside 200..299 raises an error with the response's status and reason; an accepted response without an entity fails on the missing entity; otherwise the body is the result |
| JenkinsHttpClient.Client.GetFile | jenkins-client/src/com/offbytwo/jenkins/client/JenkinsHttpClient.java:154-161 | a GET of the URI as given; the same status rule as `get`; the content is the result, and a missing entity is a failure |
| JenkinsHttpClient.Client.Post | jenkins-client/src/com/offbytwo/jenkins/client/JenkinsHttpClient.java:180-204 | a POST of the API path carrying the JSON text of the data when present; success exactly for 200..299 or 302, with a result exactly when a class is given (the body, whose absence is a failure) and nothing read without a class; otherwise an error with status and reason |
| JenkinsHttpClient.Client.PostXml | jenkins-client/src/com/offbytwo/jenkins/client/JenkinsHttpClient.java:218-239 | a POST of the API path with the XML when present; only 200..299 is accepted (not 302); the body's Scanner tokens, joined, are the result, and a missing entity is a failure; a rejected status raises an error with status and reason |
| JenkinsHttpClient.Client.PostAction | jenkins-client/src/com/offbytwo/jenkins/client/JenkinsHttpClient.java:249-251 | a bodiless POST that succeeds exactly when `post` accepts the status, else fails with its status and reason |
| JenkinsHttpClient.PostActionIsPostWithNulls | jenkins-client/src/com/offbytwo/jenkins/client/JenkinsHttpClient.java:249-251 | `post(path)` has exactly the outcome of `post(path, null, null)`, which returns nothing on success |
| JenkinsHttpClient.RedirectOnlyForPost | jenkins-client/src/com/offbytwo/jenkins/client/JenkinsHttpClient.java:192-194 | against a server that answers 302, `post` succeeds and `get`, `getFile` and `post_xml` raise an error carrying 302 |
| JenkinsHttpClient.NoContentOnlyForPostWithoutClass | jenkins-client/src/com/offbytwo/jenkins/client/JenkinsHttpClient.java:196-200 | against a server answering 204 without an entity, `post` without a class and `post(path)` succeed, while `post` with a class, `get`, `getFile` and `post_xml` fail on the missing entity |
| JenkinsHttpClient.PostXmlGluesTokens | jenkins-client/src/com/offbytwo/jenkins/client/JenkinsHttpClient.java:228-235 | for a body `a + " " + b`, `post_xml` returns the tokens of `a` and `b` glued together, while `get` returns the body as it is |

## Left out

- Sending a request (`client.execute`), the connection pool, the ten-second timeouts and `localContext`: these are I/O. The server is a parameter instead.
- The two-argument constructor's pre-emptive basic authentication, lines 79-92 (credentials, `PreemptiveAuth`): it only configures the HTTP engine.
- `uri.resolve("/").resolve(path)` on line 275: the model stops at the string handed to it. Reference resolution (RFC 3986, section 5.2) and the URI class are not part of this model. `resolve(String)` parses that string with `URI.create` and throws `IllegalArgumentException` when it holds a character a URI may not contain, such as a space or a `%` without two hex digits after it: `get("job/my job")` fails before anything is sent. `Client.Get`, `Client.Post`, `Client.PostXml` and `Client.PostAction` hand such a string to the server instead; that error path is not modelled.
- `uri.getPath()` is taken as a string parameter of the constructor. Its percent-decoding, and the `null` it returns for an opaque URI, are not modelled.
- JenkinsHttpClient.Client.Post: the entity built on lines 184-185 is assumed to carry the JSON text. That call passes `"application/json"` as the second argument of `StringEntity(String, String)`, which the HTTP library takes for a charset name. Whether it rejects that name before the request is sent depends on library code that is not part of this model.
- JenkinsHttpClient.XmlBody: the XML text is attached as it is. Line 221 builds the entity with `ContentType.APPLICATION_XML`, whose charset is ISO-8859-1, so the bytes sent for characters outside Latin-1 are not what the caller wrote. Request encoding is not modelled.
- JSON mapping of requests and responses (`getDefaultMapper`, `objectFromResponse`, `writeValueAsString`): `data` is given as its serialised JSON text, and the typed `get`/`post` return the body text to be read into the class.
- `getFile` returns the open content stream. The model returns its text.
- Character decoding with UTF-8, and Java strings as UTF-16 units: a Dafny `char` is one Unicode scalar value. A surrogate pair is one `char` here, and a lone surrogate cannot be represented.
- `toLowerCase` is modelled on ASCII letters only; the locale and non-ASCII case mappings are not modelled. No non-ASCII character lower-cases to one of `h`, `t`, `p`, `s`, `:` or `/`.
- `EntityUtils.consume` and the `finally` blocks: they release the connection and do not change any result.
- `ApiRelativeUnderContext`: it requires a context free of `?`. A `?` in the context is taken by `api` for the start of a query, and the path is split inside the context.
