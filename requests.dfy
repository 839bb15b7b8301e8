/** The request array the client builds for every call, and the normaliser
    (`add_missing_request_values`) that completes it from the session's
    host URL and authentication token before it is sent. */
module Requests {
  import opened PhpValues
  import opened Serializers
  import opened Paths

  /** A request array. A key that is not set is `None`; the `cookie` and
      `http_header` arrays are empty when not set (the normaliser always
      sets one entry in each before anything reads them as a whole). */
  datatype Request = Request(
    url: Option<string>,
    host: Option<string>,
    path: Option<string>,
    query: Option<StringMap>,
    cookie: StringMap,
    httpHeader: StringMap,
    httpMethod: Option<string>,
    postFields: Option<string>,
    returnTransfer: Option<int>)

  /** `array()` */
  const EmptyRequest: Request := Request(None, None, None, None, [], [], None, None, None)

  const JsonType: string := "application/json"

  /** A request for a path relative to the session's host. */
  function PathRequest(path: string): Request
  {
    EmptyRequest.(path := Some(path))
  }

  /** What a `query` key adds to the URL: `?` and the query string, even
      for an empty query array. */
  function QuerySuffix(query: Option<StringMap>): string
  {
    if query.Some? then "?" + QueryString(query.value) else ""
  }

  /** The base a request without `url` is sent to: its `host`, or else the
      session's host URL. */
  function Base(request: Request, hostUrl: string): string
  {
    if request.host.Some? then request.host.value else hostUrl
  }

  /** Step one of the normaliser: a request without `url` gets one from
      its base and `path` (and records the base as its `host`). */
  function Located(request: Request, hostUrl: string): Request
  {
    if request.url.Some? then request
    else
      var base := Base(request, hostUrl);
      var url := if request.path.Some? then FixTrailingSlash(base, "ensure") + request.path.value else base;
      request.(host := Some(base), url := Some(url))
  }

  /** `add_missing_request_values`: the request as it is sent. Afterwards
      the URL, the `authToken` cookie, the `Content-Type` header and the
      return-transfer flag are always set, a POST always has a body, and
      nothing the caller set is overwritten. */
  function Normalized(request: Request, hostUrl: string, authToken: string): (r: Request)
    ensures r.url.Some?
    ensures "authToken" in Keys(r.cookie) && "Content-Type" in Keys(r.httpHeader)
    ensures r.returnTransfer.Some?
    ensures r.httpMethod == Some("post") ==> r.postFields.Some?
    ensures forall k :: k in Keys(request.cookie) ==> Lookup(r.cookie, k) == Lookup(request.cookie, k)
    ensures forall k :: k in Keys(request.httpHeader) ==> Lookup(r.httpHeader, k) == Lookup(request.httpHeader, k)
    ensures request.postFields.Some? ==> r.postFields == request.postFields
    ensures request.returnTransfer.Some? ==> r.returnTransfer == request.returnTransfer
    ensures r.path == request.path && r.query == request.query && r.httpMethod == request.httpMethod
  {
    var located := Located(request, hostUrl);
    var queried :=
      if request.query.Some? then located.(url := Some(located.url.value + "?" + QueryString(request.query.value)))
      else located;
    var cookie :=
      if "authToken" in Keys(request.cookie) then request.cookie
      else Put(request.cookie, "authToken", authToken);
    var header :=
      if "Content-Type" in Keys(request.httpHeader) then request.httpHeader
      else Put(request.httpHeader, "Content-Type", JsonType);
    var body :=
      if request.httpMethod == Some("post") && request.postFields.None? then Some("")
      else request.postFields;
    var transfer := if request.returnTransfer.None? then Some(1) else request.returnTransfer;
    queried.(cookie := cookie, httpHeader := header, postFields := body, returnTransfer := transfer)
  }

  /** The URL sent is the located URL followed by the query suffix. */
  lemma NormalizedUrl(request: Request, hostUrl: string, authToken: string)
    ensures Located(request, hostUrl).url.Some?
    ensures Normalized(request, hostUrl, authToken).url
         == Some(Located(request, hostUrl).url.value + QuerySuffix(request.query))
    ensures Normalized(request, hostUrl, authToken).host == Located(request, hostUrl).host
  {
    var located := Located(request, hostUrl);
    if request.query.Some? {
      assert located.url.value + "?" + QueryString(request.query.value)
          == located.url.value + QuerySuffix(request.query);
    } else {
      assert located.url.value + "" == located.url.value;
    }
  }

  /** An explicit `url` is kept (followed by the query suffix) and `host`
      is left as the caller gave it. */
  lemma ExplicitUrlKept(request: Request, hostUrl: string, authToken: string)
    requires request.url.Some?
    ensures Normalized(request, hostUrl, authToken).url == Some(request.url.value + QuerySuffix(request.query))
    ensures Normalized(request, hostUrl, authToken).host == request.host
  {
    NormalizedUrl(request, hostUrl, authToken);
  }

  /** With an explicit `url`, neither `host`, nor `path`, nor the session's
      host URL has any influence on the URL sent. */
  lemma ExplicitUrlIgnoresHostAndPath(request: Request, host: Option<string>, path: Option<string>,
                                      hostUrl: string, hostUrl': string, authToken: string)
    requires request.url.Some?
    ensures Normalized(request.(host := host, path := path), hostUrl', authToken).url
         == Normalized(request, hostUrl, authToken).url
  {
    ExplicitUrlKept(request, hostUrl, authToken);
    ExplicitUrlKept(request.(host := host, path := path), hostUrl', authToken);
  }

  /** Without `url`, the URL is the base alone when there is no `path`, and
      the base with a trailing slash ensured, then the path, when there is
      one; either way followed by the query suffix. The base is recorded
      as the request's `host`. */
  lemma UrlFromBase(request: Request, hostUrl: string, authToken: string)
    requires request.url.None?
    ensures var base := Base(request, hostUrl);
            var r := Normalized(request, hostUrl, authToken);
            && r.host == Some(base)
            && (request.path.None? ==> r.url == Some(base + QuerySuffix(request.query)))
            && (request.path.Some? && EndsWithSlash(base) ==>
                  r.url == Some(base + request.path.value + QuerySuffix(request.query)))
            && (request.path.Some? && !EndsWithSlash(base) ==>
                  r.url == Some(base + "/" + request.path.value + QuerySuffix(request.query)))
  {
    NormalizedUrl(request, hostUrl, authToken);
    var base := Base(request, hostUrl);
    var fixed := FixTrailingSlash(base, "ensure");
    if EndsWithSlash(base) {
      EnsureIdempotent(base);
    } else {
      assert fixed == base + "/" by {
        assert base <= fixed && |fixed| <= |base| + 1;
        assert fixed[|fixed| - 1] == '/';
        assert fixed == fixed[..|base|] + [fixed[|base|]];
      }
    }
  }

  /** A leading slash on `path` is not removed, so a base ending in a
      slash and a path starting with one give a doubled slash. */
  lemma LeadingSlashKept()
    ensures Normalized(EmptyRequest.(host := Some("https://h/"), path := Some("/login")), "", "").url
         == Some("https://h//login")
  {
    UrlFromBase(EmptyRequest.(host := Some("https://h/"), path := Some("/login")), "", "");
    assert EndsWithSlash("https://h/");
    assert "https://h/" + "/login" + QuerySuffix(None) == "https://h//login";
  }

  /** A `query` key that holds an empty array still appends `?`: the URL
      sent ends in a question mark. */
  lemma EmptyQueryLeavesMark(request: Request, hostUrl: string, authToken: string)
    requires request.query == Some([])
    ensures var url := Normalized(request, hostUrl, authToken).url.value;
            |url| > 0 && url[|url| - 1] == '?'
  {
    assert QueryString([]) == "";
  }

  /** The defaults are added only where the caller left the key out; a
      missing `authToken` cookie or `Content-Type` header is appended after
      the caller's own entries. */
  lemma DefaultsOnlyWhenAbsent(request: Request, hostUrl: string, authToken: string)
    ensures var r := Normalized(request, hostUrl, authToken);
            && r.cookie == (if "authToken" in Keys(request.cookie) then request.cookie
                            else request.cookie + [("authToken", authToken)])
            && r.httpHeader == (if "Content-Type" in Keys(request.httpHeader) then request.httpHeader
                                else request.httpHeader + [("Content-Type", JsonType)])
            && r.postFields == (if request.httpMethod == Some("post") && request.postFields.None? then Some("")
                                else request.postFields)
            && r.returnTransfer == (if request.returnTransfer.None? then Some(1) else request.returnTransfer)
  {
  }

  /** The verb `make_curl_request` sends for a request's `method`: "delete",
      "put" and "post" select DELETE, PUT and POST; anything else leaves
      cURL's default, GET. */
  function HttpVerb(httpMethod: Option<string>): (verb: string)
    ensures verb in {"GET", "POST", "PUT", "DELETE"}
    ensures verb == "GET" <==> httpMethod !in {Some("delete"), Some("put"), Some("post")}
    ensures httpMethod == Some("post") ==> verb == "POST"
    ensures httpMethod == Some("put") ==> verb == "PUT"
    ensures httpMethod == Some("delete") ==> verb == "DELETE"
  {
    match httpMethod
    case Some("delete") => "DELETE"
    case Some("put") => "PUT"
    case Some("post") => "POST"
    case _ => "GET"
  }
}
