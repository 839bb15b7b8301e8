/** The session life cycle of the client: `login` fetches the host URL and
    the authentication token only where they are blank, `logout` releases
    the token and clears both. These functions give the outcome of each
    from the state before the call and the network's answers. */
module Session {
  import opened PhpValues
  import opened Paths
  import opened Requests
  import opened Responses

  /** The configuration the client is constructed with. */
  datatype Credentials = Credentials(companyCode: string, username: string, password: string, serviceUrl: string)

  /** The outcome of `login` or `logout`: the returned flag and the new
      host URL and authentication token. */
  datatype SessionResult = SessionResult(ok: bool, hostUrl: string, authToken: string)

  /** `is_blank`: only the empty string is blank. A truthy value is never
      blank, but "0" is neither blank nor truthy. */
  function IsBlank(value: string): (blank: bool)
    ensures blank <==> |value| == 0
    ensures TruthyText(value) ==> !blank
    ensures !blank && !TruthyText(value) <==> value == "0"
  {
    value == ""
  }

  /** `fetch_host_url`'s request: the discovery service, with the company
      code as the path. */
  function HostUrlRequest(c: Credentials): Request
  {
    EmptyRequest.(host := Some(c.serviceUrl), path := Some(c.companyCode))
  }

  /** `fetch_auth_token`'s request: a POST to the login path with the
      company code, user name and password as the query. */
  function AuthTokenRequest(c: Credentials): Request
  {
    EmptyRequest.(path := Some(PathFor("login")), httpMethod := Some("post"),
                  query := Some([("orgCode", c.companyCode), ("userName", c.username), ("password", c.password)]))
  }

  /** `release_auth_token`'s request: a POST to the logout path carrying
      the token as its `authToken` cookie. */
  function ReleaseRequest(authToken: string): Request
  {
    EmptyRequest.(path := Some(PathFor("logout")), httpMethod := Some("post"), cookie := [("authToken", authToken)])
  }

  /** `$response->response->$name` of a delivered reply, when it is a string. */
  function StringAt(reply: Reply, name: string): Option<string>
  {
    if reply.Delivered? then
      var v := Get(ResponseOf(reply.payload), name);
      if v.Str? then Some(v.s) else None
    else None
  }

  /** What `fetch_host_url` returns. */
  function FetchedHostUrl(c: Credentials, hostUrl: string, authToken: string, net: Network): Option<string>
  {
    StringAt(Exchange(HostUrlRequest(c), hostUrl, authToken, net), "URL")
  }

  /** What `fetch_auth_token` returns. */
  function FetchedAuthToken(c: Credentials, hostUrl: string, authToken: string, net: Network): Option<string>
  {
    StringAt(Exchange(AuthTokenRequest(c), hostUrl, authToken, net), "authToken")
  }

  /** A fetched value that `login` accepts: present and truthy. */
  predicate Accepted(v: Option<string>)
  {
    v.Some? && TruthyText(v.value)
  }

  /** The token half of `login`, run with the host URL it has by then. */
  function TokenStep(c: Credentials, hostUrl: string, authToken: string, net: Network): (r: SessionResult)
    ensures r.hostUrl == hostUrl
    ensures r.ok <==> (IsBlank(authToken) ==> Accepted(FetchedAuthToken(c, hostUrl, authToken, net)))
    ensures r.ok && IsBlank(authToken) ==>
              Some(r.authToken) == FetchedAuthToken(c, hostUrl, authToken, net) && TruthyText(r.authToken)
    ensures !r.ok || !IsBlank(authToken) ==> r.authToken == authToken
  {
    if IsBlank(authToken) then
      var t := FetchedAuthToken(c, hostUrl, authToken, net);
      if !Accepted(t) then SessionResult(false, hostUrl, authToken)
      else SessionResult(true, hostUrl, t.value)
    else SessionResult(true, hostUrl, authToken)
  }

  /** `login`: a blank host URL is fetched first and stored at once; then a
      blank token is fetched, with the new host URL, and stored. Success
      means both are set; a value that was already set is never changed,
      and a blank one is replaced by the truthy value fetched for it. */
  function LoginOutcome(c: Credentials, hostUrl: string, authToken: string, net: Network): (r: SessionResult)
    ensures r.ok ==> !IsBlank(r.hostUrl) && !IsBlank(r.authToken)
    ensures r.ok && IsBlank(hostUrl) ==>
              Some(r.hostUrl) == FetchedHostUrl(c, hostUrl, authToken, net) && TruthyText(r.hostUrl)
    ensures r.ok && IsBlank(authToken) ==>
              Some(r.authToken) == FetchedAuthToken(c, r.hostUrl, authToken, net) && TruthyText(r.authToken)
    ensures !IsBlank(hostUrl) ==> r.hostUrl == hostUrl
    ensures !IsBlank(authToken) ==> r.authToken == authToken
    ensures !r.ok ==> r.authToken == authToken
    ensures r.ok <==>
              && (IsBlank(hostUrl) ==> Accepted(FetchedHostUrl(c, hostUrl, authToken, net)))
              && (IsBlank(authToken) ==> Accepted(FetchedAuthToken(c, r.hostUrl, authToken, net)))
  {
    if IsBlank(hostUrl) then
      var h := FetchedHostUrl(c, hostUrl, authToken, net);
      if !Accepted(h) then SessionResult(false, hostUrl, authToken)
      else TokenStep(c, h.value, authToken, net)
    else TokenStep(c, hostUrl, authToken, net)
  }

  /** The number of errors `login` logs: those of the host URL call when
      the host URL is blank, then those of the token call when the token
      is blank and the host URL step has succeeded. */
  function LoginRejections(c: Credentials, hostUrl: string, authToken: string, net: Network): nat
  {
    if IsBlank(hostUrl) then
      var h := FetchedHostUrl(c, hostUrl, authToken, net);
      Rejections(HostUrlRequest(c), hostUrl, authToken, net)
      + (if Accepted(h) then TokenRejections(c, h.value, authToken, net) else 0)
    else TokenRejections(c, hostUrl, authToken, net)
  }

  /** The errors the token half of `login` logs. */
  function TokenRejections(c: Credentials, hostUrl: string, authToken: string, net: Network): nat
  {
    if IsBlank(authToken) then Rejections(AuthTokenRequest(c), hostUrl, authToken, net) else 0
  }

  /** With both values already set, `login` succeeds without asking the
      network anything: its outcome is the same whatever the network does. */
  lemma LoginWithoutFetch(c: Credentials, hostUrl: string, authToken: string, net: Network, net': Network)
    requires !IsBlank(hostUrl) && !IsBlank(authToken)
    ensures LoginOutcome(c, hostUrl, authToken, net) == SessionResult(true, hostUrl, authToken)
    ensures LoginOutcome(c, hostUrl, authToken, net') == LoginOutcome(c, hostUrl, authToken, net)
  {
  }

  /** A failed host URL fetch fails `login` and leaves the state as it was. */
  lemma LoginHostFailure(c: Credentials, hostUrl: string, authToken: string, net: Network)
    requires IsBlank(hostUrl) && !Accepted(FetchedHostUrl(c, hostUrl, authToken, net))
    ensures LoginOutcome(c, hostUrl, authToken, net) == SessionResult(false, hostUrl, authToken)
  {
  }

  /** A failed token fetch after a successful host URL fetch fails `login`
      but keeps the fetched host URL: the session is left half set up. */
  lemma LoginKeepsHostOnTokenFailure(c: Credentials, hostUrl: string, authToken: string, net: Network)
    requires IsBlank(hostUrl) && IsBlank(authToken)
    requires Accepted(FetchedHostUrl(c, hostUrl, authToken, net))
    requires !Accepted(FetchedAuthToken(c, FetchedHostUrl(c, hostUrl, authToken, net).value, authToken, net))
    ensures var r := LoginOutcome(c, hostUrl, authToken, net);
            && !r.ok
            && r.hostUrl == FetchedHostUrl(c, hostUrl, authToken, net).value
            && !IsBlank(r.hostUrl) && IsBlank(r.authToken)
  {
  }

  /** Whether `release_auth_token` succeeds. */
  predicate Released(hostUrl: string, authToken: string, net: Network)
  {
    Exchange(ReleaseRequest(authToken), hostUrl, authToken, net).Delivered?
  }

  /** `logout`: when the token is released both values are cleared and the
      result is true; otherwise both are kept and the result is false.
      Never is one cleared without the other. */
  function LogoutOutcome(hostUrl: string, authToken: string, net: Network): (r: SessionResult)
    ensures r.ok <==> Released(hostUrl, authToken, net)
    ensures r.ok ==> IsBlank(r.hostUrl) && IsBlank(r.authToken)
    ensures !r.ok ==> r.hostUrl == hostUrl && r.authToken == authToken
  {
    if !Released(hostUrl, authToken, net) then SessionResult(false, hostUrl, authToken)
    else SessionResult(true, "", "")
  }
}
