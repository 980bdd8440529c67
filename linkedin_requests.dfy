/**
 * The requests the LinkedIn adapter builds: the authorization redirect
 * (section 4.1.1 of RFC 6749), the access token request (section 4.1.3),
 * the refresh request (section 6), and the two bearer-authenticated reads.
 * Parameter lists are kept as ordered key/value lists; percent-encoding,
 * `json_encode` of the state and `urlencode` of the bearer token are not modelled.
 */
module LinkedinRequests {
  import opened PhpValues
  import opened QueryParams

  const AuthorizationEndpoint := "https://www.linkedin.com/oauth/v2/authorization"
  const TokenEndpoint := "https://www.linkedin.com/oauth/v2/accessToken"
  const ApiBase := "https://api.linkedin.com/v2/"
  const ProfileEndpoint := ApiBase + "me"
  /** The email endpoint with the members projection of the handle's address. */
  const EmailEndpoint := ApiBase + "emailAddress" + "?q=members&projection=(elements*(handle~))"

  /** The adapter's `$scopes` default. */
  const DefaultScopes: seq<string> := ["r_liteprofile", "r_emailaddress"]

  /**
   * What the adapter gets from its base class: the client identifier and secret,
   * the redirect URI, the state already serialised as JSON text, and the scopes
   * that `getScopes()` returns.
   */
  datatype Credentials = Credentials(appID: string, appSecret: string, callback: string, state: string, scopes: seq<string>)

  datatype Verb = GET | POST

  datatype Header = FormContentType | Bearer(accessToken: string)

  datatype HttpRequest = HttpRequest(verb: Verb, url: string, headers: seq<Header>, body: seq<Param>)

  /** The redirect URL as endpoint and query list. */
  datatype Url = Url(endpoint: string, query: seq<Param>)

  /** `getLoginURL` (Linkedin.php:53-59). */
  function LoginURL(c: Credentials): (u: Url)
    ensures u.endpoint == AuthorizationEndpoint
    ensures Keys(u.query) == ["response_type", "client_id", "redirect_uri", "scope", "state"]
    ensures Lookup(u.query, "response_type") == Some("code")
    ensures Lookup(u.query, "client_id") == Some(c.appID)
    ensures Lookup(u.query, "redirect_uri") == Some(c.callback)
    ensures Lookup(u.query, "scope") == Some(Implode(" ", c.scopes))
    ensures Lookup(u.query, "state") == Some(c.state)
  {
    var query := [
      Param("response_type", "code"),
      Param("client_id", c.appID),
      Param("redirect_uri", c.callback),
      Param("scope", Implode(" ", c.scopes)),
      Param("state", c.state)
    ];
    LookupAll5(query);
    Url(AuthorizationEndpoint, query)
  }

  /** In a five-entry list with distinct keys every key finds its own value. */
  lemma LookupAll5(ps: seq<Param>)
    requires |ps| == 5
    requires forall i, j :: 0 <= i < j < 5 ==> ps[i].key != ps[j].key
    ensures forall i :: 0 <= i < 5 ==> Lookup(ps, ps[i].key) == Some(ps[i].value)
  {
    forall i | 0 <= i < 5 ensures Lookup(ps, ps[i].key) == Some(ps[i].value) {
      LookupFirstOccurrence(ps, i);
    }
  }

  /** With the default scopes the requested scope is "r_liteprofile r_emailaddress". */
  lemma DefaultScopeParameter(c: Credentials)
    requires c.scopes == DefaultScopes
    ensures Lookup(LoginURL(c).query, "scope") == Some("r_liteprofile r_emailaddress")
  {
    DefaultScopesJoined();
  }

  lemma DefaultScopesJoined()
    ensures Implode(" ", DefaultScopes) == "r_liteprofile r_emailaddress"
  {
    assert DefaultScopes[1..] == ["r_emailaddress"];
    assert Implode(" ", DefaultScopes[1..]) == "r_emailaddress";
  }

  /** The provider reads back exactly the scopes asked for, when no scope holds a space. */
  lemma LoginScopeRoundTrip(c: Credentials)
    requires |c.scopes| > 0
    requires forall i :: 0 <= i < |c.scopes| ==> ' ' !in c.scopes[i]
    ensures Lookup(LoginURL(c).query, "scope").Some?
    ensures Explode(' ', Lookup(LoginURL(c).query, "scope").value) == c.scopes
  {
    ExplodeImplode(' ', c.scopes);
  }

  /** The access token request body (Linkedin.php:74-80). */
  function TokenParams(c: Credentials, code: string): seq<Param> {
    [
      Param("grant_type", "authorization_code"),
      Param("code", code),
      Param("redirect_uri", c.callback),
      Param("client_id", c.appID),
      Param("client_secret", c.appSecret)
    ]
  }

  /** The access token request of section 4.1.3 of RFC 6749 carries exactly these five parameters, in this order. */
  lemma TokenParamsContent(c: Credentials, code: string)
    ensures Keys(TokenParams(c, code)) == ["grant_type", "code", "redirect_uri", "client_id", "client_secret"]
    ensures Lookup(TokenParams(c, code), "grant_type") == Some("authorization_code")
    ensures Lookup(TokenParams(c, code), "code") == Some(code)
    ensures Lookup(TokenParams(c, code), "redirect_uri") == Some(c.callback)
    ensures Lookup(TokenParams(c, code), "client_id") == Some(c.appID)
    ensures Lookup(TokenParams(c, code), "client_secret") == Some(c.appSecret)
  {
    LookupAll5(TokenParams(c, code));
  }

  /** The refresh request body (Linkedin.php:98-104). */
  function RefreshParams(c: Credentials, refreshToken: string): seq<Param> {
    [
      Param("grant_type", "refresh_token"),
      Param("refresh_token", refreshToken),
      Param("redirect_uri", c.callback),
      Param("client_id", c.appID),
      Param("client_secret", c.appSecret)
    ]
  }

  /** The refresh request of section 6 of RFC 6749 carries exactly these five parameters, in this order. */
  lemma RefreshParamsContent(c: Credentials, refreshToken: string)
    ensures Keys(RefreshParams(c, refreshToken)) == ["grant_type", "refresh_token", "redirect_uri", "client_id", "client_secret"]
    ensures Lookup(RefreshParams(c, refreshToken), "grant_type") == Some("refresh_token")
    ensures Lookup(RefreshParams(c, refreshToken), "refresh_token") == Some(refreshToken)
    ensures Lookup(RefreshParams(c, refreshToken), "redirect_uri") == Some(c.callback)
    ensures Lookup(RefreshParams(c, refreshToken), "client_id") == Some(c.appID)
    ensures Lookup(RefreshParams(c, refreshToken), "client_secret") == Some(c.appSecret)
  {
    LookupAll5(RefreshParams(c, refreshToken));
  }

  function TokenRequest(c: Credentials, code: string): HttpRequest {
    HttpRequest(POST, TokenEndpoint, [FormContentType], TokenParams(c, code))
  }

  function RefreshRequest(c: Credentials, refreshToken: string): HttpRequest {
    HttpRequest(POST, TokenEndpoint, [FormContentType], RefreshParams(c, refreshToken))
  }

  function ProfileRequest(accessToken: string): HttpRequest {
    HttpRequest(GET, ProfileEndpoint, [Bearer(accessToken)], [])
  }

  function EmailRequest(accessToken: string): HttpRequest {
    HttpRequest(GET, EmailEndpoint, [Bearer(accessToken)], [])
  }
}
