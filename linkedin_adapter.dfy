/**
 * The LinkedIn OAuth2 adapter as an object: the credentials it is built with,
 * the two caches it updates in place (`$tokens`, `$user`) and its connection to
 * the provider. Every method's new state and answer are those of the matching
 * transition in LinkedinFlow, so the latch lemmas proved there apply to any
 * sequence of calls on one adapter.
 */
module LinkedinAdapter {
  import opened PhpValues
  import opened LinkedinRequests
  import opened LinkedinResponses
  import opened LinkedinFlow

  class Linkedin {
    const creds: Credentials
    /** Stands for the base class's `request()`: the provider's answer to each request. */
    const server: Server

    var tokens: Json
    var user: Json
    /** Every request issued so far, oldest first. */
    var log: seq<HttpRequest>

    function State(): Cache
      reads this
    {
      Cache(tokens, user, log)
    }

    /** `$user = []` and `$tokens = []` (Linkedin.php:12, 17); the rest comes from the base class. */
    constructor (appID: string, appSecret: string, callback: string, state: string, scopes: seq<string>, server: Server)
      ensures creds == Credentials(appID, appSecret, callback, state, scopes)
      ensures this.server == server
      ensures State() == Initial
    {
      creds := Credentials(appID, appSecret, callback, state, scopes);
      this.server := server;
      tokens := JArr([]);
      user := JArr([]);
      log := [];
    }

    /** `getLoginURL` (Linkedin.php:51-60): built from the credentials alone, no request. */
    function GetLoginURL(): (u: Url)
      ensures u == LoginURL(creds)
    {
      LoginURL(creds)
    }

    /** `isEmailVerififed` (Linkedin.php:156-159): LinkedIn never reports a verified address. */
    function IsEmailVerififed(): (verified: bool)
      ensures !verified
    {
      false
    }

    /** Sends one request and records it. */
    method Request(req: HttpRequest) returns (resp: Response)
      modifies this`log
      ensures log == old(log) + [req]
      ensures resp == server(log)
    {
      log := log + [req];
      resp := server(log);
    }

    /** `getTokens` (Linkedin.php:67-85). */
    method GetTokens(code: string) returns (r: Result<Json>)
      modifies this`tokens, this`log
      ensures (State(), r) == GetTokensSpec(creds, server, old(State()), code)
      ensures !Empty(old(tokens)) ==> tokens == old(tokens) && log == old(log) && r == ReturnArray(tokens)
      ensures user == old(user)
    {
      if Empty(tokens) {
        var resp := Request(TokenRequest(creds, code));
        if resp.Failed? {
          return Err(TransportFailure);
        }
        tokens := resp.decoded;
      }
      r := ReturnArray(tokens);
    }

    /** `refreshTokens` (Linkedin.php:92-112). */
    method RefreshTokens(refreshToken: string) returns (r: Result<Json>)
      modifies this`tokens, this`log
      ensures (State(), r) == RefreshTokensSpec(creds, server, old(State()), refreshToken)
      ensures log == old(log) + [RefreshRequest(creds, refreshToken)]
      ensures user == old(user)
    {
      var resp := Request(RefreshRequest(creds, refreshToken));
      if resp.Failed? {
        return Err(TransportFailure);
      }
      tokens := resp.decoded;
      if EmptyAt(Field(tokens, RefreshTokenKey)) {
        var written := AssignField(tokens, RefreshTokenKey, JStr(refreshToken));
        if written.Err? {
          return Err(written.failure);
        }
        tokens := written.value;
      }
      r := ReturnArray(tokens);
    }

    /** `getUser` (Linkedin.php:187-194). */
    method GetUser(accessToken: string) returns (r: Result<Json>)
      modifies this`user, this`log
      ensures (State(), r) == GetUserSpec(server, old(State()), accessToken)
      ensures !Empty(old(user)) ==> user == old(user) && log == old(log) && r == Ok(user)
      ensures tokens == old(tokens)
    {
      if Empty(user) {
        var resp := Request(ProfileRequest(accessToken));
        if resp.Failed? {
          return Err(TransportFailure);
        }
        user := resp.decoded;
      }
      r := Ok(user);
    }

    /** `getUserID` (Linkedin.php:119-128). */
    method GetUserID(accessToken: string) returns (r: Result<string>)
      modifies this`user, this`log
      ensures (State(), r) == GetUserIDSpec(server, old(State()), accessToken)
      ensures tokens == old(tokens)
    {
      var profile := GetUser(accessToken);
      if profile.Err? {
        return Err(profile.failure);
      }
      r := UserId(profile.value);
    }

    /** `getUserName` (Linkedin.php:166-180). */
    method GetUserName(accessToken: string) returns (r: Result<string>)
      modifies this`user, this`log
      ensures (State(), r) == GetUserNameSpec(server, old(State()), accessToken)
      ensures tokens == old(tokens)
    {
      var profile := GetUser(accessToken);
      if profile.Err? {
        return Err(profile.failure);
      }
      r := UserName(profile.value);
    }

    /** `getUserEmail` (Linkedin.php:135-149): always one request, and neither cache changes. */
    method GetUserEmail(accessToken: string) returns (r: Result<string>)
      modifies this`log
      ensures (State(), r) == GetUserEmailSpec(server, old(State()), accessToken)
      ensures tokens == old(tokens) && user == old(user)
      ensures log == old(log) + [EmailRequest(accessToken)]
    {
      var resp := Request(EmailRequest(accessToken));
      if resp.Failed? {
        return Err(TransportFailure);
      }
      r := EmailAddress(resp.decoded);
    }
  }

  /**
   * A client of one adapter: after a first `getTokens` that brings back a token
   * set, a second one with another code answers the same set and sends nothing.
   */
  method ExchangeTwice(a: Linkedin, code1: string, code2: string) returns (first: Result<Json>, second: Result<Json>)
    modifies a
    ensures Empty(old(a.tokens)) && first.Ok? && !Empty(first.value) ==>
      second == first && a.log == old(a.log) + [TokenRequest(a.creds, code1)]
    ensures !Empty(old(a.tokens)) ==> first == second == ReturnArray(old(a.tokens)) && a.log == old(a.log)
  {
    first := a.GetTokens(code1);
    second := a.GetTokens(code2);
  }
}
