/**
 * The LinkedIn adapter's operations as transitions of its state: the cached
 * token set (`$tokens`), the cached profile (`$user`) and the requests issued
 * so far. The HTTP request is an oracle, `server`, which answers each request
 * and may depend on everything that was sent before it.
 *
 * The two caches are one-way latches: once a cache holds a value that is not
 * empty in PHP's sense, `getTokens` and `getUser` return it without a request.
 * Only `refreshTokens` writes `$tokens` whatever it holds.
 */
module LinkedinFlow {
  import opened PhpValues
  import opened LinkedinRequests
  import opened LinkedinResponses

  /**
   * What `request()` gives back, after `json_decode($body, true)`: a transport
   * failure, or the decoded body (a body that is not JSON decodes to null).
   */
  datatype Response = Failed | Reply(decoded: Json)

  type Server = seq<HttpRequest> -> Response

  datatype Cache = Cache(tokens: Json, user: Json, log: seq<HttpRequest>)

  /** A fresh adapter: `$tokens = []`, `$user = []`, nothing sent. */
  const Initial := Cache(JArr([]), JArr([]), [])

  /** `getTokens($code)` (Linkedin.php:69-84). */
  function GetTokensSpec(c: Credentials, server: Server, s: Cache, code: string): (r: (Cache, Result<Json>))
    ensures r.0.user == s.user
    // a token set that is not empty is returned as it is, for any code, without a request
    ensures !Empty(s.tokens) ==> r.0 == s && r.1 == ReturnArray(s.tokens)
    // otherwise exactly one code exchange is sent
    ensures Empty(s.tokens) ==> r.0.log == s.log + [TokenRequest(c, code)]
    ensures Empty(s.tokens) && server(r.0.log).Reply? ==>
      r.0.tokens == server(r.0.log).decoded && r.1 == ReturnArray(server(r.0.log).decoded)
    // a transport failure leaves the cache as it was
    ensures Empty(s.tokens) && server(r.0.log).Failed? ==> r.0.tokens == s.tokens && r.1 == Err(TransportFailure)
    ensures r.1.Ok? ==> r.1.value == r.0.tokens
  {
    if Empty(s.tokens) then
      var log := s.log + [TokenRequest(c, code)];
      match server(log)
      case Failed => (s.(log := log), Err(TransportFailure))
      case Reply(j) => (s.(tokens := j, log := log), ReturnArray(j))
    else (s, ReturnArray(s.tokens))
  }

  /** `refreshTokens($refreshToken)` (Linkedin.php:94-111). */
  function RefreshTokensSpec(c: Credentials, server: Server, s: Cache, refreshToken: string): (r: (Cache, Result<Json>))
    ensures r.0.user == s.user
    // always exactly one request, whatever is cached
    ensures r.0.log == s.log + [RefreshRequest(c, refreshToken)]
    // the answer is the reply with the refresh-token fallback applied, and it is what is cached
    ensures server(r.0.log).Reply? ==> r.1 == RefreshFallback(server(r.0.log).decoded, refreshToken)
    ensures r.1.Ok? ==> r.0.tokens == r.1.value && !Empty(r.0.tokens)
    ensures server(r.0.log).Failed? ==> r.0.tokens == s.tokens && r.1 == Err(TransportFailure)
    // a reply whose fallback write throws is still cached as decoded
    ensures server(r.0.log).Reply? && r.1.Err? ==> r.0.tokens == server(r.0.log).decoded
  {
    var log := s.log + [RefreshRequest(c, refreshToken)];
    match server(log)
    case Failed => (s.(log := log), Err(TransportFailure))
    case Reply(j) =>
      var fallback := RefreshFallback(j, refreshToken);
      if fallback.Ok? then
        RefreshedTokensNotEmpty(j, refreshToken);
        (s.(tokens := fallback.value, log := log), ReturnArray(fallback.value))
      else
        // the decoded reply is stored before the offset write throws
        (s.(tokens := j, log := log), Err(fallback.failure))
  }

  /** `getUser($accessToken)` (Linkedin.php:189-193). */
  function GetUserSpec(server: Server, s: Cache, accessToken: string): (r: (Cache, Result<Json>))
    ensures r.0.tokens == s.tokens
    // a profile that is not empty is returned as it is, for any access token, without a request
    ensures !Empty(s.user) ==> r.0 == s && r.1 == Ok(s.user)
    ensures Empty(s.user) ==> r.0.log == s.log + [ProfileRequest(accessToken)]
    ensures Empty(s.user) && server(r.0.log).Reply? ==>
      r.0.user == server(r.0.log).decoded && r.1 == Ok(server(r.0.log).decoded)
    // a transport failure leaves the cache as it was
    ensures Empty(s.user) && server(r.0.log).Failed? ==> r.0.user == s.user && r.1 == Err(TransportFailure)
    ensures r.1.Ok? ==> r.1.value == r.0.user
  {
    if Empty(s.user) then
      var log := s.log + [ProfileRequest(accessToken)];
      match server(log)
      case Failed => (s.(log := log), Err(TransportFailure))
      case Reply(j) => (s.(user := j, log := log), Ok(j))
    else (s, Ok(s.user))
  }

  /** `getUserID($accessToken)` (Linkedin.php:121-127). */
  function GetUserIDSpec(server: Server, s: Cache, accessToken: string): (r: (Cache, Result<string>))
    ensures r.0 == GetUserSpec(server, s, accessToken).0
    ensures GetUserSpec(server, s, accessToken).1.Ok? ==> r.1 == UserId(r.0.user)
    ensures GetUserSpec(server, s, accessToken).1.Err? ==> r.1 == Err(TransportFailure)
  {
    var (s', user) := GetUserSpec(server, s, accessToken);
    if user.Ok? then (s', UserId(user.value)) else (s', Err(user.failure))
  }

  /** `getUserName($accessToken)` (Linkedin.php:168-179). */
  function GetUserNameSpec(server: Server, s: Cache, accessToken: string): (r: (Cache, Result<string>))
    ensures r.0 == GetUserSpec(server, s, accessToken).0
    ensures GetUserSpec(server, s, accessToken).1.Ok? ==> r.1 == UserName(r.0.user)
    ensures GetUserSpec(server, s, accessToken).1.Err? ==> r.1 == Err(TransportFailure)
  {
    var (s', user) := GetUserSpec(server, s, accessToken);
    if user.Ok? then (s', UserName(user.value)) else (s', Err(user.failure))
  }

  /** `getUserEmail($accessToken)` (Linkedin.php:137-148). */
  function GetUserEmailSpec(server: Server, s: Cache, accessToken: string): (r: (Cache, Result<string>))
    // always exactly one request; neither cache is touched
    ensures r.0 == s.(log := s.log + [EmailRequest(accessToken)])
    ensures server(r.0.log).Reply? ==> r.1 == EmailAddress(server(r.0.log).decoded)
    ensures server(r.0.log).Failed? ==> r.1 == Err(TransportFailure)
  {
    var log := s.log + [EmailRequest(accessToken)];
    match server(log)
    case Failed => (s.(log := log), Err(TransportFailure))
    case Reply(j) => (s.(log := log), EmailAddress(j))
  }

  /** A call a client makes on one adapter. */
  datatype Call =
    | GetTokens(code: string)
    | RefreshTokens(refreshToken: string)
    | GetUser(accessToken: string)
    | GetUserID(accessToken: string)
    | GetUserName(accessToken: string)
    | GetUserEmail(accessToken: string)
  {
    predicate ReadsProfile() {
      GetUser? || GetUserID? || GetUserName?
    }
  }

  datatype Answer = TokenSet(tokens: Result<Json>) | Profile(profile: Result<Json>) | Text(text: Result<string>)

  /** The one request a call may issue. */
  function RequestOf(c: Credentials, call: Call): HttpRequest {
    match call
    case GetTokens(code) => TokenRequest(c, code)
    case RefreshTokens(rt) => RefreshRequest(c, rt)
    case GetUser(at) => ProfileRequest(at)
    case GetUserID(at) => ProfileRequest(at)
    case GetUserName(at) => ProfileRequest(at)
    case GetUserEmail(at) => EmailRequest(at)
  }

  /** Which endpoint each call's request goes to. */
  lemma RequestEndpoint(c: Credentials, call: Call)
    ensures call.GetTokens? || call.RefreshTokens? ==> RequestOf(c, call).url == TokenEndpoint
    ensures call.ReadsProfile() ==> RequestOf(c, call).url == ProfileEndpoint
    ensures call.GetUserEmail? ==> RequestOf(c, call).url == EmailEndpoint
  {
    match call
    case GetTokens(code) => assert RequestOf(c, call) == TokenRequest(c, code);
    case RefreshTokens(rt) => assert RequestOf(c, call) == RefreshRequest(c, rt);
    case GetUser(at) =>
    case GetUserID(at) =>
    case GetUserName(at) =>
    case GetUserEmail(at) =>
  }

  /** The token, profile and email endpoints are three different URLs. */
  lemma EndpointsDistinct()
    ensures TokenEndpoint != ProfileEndpoint && TokenEndpoint != EmailEndpoint && ProfileEndpoint != EmailEndpoint
  {
    assert TokenEndpoint[8] == 'w' && ApiBase[8] == 'a';
    assert ProfileEndpoint[8] == ApiBase[8];
    assert EmailEndpoint[8] == (ApiBase + "emailAddress")[8] == ApiBase[8];
    assert ProfileEndpoint[|ApiBase|] == 'm';
    assert EmailEndpoint[|ApiBase|] == (ApiBase + "emailAddress")[|ApiBase|] == 'e';
  }

  lemma AppendedRequest(log: seq<HttpRequest>, req: HttpRequest)
    ensures (log + [req])[..|log|] == log && log[..|log|] == log
    ensures forall k :: |log| <= k < |log + [req]| ==> (log + [req])[k] == req
  {
  }

  function Step(c: Credentials, server: Server, s: Cache, call: Call): (r: (Cache, Answer))
    // the log only grows, and only by the call's own request
    ensures r.0.log == s.log || r.0.log == s.log + [RequestOf(c, call)]
    // how many requests each call issues
    ensures call.RefreshTokens? || call.GetUserEmail? ==> r.0.log == s.log + [RequestOf(c, call)]
    ensures call.GetTokens? ==> (r.0.log == s.log <==> !Empty(s.tokens))
    ensures call.ReadsProfile() ==> (r.0.log == s.log <==> !Empty(s.user))
  {
    match call
    case GetTokens(code) => var (s', t) := GetTokensSpec(c, server, s, code); (s', TokenSet(t))
    case RefreshTokens(rt) => var (s', t) := RefreshTokensSpec(c, server, s, rt); (s', TokenSet(t))
    case GetUser(at) => var (s', u) := GetUserSpec(server, s, at); (s', Profile(u))
    case GetUserID(at) => var (s', t) := GetUserIDSpec(server, s, at); (s', Text(t))
    case GetUserName(at) => var (s', t) := GetUserNameSpec(server, s, at); (s', Text(t))
    case GetUserEmail(at) => var (s', t) := GetUserEmailSpec(server, s, at); (s', Text(t))
  }

  /** What each call does to the two caches, and what a closed latch answers. */
  lemma StepCaches(c: Credentials, server: Server, s: Cache, call: Call)
    // which cache a call can change
    ensures !call.RefreshTokens? && (!call.GetTokens? || !Empty(s.tokens)) ==> Step(c, server, s, call).0.tokens == s.tokens
    ensures !call.ReadsProfile() || !Empty(s.user) ==> Step(c, server, s, call).0.user == s.user
    // what a closed latch answers
    ensures call.GetTokens? && !Empty(s.tokens) ==> Step(c, server, s, call).1 == TokenSet(ReturnArray(s.tokens))
    ensures call.GetUser? && !Empty(s.user) ==> Step(c, server, s, call).1 == Profile(Ok(s.user))
    ensures call.GetUserID? && !Empty(s.user) ==> Step(c, server, s, call).1 == Text(UserId(s.user))
    ensures call.GetUserName? && !Empty(s.user) ==> Step(c, server, s, call).1 == Text(UserName(s.user))
  {
    match call
    case GetTokens(_) =>
    case RefreshTokens(_) =>
    case GetUser(_) =>
    case GetUserID(_) =>
    case GetUserName(_) =>
    case GetUserEmail(_) =>
  }

  /** A sequence of calls on one adapter, with the answer to each. */
  function Run(c: Credentials, server: Server, s: Cache, calls: seq<Call>): (r: (Cache, seq<Answer>))
    ensures |r.1| == |calls|
    ensures |s.log| <= |r.0.log| && r.0.log[..|s.log|] == s.log
    decreases |calls|
  {
    if calls == [] then (s, [])
    else
      var (s1, a) := Step(c, server, s, calls[0]);
      var (s2, rest) := Run(c, server, s1, calls[1..]);
      (s2, [a] + rest)
  }

  lemma RunUnfold(c: Credentials, server: Server, s: Cache, calls: seq<Call>)
    requires calls != []
    ensures Run(c, server, s, calls).0 == Run(c, server, Step(c, server, s, calls[0]).0, calls[1..]).0
    ensures Run(c, server, s, calls).1 == [Step(c, server, s, calls[0]).1] + Run(c, server, Step(c, server, s, calls[0]).0, calls[1..]).1
  {
  }

  /**
   * The token latch: once the cached token set is not empty, and as long as no
   * refresh happens, it stays as it is, every `getTokens` answers it whatever
   * the code, and no request goes to the token endpoint.
   */
  lemma {:induction false} TokensLatch(c: Credentials, server: Server, s: Cache, calls: seq<Call>)
    requires !Empty(s.tokens)
    requires forall i :: 0 <= i < |calls| ==> !calls[i].RefreshTokens?
    ensures Run(c, server, s, calls).0.tokens == s.tokens
    ensures forall i :: 0 <= i < |calls| && calls[i].GetTokens? ==> Run(c, server, s, calls).1[i] == TokenSet(ReturnArray(s.tokens))
    decreases |calls|
  {
    if calls != [] {
      var s1 := Step(c, server, s, calls[0]).0;
      var rest := calls[1..];
      StepCaches(c, server, s, calls[0]);
      TokensLatch(c, server, s1, rest);
      RunUnfold(c, server, s, calls);
      var r := Run(c, server, s, calls);
      forall i | 0 <= i < |calls| && calls[i].GetTokens? ensures r.1[i] == TokenSet(ReturnArray(s.tokens)) {
        if i > 0 {
          assert rest[i - 1] == calls[i];
        }
      }
    }
  }

  /** While the latch of TokensLatch is closed no request goes to `TokenEndpoint`. */
  lemma {:induction false} TokensSilent(c: Credentials, server: Server, s: Cache, calls: seq<Call>)
    requires !Empty(s.tokens)
    requires forall i :: 0 <= i < |calls| ==> !calls[i].RefreshTokens?
    ensures forall k :: |s.log| <= k < |Run(c, server, s, calls).0.log| ==> Run(c, server, s, calls).0.log[k].url != TokenEndpoint
    decreases |calls|
  {
    if calls != [] {
      var s1 := Step(c, server, s, calls[0]).0;
      StepCaches(c, server, s, calls[0]);
      TokensSilent(c, server, s1, calls[1..]);
      RunUnfold(c, server, s, calls);
      var log := Run(c, server, s, calls).0.log;
      AppendedRequest(s.log, RequestOf(c, calls[0]));
      RequestEndpoint(c, calls[0]);
      EndpointsDistinct();
      forall k | |s.log| <= k < |log| ensures log[k].url != TokenEndpoint {
        if k < |s1.log| {
          assert s1.log == s.log + [RequestOf(c, calls[0])] && k == |s.log|;
          assert log[..|s1.log|] == s1.log;
          assert log[k] == log[..|s1.log|][k] == s1.log[k];
        }
      }
    }
  }

  /**
   * The profile latch: once the cached profile is not empty it stays, every
   * profile read answers from it whatever the access token, and no request goes
   * to the profile endpoint.
   */
  lemma {:induction false} UserLatch(c: Credentials, server: Server, s: Cache, calls: seq<Call>)
    requires !Empty(s.user)
    ensures Run(c, server, s, calls).0.user == s.user
    ensures forall i :: 0 <= i < |calls| && calls[i].GetUser? ==> Run(c, server, s, calls).1[i] == Profile(Ok(s.user))
    ensures forall i :: 0 <= i < |calls| && calls[i].GetUserID? ==> Run(c, server, s, calls).1[i] == Text(UserId(s.user))
    ensures forall i :: 0 <= i < |calls| && calls[i].GetUserName? ==> Run(c, server, s, calls).1[i] == Text(UserName(s.user))
    decreases |calls|
  {
    if calls != [] {
      var s1 := Step(c, server, s, calls[0]).0;
      var rest := calls[1..];
      StepCaches(c, server, s, calls[0]);
      UserLatch(c, server, s1, rest);
      RunUnfold(c, server, s, calls);
      var r := Run(c, server, s, calls);
      forall i | 0 <= i < |calls| && calls[i].ReadsProfile()
        ensures calls[i].GetUser? ==> r.1[i] == Profile(Ok(s.user))
        ensures calls[i].GetUserID? ==> r.1[i] == Text(UserId(s.user))
        ensures calls[i].GetUserName? ==> r.1[i] == Text(UserName(s.user))
      {
        if i > 0 {
          assert rest[i - 1] == calls[i];
        }
      }
    }
  }

  /** While the latch of UserLatch is closed no request goes to `ProfileEndpoint`. */
  lemma {:induction false} UserSilent(c: Credentials, server: Server, s: Cache, calls: seq<Call>)
    requires !Empty(s.user)
    ensures forall k :: |s.log| <= k < |Run(c, server, s, calls).0.log| ==> Run(c, server, s, calls).0.log[k].url != ProfileEndpoint
    decreases |calls|
  {
    if calls != [] {
      var s1 := Step(c, server, s, calls[0]).0;
      StepCaches(c, server, s, calls[0]);
      UserSilent(c, server, s1, calls[1..]);
      RunUnfold(c, server, s, calls);
      var log := Run(c, server, s, calls).0.log;
      AppendedRequest(s.log, RequestOf(c, calls[0]));
      RequestEndpoint(c, calls[0]);
      EndpointsDistinct();
      forall k | |s.log| <= k < |log| ensures log[k].url != ProfileEndpoint {
        if k < |s1.log| {
          assert s1.log == s.log + [RequestOf(c, calls[0])] && k == |s.log|;
          assert log[..|s1.log|] == s1.log;
          assert log[k] == log[..|s1.log|][k] == s1.log[k];
        }
      }
    }
  }

  /**
   * The first profile fetched is the one every later `getUserID` and
   * `getUserName` sees, even when they pass another access token.
   */
  lemma FirstProfileWins(c: Credentials, server: Server, s: Cache, accessToken: string, calls: seq<Call>)
    requires Empty(s.user)
    requires server(s.log + [ProfileRequest(accessToken)]).Reply?
    requires !Empty(server(s.log + [ProfileRequest(accessToken)]).decoded)
    ensures Run(c, server, s, [GetUser(accessToken)] + calls).0.user == server(s.log + [ProfileRequest(accessToken)]).decoded
    ensures forall i :: 0 <= i < |calls| && calls[i].GetUserID? ==>
      Run(c, server, s, [GetUser(accessToken)] + calls).1[i + 1] == Text(UserId(server(s.log + [ProfileRequest(accessToken)]).decoded))
    ensures forall i :: 0 <= i < |calls| && calls[i].GetUserName? ==>
      Run(c, server, s, [GetUser(accessToken)] + calls).1[i + 1] == Text(UserName(server(s.log + [ProfileRequest(accessToken)]).decoded))
  {
    var all := [GetUser(accessToken)] + calls;
    assert all[1..] == calls;
    RunUnfold(c, server, s, all);
    UserLatch(c, server, Step(c, server, s, all[0]).0, calls);
  }

  /**
   * A reply that decodes to something empty (null, `[]`, "", 0, ...) does not close
   * the latch: the next `getTokens` sends the code exchange again.
   */
  lemma EmptyReplyKeepsTokensOpen(c: Credentials, server: Server, s: Cache, code1: string, code2: string)
    requires Empty(s.tokens)
    requires server(s.log + [TokenRequest(c, code1)]).Reply?
    requires Empty(server(s.log + [TokenRequest(c, code1)]).decoded)
    ensures Run(c, server, s, [GetTokens(code1), GetTokens(code2)]).0.log
      == s.log + [TokenRequest(c, code1), TokenRequest(c, code2)]
  {
    var calls := [GetTokens(code1), GetTokens(code2)];
    RunUnfold(c, server, s, calls);
    var s1 := Step(c, server, s, calls[0]).0;
    assert s1.log == s.log + [TokenRequest(c, code1)] && Empty(s1.tokens);
    assert calls[1..] == [GetTokens(code2)];
    RunUnfold(c, server, s1, calls[1..]);
    assert calls[1..][1..] == [];
  }

  /**
   * A successful refresh closes the token latch on its own result: later
   * `getTokens` calls, with any code, answer the refreshed set without a request.
   */
  lemma RefreshClosesTokenLatch(c: Credentials, server: Server, s: Cache, refreshToken: string, calls: seq<Call>)
    requires server(s.log + [RefreshRequest(c, refreshToken)]).Reply?
    requires RefreshFallback(server(s.log + [RefreshRequest(c, refreshToken)]).decoded, refreshToken).Ok?
    requires forall i :: 0 <= i < |calls| ==> !calls[i].RefreshTokens?
    ensures Run(c, server, s, [RefreshTokens(refreshToken)] + calls).1[0]
      == TokenSet(RefreshFallback(server(s.log + [RefreshRequest(c, refreshToken)]).decoded, refreshToken))
    ensures forall i :: 0 <= i < |calls| && calls[i].GetTokens? ==>
      Run(c, server, s, [RefreshTokens(refreshToken)] + calls).1[i + 1]
        == TokenSet(RefreshFallback(server(s.log + [RefreshRequest(c, refreshToken)]).decoded, refreshToken))
  {
    var all := [RefreshTokens(refreshToken)] + calls;
    assert all[1..] == calls;
    RunUnfold(c, server, s, all);
    var s1 := Step(c, server, s, all[0]).0;
    StepCaches(c, server, s, all[0]);
    TokensLatch(c, server, s1, calls);
  }

  /**
   * `refreshTokens` never fails on its `: array` return type: the fallback always
   * yields an array, and a null reply becomes an array holding only the caller's token.
   */
  lemma RefreshNeverReturnTypeError(c: Credentials, server: Server, s: Cache, refreshToken: string)
    ensures RefreshTokensSpec(c, server, s, refreshToken).1 != Err(ReturnTypeError)
    ensures server(s.log + [RefreshRequest(c, refreshToken)]) == Reply(JNull) ==>
      RefreshTokensSpec(c, server, s, refreshToken).1 == Ok(JObj(map[RefreshTokenKey := JStr(refreshToken)]))
  {
    var log := s.log + [RefreshRequest(c, refreshToken)];
    if server(log).Reply? {
      var fallback := RefreshFallback(server(log).decoded, refreshToken);
      assert fallback.Err? ==> fallback.failure == ScalarOffsetError;
    }
  }
}
