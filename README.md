# LinkedIn OAuth2 adapter, modelled in Dafny

This project models the LinkedIn provider adapter of Appwrite's OAuth2 layer
(`src/Appwrite/Auth/OAuth2/Linkedin.php`). The adapter implements the OAuth 2.0
authorization code grant for LinkedIn:

- it builds the authorization redirect (section 4.1.1 of RFC 6749);
- it exchanges a code for tokens (section 4.1.3) and refreshes them (section 6);
- it reads the user's identifier, display name and email address from LinkedIn's
  `/v2/me` and `/v2/emailAddress` endpoints.

The model has six modules:

- `PhpValues` (`php_values.dfy`): what `json_decode($body, true)` returns, as a
  `Json` datatype. It also holds the PHP rules the adapter depends on: `empty`,
  `isset`, string conversion, the coercion a `: string` or `: array` return type
  applies, and writing a key into a value that may not be an array.
- `QueryParams` (`query_params.dfy`): request parameters as ordered key/value
  lists, `implode`, and the space-delimited split a receiver of `scope` applies.
- `LinkedinRequests` (`linkedin_requests.dfy`): the endpoints, the default
  scopes, the login URL and the two token-endpoint bodies.
- `LinkedinResponses` (`linkedin_responses.dfy`): the pure processing of
  decoded replies. This covers the user id, the display name, the four-level
  email lookup and the refresh-token fallback.
- `LinkedinFlow` (`linkedin_flow.dfy`): each stateful operation as a transition
  of the adapter's state. The state is the cached tokens, the cached profile and
  the log of requests sent. `Run` strings calls together, and the latch lemmas
  are proved over any sequence of calls.
- `LinkedinAdapter` (`linkedin_adapter.dfy`): the class `Linkedin`. It has the
  `tokens` and `user` fields, which its methods update in place. Each method is
  proved to produce exactly the state and answer of its transition in
  `LinkedinFlow`.

The HTTP request is an oracle, the constant `server`. It maps the log of requests
sent (the new request included) to a `Response`, which is either `Failed` or the
decoded body. "No request issued" therefore means "the log is unchanged".

Where PHP's rules give results a reader might not expect, the model follows PHP:

- **Latch closing.** The caches close only on a value that is not empty in PHP's
  sense. A token or profile reply that decodes to `null`, `[]`, `""`, `"0"`, `0`
  or `false` leaves the latch open, and the next call sends the request again
  (`EmptyReplyKeepsTokensOpen`).
- **Return-type errors.** `getUserID` can fail: an `id` that is an array does not
  fit the declared `string` return type, and this is a TypeError. Likewise,
  `getTokens` throws on a reply that is not an array, because of its `: array`
  return type, and it stores such a reply before it throws. `refreshTokens` never
  fails on its return type (`RefreshNeverReturnTypeError`): a null or `false`
  reply becomes an array holding only the caller's refresh token.
- **Name composition.** `getUserName` tests the first name with `empty`, so a
  first name of `"0"` is dropped when a last name is set. A first name of `"0"`
  with no last name is returned as `"0"`.
- **Refresh fallback on scalar replies.** The fallback writes
  `$tokens['refresh_token']`. On a reply that decodes to a string, an integer or
  `true`, this write throws (PHP 8). The decoded reply has already been stored
  in `$tokens` at that point.
- **Reading and returning values.** `Field` and `Index` read `$v['key']` and
  `$v[0]`. `ReturnString` and `ReturnArray` apply the coercion of a `: string` or
  `: array` return type. These four are the PHP rules the model assumes; their
  definitions are the rules themselves. What is proved about them is how reads
  relate to `AssignField`, the one write the adapter makes.
- **Integer ids.** `id` and the name fields take PHP's string conversion, so an
  integer id `7` is returned as `"7"`.

## Model

| member | source | states |
|---|---|---|
| `PhpValues.AssignField` | src/Appwrite/Auth/OAuth2/Linkedin.php:108 | writing a key fails exactly on strings, integers and `true`; otherwise the result is a keyed array with the key set to the value, and every other key of a keyed array kept unchanged |
| `PhpValues.FieldAfterAssign` | src/Appwrite/Auth/OAuth2/Linkedin.php:108 | after a write succeeds, reading the key gives the value written, and any other key of a keyed array reads as before |
| `PhpValues.IndexAfterAssign` | src/Appwrite/Auth/OAuth2/Linkedin.php:108 | writing a non-numeric key into a list or keyed array leaves every integer offset reading as before |
| `PhpValues.ListAsFieldsContent` | src/Appwrite/Auth/OAuth2/Linkedin.php:108 | a list seen as a keyed array keeps element `i` under key `Decimal(i)` and has no other keys |
| `PhpValues.DecimalInjective` | src/Appwrite/Auth/OAuth2/Linkedin.php:108 | distinct offsets have distinct decimal keys, so no list element is overwritten |
| `QueryParams.ExplodeImplode` | src/Appwrite/Auth/OAuth2/Linkedin.php:57 | splitting the space-join of scopes that hold no space gives back exactly those scopes, in order |
| `QueryParams.LookupFirstOccurrence` | src/Appwrite/Auth/OAuth2/Linkedin.php:53-59 | a key with no earlier duplicate is read back as its own value |
| `LinkedinRequests.LoginURL` | src/Appwrite/Auth/OAuth2/Linkedin.php:53-59 | the redirect goes to the authorization endpoint; its parameters are exactly `response_type`, `client_id`, `redirect_uri`, `scope`, `state` in that order; `response_type` is `code`; `scope` is the space-join of the scopes; the others carry the credentials |
| `LinkedinRequests.DefaultScopesJoined` | src/Appwrite/Auth/OAuth2/Linkedin.php:22-25 | the default scopes join to `"r_liteprofile r_emailaddress"` |
| `LinkedinRequests.DefaultScopeParameter` | src/Appwrite/Auth/OAuth2/Linkedin.php:57 | with the default scopes the login URL's `scope` is `"r_liteprofile r_emailaddress"` |
| `LinkedinRequests.LoginScopeRoundTrip` | src/Appwrite/Auth/OAuth2/Linkedin.php:57 | the provider splitting `scope` on spaces recovers the configured scopes when none contains a space |
| `LinkedinRequests.TokenParamsContent` | src/Appwrite/Auth/OAuth2/Linkedin.php:74-80 | the code exchange body is exactly `grant_type=authorization_code`, `code`, `redirect_uri`, `client_id`, `client_secret`, in order, each with its value |
| `LinkedinRequests.RefreshParamsContent` | src/Appwrite/Auth/OAuth2/Linkedin.php:98-104 | the refresh body is exactly `grant_type=refresh_token`, `refresh_token`, `redirect_uri`, `client_id`, `client_secret`, in order, each with its value |
| `LinkedinResponses.UserId` | src/Appwrite/Auth/OAuth2/Linkedin.php:123-127 | `""` when `id` is missing or null or the profile is not a keyed array; the string `id` itself; an integer `id` as its decimal text; fails only when `id` is an array |
| `LinkedinResponses.UserName` | src/Appwrite/Auth/OAuth2/Linkedin.php:169-179 | both names set and the first not empty: first, a space, last; only the first set: the first; first missing or empty and last set: the last alone; neither set: `""` |
| `LinkedinResponses.Navigate` | src/Appwrite/Auth/OAuth2/Linkedin.php:139-143 | a navigation that succeeds over a non-empty path never ends on null |
| `LinkedinResponses.EmailAddress` | src/Appwrite/Auth/OAuth2/Linkedin.php:139-148 | the result is `""` when the path `elements`, `0`, `handle~`, `emailAddress` breaks at any level, and otherwise the value found there, as a `: string` return |
| `LinkedinResponses.EmailAddressOfWellFormedReply` | src/Appwrite/Auth/OAuth2/Linkedin.php:139-145 | the reply shape LinkedIn documents yields its address |
| `LinkedinResponses.EmailAddressOfBrokenPath` | src/Appwrite/Auth/OAuth2/Linkedin.php:139-148 | a reply whose path is missing or null at any one level yields `""` and no failure |
| `LinkedinResponses.NavigateStops` | src/Appwrite/Auth/OAuth2/Linkedin.php:139-143 | a path that breaks at some level navigates to nothing |
| `LinkedinResponses.RefreshFallback` | src/Appwrite/Auth/OAuth2/Linkedin.php:107-109 | a non-empty `refresh_token` leaves the reply unchanged; a missing or empty one is replaced by the caller's token; an object reply keeps every other key and value; the write fails only on string, integer or `true` replies |
| `LinkedinResponses.RefreshFallbackKeepsOffsets` | src/Appwrite/Auth/OAuth2/Linkedin.php:107-108 | on an array reply the fallback keeps every integer offset, so a list's elements are kept |
| `LinkedinResponses.RefreshFallbackIdempotent` | src/Appwrite/Auth/OAuth2/Linkedin.php:107-109 | applying the fallback to its own result changes nothing |
| `LinkedinResponses.RefreshedTokensNotEmpty` | src/Appwrite/Auth/OAuth2/Linkedin.php:107-108 | a successfully refreshed token set is never empty |
| `LinkedinFlow.GetTokensSpec` | src/Appwrite/Auth/OAuth2/Linkedin.php:69-84 | a non-empty cached token set is returned without a request, for any code; otherwise exactly one code exchange is sent, and its decoded reply is cached and answered as an `: array` return; on a transport failure the tokens stay as they were and the answer is the transport error; the profile is untouched |
| `LinkedinFlow.RefreshTokensSpec` | src/Appwrite/Auth/OAuth2/Linkedin.php:94-111 | exactly one refresh request whatever is cached; the answer is the reply with the fallback applied, and on success it is what is cached; when the fallback write throws, the decoded reply stays cached; on transport failure the tokens are unchanged |
| `LinkedinFlow.GetUserSpec` | src/Appwrite/Auth/OAuth2/Linkedin.php:189-193 | a non-empty cached profile is returned without a request, for any access token; otherwise one profile request is sent, and its decoded reply is cached and answered; on a transport failure the profile stays as it was and the answer is the transport error; tokens untouched |
| `LinkedinFlow.GetUserIDSpec` | src/Appwrite/Auth/OAuth2/Linkedin.php:121-127 | the state of `getUser`, and `UserId` of the profile it returns |
| `LinkedinFlow.GetUserNameSpec` | src/Appwrite/Auth/OAuth2/Linkedin.php:168-179 | the state of `getUser`, and `UserName` of the profile it returns |
| `LinkedinFlow.GetUserEmailSpec` | src/Appwrite/Auth/OAuth2/Linkedin.php:137-148 | exactly one email request; neither cache changes; the answer is `EmailAddress` of the reply |
| `LinkedinFlow.Step` | src/Appwrite/Auth/OAuth2/Linkedin.php:67-194 | each call adds at most its own request to the log; refresh and email always send one; `getTokens` sends one exactly when the tokens are empty; profile reads send one exactly when the profile is empty |
| `LinkedinFlow.StepCaches` | src/Appwrite/Auth/OAuth2/Linkedin.php:69-111 | only `refreshTokens`, or `getTokens` on empty tokens, changes the tokens; only a profile read on an empty profile changes it; a closed latch answers its cached value |
| `LinkedinFlow.Run` | src/Appwrite/Auth/OAuth2/Linkedin.php:67-194 | one answer per call; the log only grows |
| `LinkedinFlow.TokensLatch` | src/Appwrite/Auth/OAuth2/Linkedin.php:69-84 | once the tokens are non-empty, and with no refresh, they stay, and every later `getTokens` answers them whatever the code |
| `LinkedinFlow.TokensSilent` | src/Appwrite/Auth/OAuth2/Linkedin.php:69-84 | under the same conditions no request reaches the token endpoint |
| `LinkedinFlow.UserLatch` | src/Appwrite/Auth/OAuth2/Linkedin.php:189-193 | once the profile is non-empty it stays, and every later `getUser`, `getUserID` and `getUserName` answers from it whatever the access token |
| `LinkedinFlow.UserSilent` | src/Appwrite/Auth/OAuth2/Linkedin.php:189-193 | once the profile is non-empty no request reaches the profile endpoint |
| `LinkedinFlow.FirstProfileWins` | src/Appwrite/Auth/OAuth2/Linkedin.php:189-193 | the first non-empty profile fetched is what every later `getUserID` and `getUserName` reports, even with another access token |
| `LinkedinFlow.EmptyReplyKeepsTokensOpen` | src/Appwrite/Auth/OAuth2/Linkedin.php:69 | a token reply that decodes to an empty value leaves the latch open: the next `getTokens` sends a second code exchange |
| `LinkedinFlow.RefreshClosesTokenLatch` | src/Appwrite/Auth/OAuth2/Linkedin.php:94-111 | after a successful refresh, later `getTokens` calls answer the refreshed set whatever the code |
| `LinkedinFlow.RefreshNeverReturnTypeError` | src/Appwrite/Auth/OAuth2/Linkedin.php:92-111 | `refreshTokens` never answers a return-type error; a null reply answers an array holding only the caller's refresh token |
| `LinkedinFlow.RequestEndpoint` | src/Appwrite/Auth/OAuth2/Linkedin.php:72 | token calls go to the token endpoint, profile reads to `/v2/me`, email reads to `/v2/emailAddress` |
| `LinkedinFlow.EndpointsDistinct` | src/Appwrite/Auth/OAuth2/Linkedin.php:137 | the three endpoints are different URLs |
| `LinkedinAdapter.Linkedin.constructor` | src/Appwrite/Auth/OAuth2/Linkedin.php:12-17 | a new adapter starts with `$user = []`, `$tokens = []` and nothing sent |
| `LinkedinAdapter.Linkedin.GetLoginURL` | src/Appwrite/Auth/OAuth2/Linkedin.php:51-60 | the login URL is computed from the credentials alone |
| `LinkedinAdapter.Linkedin.IsEmailVerififed` | src/Appwrite/Auth/OAuth2/Linkedin.php:156-159 | always false |
| `LinkedinAdapter.Linkedin.Request` | src/Appwrite/Auth/OAuth2/Linkedin.php:70 | sending appends exactly that request to the log, and the answer is the oracle's |
| `LinkedinAdapter.Linkedin.GetTokens` | src/Appwrite/Auth/OAuth2/Linkedin.php:67-85 | new state and answer are those of `GetTokensSpec`; a non-empty cache is returned untouched with no request |
| `LinkedinAdapter.Linkedin.RefreshTokens` | src/Appwrite/Auth/OAuth2/Linkedin.php:92-112 | updating `tokens` in place gives the state and answer of `RefreshTokensSpec`; exactly one request |
| `LinkedinAdapter.Linkedin.GetUser` | src/Appwrite/Auth/OAuth2/Linkedin.php:187-194 | new state and answer are those of `GetUserSpec`; a non-empty cache is returned untouched with no request |
| `LinkedinAdapter.Linkedin.GetUserID` | src/Appwrite/Auth/OAuth2/Linkedin.php:119-128 | new state and answer are those of `GetUserIDSpec` |
| `LinkedinAdapter.Linkedin.GetUserName` | src/Appwrite/Auth/OAuth2/Linkedin.php:166-180 | new state and answer are those of `GetUserNameSpec` |
| `LinkedinAdapter.Linkedin.GetUserEmail` | src/Appwrite/Auth/OAuth2/Linkedin.php:135-149 | one email request, neither cache changes, answer as `GetUserEmailSpec` |
| `LinkedinAdapter.ExchangeTwice` | src/Appwrite/Auth/OAuth2/Linkedin.php:69-84 | on one adapter, a second `getTokens` after one that cached a non-empty set answers the same set and sends nothing |

## Left out

- `getName` (Linkedin.php:43-46) returns the constant `'linkedin'`. It is not modelled.
- The base class `Appwrite\Auth\OAuth2` is not part of this model. Its `appID`,
  `appSecret`, `callback`, `state` and `getScopes()` are constructor arguments.
  `getScopes()` is taken to return the adapter's `$scopes`.
- `request()` is an oracle. TLS, headers on the wire, status codes and timeouts
  are I/O, and a transport failure is the `Failed` response.
- `json_decode`, `json_encode`, `http_build_query` and `urlencode` are foreign
  calls. Bodies arrive already decoded; a body that is not JSON arrives as `null`.
  The `state` parameter is taken as already-encoded JSON text. Percent-encoding of
  the query and of the bearer token is not modelled, and the headers are
  symbolic (`FormContentType`, `Bearer`).
- JSON numbers with a fraction or exponent decode to PHP floats. The `Json` type
  has no floats, so `empty` of `0.0` and float-to-string conversion are not modelled.
- UserId: integers are unbounded. PHP's `json_decode` turns an integer beyond
  `PHP_INT_MAX` into a float, so a huge integer `id` becomes text like `"1.0E+20"`
  in PHP. `UserId` returns its digits instead. The same holds for integer names in `UserName`.
- The key order of PHP arrays is not modelled: `JObj` is an unordered map.
- LoginURL: the result is an endpoint plus a parameter list, not the final URL text.
- PHP version behaviour is fixed to PHP 8. Writing a key into a string, an
  integer or `true` throws. Writing into `null` or `false` creates an array.
  Return types are coerced in weak (non-strict) mode.
- Provider behaviour (whether a token is valid, which fields a profile holds)
  is whatever the oracle answers. There is no concurrency in the adapter.
