/**
 * What the LinkedIn adapter makes of the provider's decoded replies: the user
 * identifier and display name from the profile (`/v2/me`), the address from the
 * email endpoint, and the refresh-token fallback applied to a refresh reply.
 * Every read is guarded by `isset`/`empty` as in the adapter, so a missing field
 * gives the empty-string default rather than a failure.
 */
module LinkedinResponses {
  import opened PhpValues

  const IdKey := "id"
  const FirstNameKey := "localizedFirstName"
  const LastNameKey := "localizedLastName"
  const RefreshTokenKey := "refresh_token"

  /** `getUserID` after the profile is known (Linkedin.php:123-127). */
  function UserId(user: Json): (r: Result<string>)
    ensures !Isset(Field(user, IdKey)) ==> r == Ok("")
    ensures !user.JObj? ==> r == Ok("")
    ensures user.JObj? && IdKey in user.fields && user.fields[IdKey].JStr? ==> r == Ok(user.fields[IdKey].s)
    ensures user.JObj? && IdKey in user.fields && user.fields[IdKey].JInt? ==> r == Ok(Decimal(user.fields[IdKey].i))
    // the only failure: an `id` that is an array does not fit the `string` return type
    ensures r.Err? <==> user.JObj? && IdKey in user.fields && (user.fields[IdKey].JArr? || user.fields[IdKey].JObj?)
  {
    var id := Field(user, IdKey);
    if Isset(id) then ReturnString(id.value) else Ok("")
  }

  /** `getUserName` after the profile is known (Linkedin.php:169-179). */
  function UserName(user: Json): (r: Result<string>)
    // both names set and the first not empty: "first last"
    ensures Isset(Field(user, FirstNameKey)) && !Empty(Field(user, FirstNameKey).value) && Isset(Field(user, LastNameKey))
      ==> r == Ok(ToPhpString(Field(user, FirstNameKey).value) + " " + ToPhpString(Field(user, LastNameKey).value))
    // only the first name set: that one, even when it is empty in PHP's sense
    ensures Isset(Field(user, FirstNameKey)) && !Isset(Field(user, LastNameKey))
      ==> r == ReturnString(Field(user, FirstNameKey).value)
    // the first name missing or empty ("", "0", ...) and the last set: the last alone
    ensures (!Isset(Field(user, FirstNameKey)) || Empty(Field(user, FirstNameKey).value)) && Isset(Field(user, LastNameKey))
      ==> r == ReturnString(Field(user, LastNameKey).value)
    // neither set
    ensures !Isset(Field(user, FirstNameKey)) && !Isset(Field(user, LastNameKey)) ==> r == Ok("")
  {
    var first := Field(user, FirstNameKey);
    var last := Field(user, LastNameKey);
    var initial := JStr("");
    var afterFirst := if Isset(first) then first.value else initial;
    var afterLast :=
      if Isset(last) then
        (if Empty(afterFirst) then last.value else JStr(ToPhpString(afterFirst) + " " + ToPhpString(last.value)))
      else afterFirst;
    ReturnString(afterLast)
  }

  /** One step of a path into a decoded value: a string key or an integer offset. */
  datatype Step = Key(name: string) | At(offset: nat)

  function Select(v: Json, step: Step): Option<Json> {
    match step
    case Key(name) => Field(v, name)
    case At(k) => Index(v, k)
  }

  /** Safe navigation: follows `path`, giving None as soon as a level is missing or null. */
  function Navigate(v: Json, path: seq<Step>): (o: Option<Json>)
    ensures o.Some? ==> o.value != JNull || (path == [] && v == JNull)
    decreases |path|
  {
    if path == [] then Some(v)
    else
      var next := Select(v, path[0]);
      if Isset(next) then Navigate(next.value, path[1..]) else None
  }

  /** `elements[0]["handle~"]["emailAddress"]` */
  const EmailPath := [Key("elements"), At(0), Key("handle~"), Key("emailAddress")]

  /** `getUserEmail` after the reply is decoded (Linkedin.php:139-148). */
  function EmailAddress(email: Json): (r: Result<string>)
    ensures Navigate(email, EmailPath).None? ==> r == Ok("")
    ensures Navigate(email, EmailPath).Some? ==> r == ReturnString(Navigate(email, EmailPath).value)
  {
    assert EmailPath[1..] == [At(0), Key("handle~"), Key("emailAddress")];
    assert EmailPath[1..][1..] == [Key("handle~"), Key("emailAddress")];
    assert EmailPath[1..][1..][1..] == [Key("emailAddress")];
    var elements := Field(email, "elements");
    if Isset(elements) then
      var first := Index(elements.value, 0);
      if Isset(first) then
        var handle := Field(first.value, "handle~");
        if Isset(handle) then
          var address := Field(handle.value, "emailAddress");
          if Isset(address) then ReturnString(address.value) else Ok("")
        else Ok("")
      else Ok("")
    else Ok("")
  }

  /** The reply shape LinkedIn documents gives its address back. */
  lemma EmailAddressOfWellFormedReply(address: string)
    ensures EmailAddress(JObj(map["elements" := JArr([JObj(map["handle~" := JObj(map["emailAddress" := JStr(address)])])])]))
      == Ok(address)
  {
  }

  /** Any reply whose path breaks at some level gives "" and nothing else. */
  lemma {:induction false} EmailAddressOfBrokenPath(email: Json, level: nat)
    requires level < |EmailPath|
    requires Navigate(email, EmailPath[..level]).Some?
    requires !Isset(Select(Navigate(email, EmailPath[..level]).value, EmailPath[level]))
    ensures EmailAddress(email) == Ok("")
  {
    NavigateStops(email, EmailPath, level);
  }

  lemma {:induction false} NavigateStops(v: Json, path: seq<Step>, level: nat)
    requires level < |path|
    requires Navigate(v, path[..level]).Some?
    requires !Isset(Select(Navigate(v, path[..level]).value, path[level]))
    ensures Navigate(v, path).None?
    decreases level
  {
    if level > 0 {
      var next := Select(v, path[0]);
      assert path[..level][0] == path[0] && path[..level][1..] == path[1..][..level - 1];
      NavigateStops(next.value, path[1..], level - 1);
    }
  }

  /**
   * Lines 107-109 of Linkedin.php applied to the decoded refresh reply: a missing
   * or empty `refresh_token` is replaced by the token the caller sent.
   */
  function RefreshFallback(reply: Json, refreshToken: string): (r: Result<Json>)
    // a usable token in the reply is kept, and nothing else changes
    ensures !EmptyAt(Field(reply, RefreshTokenKey)) ==> r == Ok(reply)
    // what comes back is always a keyed array holding the key
    ensures r.Ok? ==> r.value.JObj? && RefreshTokenKey in r.value.fields
    // otherwise the caller's token is written in
    ensures r.Ok? && EmptyAt(Field(reply, RefreshTokenKey)) ==> r.value.fields[RefreshTokenKey] == JStr(refreshToken)
    // an object reply keeps every other key and value
    ensures reply.JObj? ==> r.Ok? && r.value.fields.Keys == reply.fields.Keys + {RefreshTokenKey}
    ensures reply.JObj? ==> forall k :: k in reply.fields && k != RefreshTokenKey ==> r.value.fields[k] == reply.fields[k]
    // the write fails only on a reply that is a string, an integer or `true`
    ensures r.Err? <==> reply.JStr? || reply.JInt? || reply == JBool(true)
  {
    if EmptyAt(Field(reply, RefreshTokenKey)) then AssignField(reply, RefreshTokenKey, JStr(refreshToken))
    else Ok(reply)
  }

  /** Applying the fallback to its own result changes nothing. */
  lemma RefreshFallbackIdempotent(reply: Json, refreshToken: string)
    requires RefreshFallback(reply, refreshToken).Ok?
    ensures RefreshFallback(RefreshFallback(reply, refreshToken).value, refreshToken) == RefreshFallback(reply, refreshToken)
  {
    var t := RefreshFallback(reply, refreshToken).value;
    if EmptyAt(Field(t, RefreshTokenKey)) {
      assert t.fields[RefreshTokenKey] == JStr(refreshToken);
      assert t.fields[RefreshTokenKey := JStr(refreshToken)] == t.fields;
    }
  }

  /** After a successful refresh the token set is never empty, so it closes the `getTokens` latch. */
  lemma RefreshedTokensNotEmpty(reply: Json, refreshToken: string)
    requires RefreshFallback(reply, refreshToken).Ok?
    ensures !Empty(RefreshFallback(reply, refreshToken).value)
  {
    var t := RefreshFallback(reply, refreshToken).value;
    assert RefreshTokenKey in t.fields;
  }

  /** The fallback keeps every integer offset of an array reply: a list's elements stay where they were. */
  lemma RefreshFallbackKeepsOffsets(reply: Json, refreshToken: string, k: nat)
    requires reply.JArr? || reply.JObj?
    ensures Index(RefreshFallback(reply, refreshToken).value, k) == Index(reply, k)
  {
    if EmptyAt(Field(reply, RefreshTokenKey)) {
      IndexAfterAssign(reply, RefreshTokenKey, JStr(refreshToken), k);
    }
  }
}
