/**
 * The two request gates: the API-key check in front of `/add-job` and `/delete-job`,
 * and the user/password split of the dashboard's Basic credentials.
 */
module Auth {
  import opened Wrappers
  import opened Text

  /** The two request headers the gates read; `None` when the header is absent. */
  datatype Headers = Headers(apiKey: Option<string>, authorization: Option<string>)

  const BearerPrefix: string := "Bearer "
  const BasicPrefix: string := "Basic "

  /**
   * The key a request presents: the `x-api-key` header whenever it is present, even
   * empty; otherwise what follows `Bearer ` in `Authorization` (section 2.1 of RFC 6750).
   */
  function PresentedKey(h: Headers): (k: Option<string>)
    ensures h.apiKey.Some? ==> k == h.apiKey
    ensures h.apiKey.None? ==>
      (k.Some? <==> h.authorization.Some? && StartsWith(h.authorization.value, BearerPrefix))
    ensures h.apiKey.None? && k.Some? ==> h.authorization.value == BearerPrefix + k.value
  {
    if h.apiKey.Some? then h.apiKey
    else if h.authorization.Some? && StartsWith(h.authorization.value, BearerPrefix) then
      Some(h.authorization.value[|BearerPrefix|..])
    else None
  }

  /** The request passes unless the presented key is missing, empty or different from the configured one. */
  predicate ApiKeyAccepted(h: Headers, configured: string)
    ensures ApiKeyAccepted(h, configured) <==> configured != "" && PresentedKey(h) == Some(configured)
  {
    var k := PresentedKey(h);
    k.Some? && k.value != "" && k.value == configured
  }

  /** A bearer token is read back exactly as it was sent. */
  lemma BearerRoundTrip(token: string, configured: string)
    ensures PresentedKey(Headers(None, Some(BearerPrefix + token))) == Some(token)
    ensures ApiKeyAccepted(Headers(None, Some(BearerPrefix + token)), configured) <==> token != "" && token == configured
  {
  }

  /** A present `x-api-key` hides the bearer token: an empty one refuses even a correct token. */
  lemma EmptyHeaderShadowsBearer(authorization: Option<string>, configured: string)
    ensures !ApiKeyAccepted(Headers(Some(""), authorization), configured)
  {
  }

  /** Nothing passes when the configured key is empty. */
  lemma EmptyConfiguredKeyRefusesAll(h: Headers)
    ensures !ApiKeyAccepted(h, "")
  {
  }

  /** The dashboard credentials after base64 decoding: user before the first colon, password after. */
  datatype Credentials = Credentials(user: string, password: string)

  /**
   * Splits at the first colon (section 2 of RFC 7617); a string without a colon gives
   * an empty user and an empty password.
   */
  function SplitCredentials(decoded: string): (c: Credentials)
    ensures ':' in decoded ==> ':' !in c.user && decoded == c.user + ":" + c.password
    ensures ':' !in decoded ==> c == Credentials("", "")
  {
    var sep := IndexOf(decoded, ':');
    if sep >= 0 then
      assert decoded == decoded[..sep] + ":" + decoded[sep + 1..];
      Credentials(decoded[..sep], decoded[sep + 1..])
    else Credentials("", "")
  }

  /** How a client builds the decoded credentials. */
  function JoinCredentials(c: Credentials): string {
    c.user + ":" + c.password
  }

  /** A user name without a colon and any password survive joining and splitting. */
  lemma {:induction false} SplitJoin(c: Credentials)
    requires ':' !in c.user
    ensures SplitCredentials(JoinCredentials(c)) == c
  {
    var joined := JoinCredentials(c);
    assert joined[|c.user|] == ':';
    var sep := IndexOf(joined, ':');
    assert joined[..|c.user|] == c.user;
    assert sep == |c.user|;
    assert joined[sep + 1..] == c.password;
  }

  /** The dashboard's verdict: `Allow`, or 401 with a `WWW-Authenticate: Basic` challenge. */
  datatype DashboardDecision = Allow | Challenge(status: nat, wwwAuthenticate: string)

  const ChallengeHeader: string := "Basic realm=\"Bull Board\", charset=\"UTF-8\""

  /**
   * The dashboard gate. `decode` stands for base64 decoding followed by UTF-8 decoding,
   * which never fails.
   */
  function DashboardGate(authorization: Option<string>, decode: string -> string, user: string, password: string): (d: DashboardDecision)
    ensures d == Allow ==> authorization.Some? && StartsWith(authorization.value, BasicPrefix)
    ensures d.Challenge? ==> d == Challenge(401, ChallengeHeader)
    ensures d == Allow <==>
      authorization.Some? && StartsWith(authorization.value, BasicPrefix) &&
      SplitCredentials(decode(authorization.value[|BasicPrefix|..])) == Credentials(user, password)
  {
    if authorization.None? || !StartsWith(authorization.value, BasicPrefix) then Challenge(401, ChallengeHeader)
    else
      var c := SplitCredentials(decode(authorization.value[|BasicPrefix|..]));
      if c.user != user || c.password != password then Challenge(401, ChallengeHeader) else Allow
  }

  /** Correct credentials sent the way a client sends them pass the gate. */
  lemma DashboardAcceptsItsCredentials(encoded: string, decode: string -> string, user: string, password: string)
    requires ':' !in user
    requires decode(encoded) == JoinCredentials(Credentials(user, password))
    ensures DashboardGate(Some(BasicPrefix + encoded), decode, user, password) == Allow
  {
    assert (BasicPrefix + encoded)[..|BasicPrefix|] == BasicPrefix;
    assert (BasicPrefix + encoded)[|BasicPrefix|..] == encoded;
    SplitJoin(Credentials(user, password));
  }

  /** A decoded string without a colon passes only when both configured values are empty. */
  lemma NoColonPassesOnlyEmptyConfig(authorization: string, decode: string -> string, user: string, password: string)
    requires StartsWith(authorization, BasicPrefix) && ':' !in decode(authorization[|BasicPrefix|..])
    ensures DashboardGate(Some(authorization), decode, user, password) == Allow <==> user == "" && password == ""
  {
  }
}
