/** OAuth2 token caching with proactive refresh (src/prophet/sdk/auth.py).
    The clock and the token endpoint are outside the model: every operation
    that may need a token is given the current time `now`, in whole seconds,
    and the reply the endpoint gives to the request it would send. */
module Auth {
  import opened Json
  import opened Http

  const TokenPath := "/oauth2/token/1.0"
  const DefaultRefreshThreshold := 300

  /** What the token endpoint answers: nothing at all (the transport failed),
      or a status code and a decoded body. */
  datatype TokenReply = Unreachable | Replied(status: int, body: Json)

  /** The POST that `_fetch_token` sends. */
  datatype TokenCall = TokenCall(url: string, payload: map<string, Json>)

  /** An access token and the time at which it expires. */
  datatype Grant = Grant(token: string, expiresAt: int)

  /** `s.rstrip("/")`: `s` without its trailing slashes. */
  function TrimSlashes(s: string): (r: string)
    ensures r == [] || r[|r| - 1] != '/'
    ensures |r| <= |s| && r == s[..|r|]
    ensures forall i :: |r| <= i < |s| ==> s[i] == '/'
  {
    if s != [] && s[|s| - 1] == '/' then TrimSlashes(s[..|s| - 1]) else s
  }

  /** True when the token is expired (`is_expired`): there is no expiry, or
      it has been reached. */
  predicate Expired(expiresAt: Option<int>, now: int) {
    expiresAt.None? || now >= expiresAt.value
  }

  /** True when a token must be fetched before use (`_needs_refresh`): none
      is cached, or expiry is at most `threshold` seconds away. */
  predicate RefreshDue(token: Option<string>, expiresAt: Option<int>, threshold: int, now: int) {
    token.None? || expiresAt.None? || now >= expiresAt.value - threshold
  }

  /** With a non-negative threshold a refresh is never later than expiry. */
  lemma ExpiredImpliesRefreshDue(token: Option<string>, expiresAt: Option<int>, threshold: int, now: int)
    requires threshold >= 0
    ensures Expired(expiresAt, now) ==> RefreshDue(token, expiresAt, threshold, now)
  {
  }

  /** Once due, a refresh stays due as time passes. */
  lemma RefreshDueStaysDue(token: Option<string>, expiresAt: Option<int>, threshold: int, now: int, later: int)
    requires now <= later
    ensures RefreshDue(token, expiresAt, threshold, now) ==> RefreshDue(token, expiresAt, threshold, later)
    ensures Expired(expiresAt, now) ==> Expired(expiresAt, later)
  {
  }

  /** A cached token is replaced during the `threshold` seconds before it
      expires, while it still works. */
  lemma RefreshAheadOfExpiry(token: string, expiresAt: int, threshold: int, now: int)
    ensures RefreshDue(Some(token), Some(expiresAt), threshold, now) && !Expired(Some(expiresAt), now)
        <==> expiresAt - threshold <= now < expiresAt
  {
  }

  /** The body of a successful reply carrying `g`. */
  function GrantBody(g: Grant): Json {
    JObject(map["access_token" := JStr(g.token), "expires_at" := JInt(g.expiresAt)])
  }

  /** `data["access_token"]` and `float(data["expires_at"])` on a 200 body;
      a missing key, a body that is not an object, or a value of the wrong
      kind is a malformed body. */
  function ParseGrant(body: Json): (r: Result<Grant>)
    ensures r.Ok? <==> body.JObject? && "access_token" in body.fields && body.fields["access_token"].JStr?
                       && "expires_at" in body.fields && body.fields["expires_at"].JInt?
    ensures r.Ok? ==> body.fields["access_token"] == JStr(r.value.token) && body.fields["expires_at"] == JInt(r.value.expiresAt)
    ensures r.Err? ==> r.error == MalformedBody
  {
    if body.JObject? && "access_token" in body.fields && body.fields["access_token"].JStr?
       && "expires_at" in body.fields && body.fields["expires_at"].JInt?
    then Ok(Grant(body.fields["access_token"].s, body.fields["expires_at"].i))
    else Err(MalformedBody)
  }

  /** The error a reply raises before its body is read as a grant. */
  function ReplyError(reply: TokenReply): (r: Option<Error>)
    ensures r.None? <==> reply.Replied? && reply.status == 200
    ensures reply.Unreachable? ==> r == Some(AuthenticationError(JNull))
    ensures reply.Replied? && reply.status == 401 ==>
      r == Some(if reply.body.JObject?
                then AuthenticationError(GetOrDefault(reply.body.fields, "code", JStr("invalid_credentials")))
                else MalformedBody)
    ensures reply.Replied? && reply.status !in {200, 401} ==> r == Some(AuthenticationError(JStr("token_request_failed")))
  {
    match reply
    case Unreachable => Some(AuthenticationError(JNull))
    case Replied(status, body) =>
      if status == 401 then
        match BodyGet(body, "error")
        case Err(e) => Some(e)
        case Ok(_) => Some(AuthenticationError(GetOrDefault(body.fields, "code", JStr("invalid_credentials"))))
      else if status != 200 then Some(AuthenticationError(JStr("token_request_failed")))
      else None
  }

  /** What a token request obtains from `reply`. */
  function FetchOutcome(reply: TokenReply): (r: Result<Grant>)
    ensures r.Ok? ==> reply.Replied? && reply.status == 200
    ensures reply.Replied? && reply.status == 200 ==> r == ParseGrant(reply.body)
    // A refused or failed request raises AuthenticationError; only a body
    // that cannot be read raises anything else.
    ensures r.Err? && r.error != MalformedBody ==> r.error.AuthenticationError?
    ensures r.Err? && r.error == MalformedBody ==>
      reply.Replied? && (reply.status == 200 || (reply.status == 401 && !reply.body.JObject?))
  {
    match ReplyError(reply)
    case Some(e) => Err(e)
    case None => ParseGrant(reply.body)
  }

  /** A 200 reply carrying a grant yields exactly that grant. */
  lemma GrantRoundTrip(g: Grant)
    ensures FetchOutcome(Replied(200, GrantBody(g))) == Ok(g)
  {
    var body := GrantBody(g);
    assert "access_token" in body.fields && body.fields["access_token"] == JStr(g.token);
    assert "expires_at" in body.fields && body.fields["expires_at"] == JInt(g.expiresAt);
  }

  /** The cached pair after lines 114-116 as written: `_token` is assigned
      before `expires_at` is read and converted, so a 200 body whose
      `expires_at` is missing or not a number stores the new token and keeps
      the old expiry. Returns the new token, the new expiry and the error. */
  function StoreAsWritten(token: Option<string>, expiresAt: Option<int>, body: Json): (r: (Option<string>, Option<int>, Option<Error>))
    ensures r.2.None? <==> ParseGrant(body).Ok?
    ensures r.2.None? ==> r.0 == Some(ParseGrant(body).value.token) && r.1 == Some(ParseGrant(body).value.expiresAt)
    ensures r.1 == expiresAt || r.2.None?
  {
    if !body.JObject? || "access_token" !in body.fields || !body.fields["access_token"].JStr? then
      (token, expiresAt, Some(MalformedBody))
    else if "expires_at" !in body.fields || !body.fields["expires_at"].JInt? then
      (Some(body.fields["access_token"].s), expiresAt, Some(MalformedBody))
    else
      (Some(body.fields["access_token"].s), Some(body.fields["expires_at"].i), None)
  }

  /** A first fetch whose 200 body lacks `expires_at` leaves a token cached
      with no expiry, so the two fields are no longer present together. */
  lemma StoreAsWrittenDecouples()
    ensures var r := StoreAsWritten(None, None, JObject(map["access_token" := JStr("t")]));
      r == (Some("t"), None, Some(MalformedBody)) && (r.0.Some? != r.1.Some?)
  {
    var body := JObject(map["access_token" := JStr("t")]);
    assert "access_token" in body.fields && "expires_at" !in body.fields by {
      assert body.fields.Keys == {"access_token"};
      assert "expires_at" != "access_token" by { assert |"expires_at"| == 10 && |"access_token"| == 12; }
    }
  }

  /** `TokenManager`: the cached token, its expiry, and the endpoint it
      refreshes them from. A fetch assigns both fields only once the whole
      grant has been read (see `StoreAsWritten` for the code as written). */
  class TokenManager {
    const baseUrl: string
    const clientId: string
    const clientSecret: string
    const refreshThreshold: int
    var token: Option<string>
    var expiresAt: Option<int>
    /** Every request sent to the token endpoint, oldest first. */
    ghost var sent: seq<TokenCall>

    /** The token and its expiry are cached together or not at all. */
    predicate Valid()
      reads this
    {
      token.Some? <==> expiresAt.Some?
    }

    constructor(baseUrl: string, clientId: string, clientSecret: string, refreshThreshold: int)
      ensures this.baseUrl == TrimSlashes(baseUrl)
      ensures this.clientId == clientId && this.clientSecret == clientSecret
      ensures this.refreshThreshold == refreshThreshold
      ensures token.None? && expiresAt.None? && sent == []
      ensures Valid()
    {
      this.baseUrl := TrimSlashes(baseUrl);
      this.clientId := clientId;
      this.clientSecret := clientSecret;
      this.refreshThreshold := refreshThreshold;
      token := None;
      expiresAt := None;
      sent := [];
    }

    /** The request `_fetch_token` sends: the credentials, to the token path. */
    function Request(): TokenCall {
      TokenCall(baseUrl + TokenPath, map["client_id" := JStr(clientId), "client_secret" := JStr(clientSecret)])
    }

    /** `is_expired`, which changes nothing. */
    method IsExpired(now: int) returns (r: bool)
      ensures r <==> Expired(expiresAt, now)
    {
      r := expiresAt.None? || now >= expiresAt.value;
    }

    /** `_fetch_token`: one request; on success both fields take the grant,
        on failure neither changes. */
    method FetchToken(reply: TokenReply) returns (r: Outcome)
      requires Valid()
      modifies this`token, this`expiresAt, this`sent
      ensures Valid()
      ensures sent == old(sent) + [Request()]
      ensures FetchOutcome(reply).Ok? ==> r == Pass && token == Some(FetchOutcome(reply).value.token)
                                           && expiresAt == Some(FetchOutcome(reply).value.expiresAt)
      ensures FetchOutcome(reply).Err? ==> r == Fail(FetchOutcome(reply).error)
                                            && token == old(token) && expiresAt == old(expiresAt)
    {
      sent := sent + [Request()];
      var error := ReplyError(reply);
      if error.Some? {
        return Fail(error.value);
      }
      var grant := ParseGrant(reply.body);
      if grant.Err? {
        return Fail(grant.error);
      }
      token := Some(grant.value.token);
      expiresAt := Some(grant.value.expiresAt);
      r := Pass;
    }

    /** `get_token`: fetches exactly when a refresh is due, and returns the
        token cached afterwards. */
    method GetToken(now: int, reply: TokenReply) returns (r: Result<string>)
      requires Valid()
      modifies this`token, this`expiresAt, this`sent
      ensures Valid()
      ensures !RefreshDue(old(token), old(expiresAt), refreshThreshold, now) ==>
        r == Ok(old(token).value) && sent == old(sent) && token == old(token) && expiresAt == old(expiresAt)
      ensures RefreshDue(old(token), old(expiresAt), refreshThreshold, now) ==>
        sent == old(sent) + [Request()]
        && (FetchOutcome(reply).Ok? ==> r == Ok(FetchOutcome(reply).value.token)
                                        && expiresAt == Some(FetchOutcome(reply).value.expiresAt))
        && (FetchOutcome(reply).Err? ==> r == Err(FetchOutcome(reply).error)
                                         && token == old(token) && expiresAt == old(expiresAt))
      ensures r.Ok? ==> token == Some(r.value)
    {
      if token.None? || expiresAt.None? || now >= expiresAt.value - refreshThreshold {
        var fetched := FetchToken(reply);
        if fetched.Fail? {
          return Err(fetched.error);
        }
      }
      r := Ok(token.value);
    }

    /** `refresh`: fetches whatever the cached state, and returns the new
        token. */
    method Refresh(reply: TokenReply) returns (r: Result<string>)
      requires Valid()
      modifies this`token, this`expiresAt, this`sent
      ensures Valid()
      ensures sent == old(sent) + [Request()]
      ensures FetchOutcome(reply).Ok? ==> r == Ok(FetchOutcome(reply).value.token)
                                          && token == Some(r.value)
                                          && expiresAt == Some(FetchOutcome(reply).value.expiresAt)
      ensures FetchOutcome(reply).Err? ==> r == Err(FetchOutcome(reply).error)
                                           && token == old(token) && expiresAt == old(expiresAt)
    {
      var fetched := FetchToken(reply);
      if fetched.Fail? {
        return Err(fetched.error);
      }
      r := Ok(token.value);
    }

    /** `clear`: forgets the token, so that it counts as expired and the next
        `get_token` fetches, whatever the time. */
    method Clear()
      modifies this`token, this`expiresAt
      ensures token.None? && expiresAt.None? && Valid()
      ensures forall now :: Expired(expiresAt, now) && RefreshDue(token, expiresAt, refreshThreshold, now)
    {
      token := None;
      expiresAt := None;
    }
  }

  /** A cached token is reused until the threshold before its expiry, then
      replaced; a refused refresh keeps the old one. */
  method TokenLifecycleExample() returns (first: Result<string>, second: Result<string>, third: Result<string>, fourth: Result<string>, m: TokenManager)
    ensures first == Ok("abc") && second == Ok("abc") && third == Ok("def")
    ensures fourth == Err(AuthenticationError(JStr("invalid_credentials")))
    ensures |m.sent| == 3 && m.token == Some("def") && m.expiresAt == Some(9000)
  {
    m := new TokenManager("https://api.example/", "id", "secret", DefaultRefreshThreshold);
    GrantRoundTrip(Grant("abc", 5000));
    first := m.GetToken(1000, Replied(200, GrantBody(Grant("abc", 5000))));
    second := m.GetToken(4000, Unreachable);
    GrantRoundTrip(Grant("def", 9000));
    third := m.GetToken(4700, Replied(200, GrantBody(Grant("def", 9000))));
    assert m.token == Some("def");
    fourth := m.Refresh(Replied(401, JObject(map[])));
  }
}
