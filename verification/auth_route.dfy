/** The hand-written authorization-code login of app/auth/route.py
    (section 4.1 of RFC 6749): `login` builds the authorization request,
    `auth_callback` exchanges the code and writes the guard's three keys. */
module AuthRoute {
  import opened Values
  import opened Http
  import opened AuthUtils

  /** The environment the router reads at import time. */
  datatype Config = Config(clientId: string, tenantId: string, clientSecret: string, redirectUri: string)

  function Authority(cfg: Config): string {
    "https://login.microsoftonline.com/" + cfg.tenantId
  }

  function AuthorizeEndpoint(cfg: Config): string {
    Authority(cfg) + "/oauth2/v2.0/authorize"
  }

  const Scope := "User.Read openid profile email"

  /** The anti-forgery value: a literal, the same on every login. */
  const FixedState := "12345"

  /** The expiry the callback falls back to, in seconds. */
  const DefaultLifetime := 3600

  /** The query of the authorization request, section 4.1.1 of RFC 6749. */
  function AuthorizeQuery(cfg: Config): (q: seq<(string, string)>)
    ensures Names(q) == ["client_id", "response_type", "redirect_uri", "response_mode", "scope", "state"]
    ensures Lookup(q, "client_id") == Some(cfg.clientId)
    ensures Lookup(q, "response_type") == Some("code")
    ensures Lookup(q, "redirect_uri") == Some(cfg.redirectUri)
    ensures Lookup(q, "response_mode") == Some("query")
    ensures Lookup(q, "scope") == Some(Scope)
    ensures Lookup(q, "state") == Some(FixedState)
  {
    var q := [ ("client_id", cfg.clientId),
               ("response_type", "code"),
               ("redirect_uri", cfg.redirectUri),
               ("response_mode", "query"),
               ("scope", Scope),
               ("state", FixedState) ];
    LookupFindsFirst(q, 0); LookupFindsFirst(q, 1); LookupFindsFirst(q, 2);
    LookupFindsFirst(q, 3); LookupFindsFirst(q, 4); LookupFindsFirst(q, 5);
    q
  }

  /** `login`: home when the guard passes, otherwise the authorize endpoint.
      Whatever the guard did to the session (emptying it on expiry) stays;
      an exception from the guard becomes a 500. */
  function Login(s: Session, now: int, cfg: Config): (h: Handled<Response<()>>)
    ensures h.result == Returned(Redirect(Path("/"), TemporaryRedirect)) <==> Live(s, now)
    ensures h.session == VerifyToken(s, now).session
    ensures Live(s, now) ==> h.session == s
    ensures h.result.Raised? <==> VerifyToken(s, now).result.Raised?
    ensures h.result.Raised? ==> Status(h.result) == ServerError
    ensures !Live(s, now) && h.result.Returned? ==>
              h.result.value == Redirect(Url(AuthorizeEndpoint(cfg), AuthorizeQuery(cfg)), TemporaryRedirect)
  {
    var c := VerifyToken(s, now);
    match c.result
    case Raised(e) => Handled(Raised(Rewrapped(ServerError, "", e)), c.session)
    case Returned(None) => Handled(Returned(Redirect(Path("/"), TemporaryRedirect)), c.session)
    case Returned(Some(_)) =>
      Handled(Returned(Redirect(Url(AuthorizeEndpoint(cfg), AuthorizeQuery(cfg)), TemporaryRedirect)), c.session)
  }

  /** Every login that sends the browser to the provider carries the same
      state, whatever the session or the clock. */
  lemma StateNeverChanges(s1: Session, now1: int, s2: Session, now2: int, cfg: Config)
    ensures var h1, h2 := Login(s1, now1, cfg).result, Login(s2, now2, cfg).result;
            h1.Returned? && !Live(s1, now1) && h2.Returned? && !Live(s2, now2) ==>
              h1 == h2 && Lookup(h1.value.location.query, "state") == Some(FixedState)
  {
  }

  /** The form of the token request, section 4.1.3 of RFC 6749. */
  function TokenForm(cfg: Config, code: string): (f: map<string, string>)
    ensures f.Keys == {"client_id", "client_secret", "code", "redirect_uri", "grant_type"}
    ensures f["client_id"] == cfg.clientId && f["client_secret"] == cfg.clientSecret
    ensures f["code"] == code && f["redirect_uri"] == cfg.redirectUri
    ensures f["grant_type"] == "authorization_code"
  {
    map["client_id" := cfg.clientId,
        "client_secret" := cfg.clientSecret,
        "code" := code,
        "redirect_uri" := cfg.redirectUri,
        "grant_type" := "authorization_code"]
  }

  /** A reply from the provider: a failure of the HTTP client (connection,
      non-2xx status, undecodable body), or a decoded JSON object. */
  datatype Reply = Unreachable | Answered(body: map<string, Value>)

  /** The two provider endpoints the callback calls: the token endpoint,
      given the form, and the profile endpoint, given the bearer token. */
  datatype Provider = Provider(token: map<string, string> -> Reply, profile: Value -> Reply)

  /** The expiry instant: the lifetime is looked up in the form the
      callback sent, not in the provider's reply. The form holds only
      strings, so a present entry would make the addition raise. */
  function ExpiresAt(form: map<string, string>, now: int): Outcome<int> {
    if "expires_in" in form then Raised(TypeError) else Returned(now + DefaultLifetime)
  }

  /** The lifetime the provider reports never reaches the session. */
  lemma ExpiryIgnoresProvider(cfg: Config, code: string, now: int)
    ensures ExpiresAt(TokenForm(cfg, code), now) == Returned(now + DefaultLifetime)
  {
  }

  /** The session a successful callback leaves: the display name, the
      access token and the expiry instant written over `s`. */
  function LoggedIn(s: Session, name: Value, token: Value, expiresAt: int): Session {
    s["user" := name]["access_token" := token]["token_expires_at" := Num(expiresAt)]
  }

  /** A failed provider call, as the handler re-raises it. */
  const Communicating := Rewrapped(ServerError, "Error communicating with Microsoft: ", ProviderError)

  /** `auth_callback`. An `error` parameter is rejected before `code` is
      looked at, then a missing code; both HTTPExceptions are caught by the
      handler's generic clause and surface as 500. A failed provider call
      is a 500 too. On success the session gains exactly the keys the
      guard requires, "user" holding the profile's display name ("User"
      when it has none), and the browser is sent home with 303. */
  function AuthCallback(s: Session, now: int, cfg: Config, code: Option<string>, error: Option<string>,
                        idp: Provider): (h: Handled<Response<()>>)
    ensures Given(error) ==>
              h.result == Raised(Rewrapped(ServerError, "", HttpError(BadRequest, "Authentication error: " + error.value)))
    ensures !Given(error) && !Given(code) ==>
              h.result == Raised(Rewrapped(ServerError, "", HttpError(BadRequest, "No authorization code received")))
    ensures h.result.Raised? ==> h.session == s && Status(h.result) == ServerError
    ensures h.result.Returned? ==>
              && Given(code) && !Given(error)
              && h.result.value == Redirect(Path("/"), SeeOther)
              && h.session.Keys == s.Keys + RequiredKeys
              && (forall k :: k in s && k !in RequiredKeys ==> h.session[k] == s[k])
              && h.session["token_expires_at"] == Num(now + DefaultLifetime)
              && idp.token(TokenForm(cfg, code.value)).Answered?
              && h.session["access_token"] == Get(idp.token(TokenForm(cfg, code.value)).body, "access_token", Null)
    ensures !Given(error) && Given(code) ==>
              var reply := idp.token(TokenForm(cfg, code.value));
              && (reply.Unreachable? ==> h.result == Raised(Communicating))
              && (reply.Answered? ==>
                    var profile := idp.profile(Get(reply.body, "access_token", Null));
                    && (profile.Unreachable? ==> h.result == Raised(Communicating))
                    && (profile.Answered? ==>
                          && h.result == Returned(Redirect(Path("/"), SeeOther))
                          && h.session["user"] == Get(profile.body, "displayName", Str("User"))))
  {
    if Given(error) then
      Handled(Raised(Rewrapped(ServerError, "", HttpError(BadRequest, "Authentication error: " + error.value))), s)
    else if !Given(code) then
      Handled(Raised(Rewrapped(ServerError, "", HttpError(BadRequest, "No authorization code received"))), s)
    else
      var form := TokenForm(cfg, code.value);
      match idp.token(form)
      case Unreachable => Handled(Raised(Communicating), s)
      case Answered(tokenBody) =>
        var accessToken := Get(tokenBody, "access_token", Null);
        match idp.profile(accessToken)
        case Unreachable => Handled(Raised(Communicating), s)
        case Answered(profile) =>
          match ExpiresAt(form, now)
          case Raised(e) => Handled(Raised(Rewrapped(ServerError, "", e)), s)
          case Returned(expiresAt) =>
            var displayName := Get(profile, "displayName", Str("User"));
            Handled(Returned(Redirect(Path("/"), SeeOther)), LoggedIn(s, displayName, accessToken, expiresAt))
  }

  /** A successful callback at `now` opens a session the guard accepts
      exactly until `now + 3600`; from then on the guard empties it. */
  lemma CallbackOpensGuardedSession(s: Session, now: int, cfg: Config, code: Option<string>,
                                                     error: Option<string>, idp: Provider, t: int)
    requires AuthCallback(s, now, cfg, code, error, idp).result.Returned?
    ensures (VerifyToken(AuthCallback(s, now, cfg, code, error, idp).session, t).result == Returned(None))
              <==> t < now + DefaultLifetime
    ensures t >= now + DefaultLifetime ==>
              VerifyToken(AuthCallback(s, now, cfg, code, error, idp).session, t).session == map[]
    ensures (Login(AuthCallback(s, now, cfg, code, error, idp).session, t, cfg).result
               == Returned(Redirect(Path("/"), TemporaryRedirect)))
              <==> t < now + DefaultLifetime
  {
    var s' := AuthCallback(s, now, cfg, code, error, idp).session;
    assert HasRequiredKeys(s');
    assert s'["token_expires_at"] == Num(now + DefaultLifetime);
  }
}
