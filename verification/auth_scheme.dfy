/** The library-based login of app/auth/auth.py. Here a session is logged
    in exactly when it holds the key "user", whose value is a dictionary
    carrying the directory user's email, name and id. */
module AuthScheme {
  import opened Values
  import opened Http
  import opened AuthModels
  import opened AuthCrud

  /** `is_authenticated` */
  predicate IsAuthenticated(s: Session) {
    "user" in s
  }

  /** `get_current_user`: the stored user, or None when logged out. */
  function GetCurrentUser(s: Session): (r: Option<Value>)
    ensures r.Some? <==> IsAuthenticated(s)
    ensures r.Some? ==> r.value == s["user"]
  {
    if "user" in s then Some(s["user"]) else None
  }

  const Home: Response<()> := Redirect(Path("/"), TemporaryRedirect)

  /** `login`: a logged-in browser goes home without the provider being
      contacted; otherwise the result is the library's redirect to the
      provider, `toProvider`, together with whatever it stores in the
      session. */
  function Login(s: Session, toProvider: Handled<Response<()>>): (h: Handled<Response<()>>)
    ensures IsAuthenticated(s) ==> h == Handled(Returned(Home), s)
    ensures !IsAuthenticated(s) ==> h == toProvider
  {
    if IsAuthenticated(s) then Handled(Returned(Home), s) else toProvider
  }

  /** What the library's token exchange produced: an exception of its own,
      or the token it returned (None, or a dictionary). */
  datatype Grant = Refused | Granted(token: Value)

  /** The user record the callback built from the token's fields: the
      "userinfo" entry when it is truthy, else, when an "id_token" is
      present, the four claims read from "id_token_claims" with "" for a
      missing one, else a 400. A truthy entry that is not a dictionary
      fails on `.get`. */
  function UserClaims(t: map<string, Value>): (r: Outcome<map<string, Value>>)
    ensures Truthy(Get(t, "userinfo", Null)) && Get(t, "userinfo", Null).Dict? ==>
              r == Returned(Get(t, "userinfo", Null).fields)
    ensures Truthy(Get(t, "userinfo", Null)) && !Get(t, "userinfo", Null).Dict? ==> r == Raised(AttributeError)
    ensures !Truthy(Get(t, "userinfo", Null)) && Truthy(Get(t, "id_token", Null))
            && !Get(t, "id_token_claims", Dict(map[])).Dict? ==>
              r == Raised(AttributeError)
    ensures !Truthy(Get(t, "userinfo", Null)) && Truthy(Get(t, "id_token", Null))
            && Get(t, "id_token_claims", Dict(map[])).Dict? ==>
              && r.Returned?
              && r.value.Keys == ClaimKeys
              && forall k :: k in ClaimKeys ==> r.value[k] == Get(Get(t, "id_token_claims", Dict(map[])).fields, k, Str(""))
    ensures !Truthy(Get(t, "userinfo", Null)) && !Truthy(Get(t, "id_token", Null)) ==>
              r == Raised(HttpError(BadRequest, "No user info available"))
    ensures r.Raised? ==> r.exc in {HttpError(BadRequest, "No user info available"), AttributeError}
  {
    var info := Get(t, "userinfo", Null);
    if Truthy(info) then
      if info.Dict? then Returned(info.fields) else Raised(AttributeError)
    else if Truthy(Get(t, "id_token", Null)) then
      match Get(t, "id_token_claims", Dict(map[]))
      case Dict(c) =>
        Returned(map["email" := Get(c, "email", Str("")),
                     "name" := Get(c, "name", Str("")),
                     "preferred_username" := Get(c, "preferred_username", Str("")),
                     "sub" := Get(c, "sub", Str(""))])
      case _ => Raised(AttributeError)
    else
      Raised(HttpError(BadRequest, "No user info available"))
  }

  const ClaimKeys: set<string> := {"email", "name", "preferred_username", "sub"}

  /** The email handed to the upsert: "email", else "preferred_username",
      else "". */
  function UpsertEmail(u: map<string, Value>): Value {
    Get(u, "email", Get(u, "preferred_username", Str("")))
  }

  /** In the id_token fallback the "email" key always exists, so the
      preferred username never becomes the email, even when the email
      claim is missing. */
  lemma FallbackNeverUsesPreferredUsername(t: map<string, Value>)
    requires !Truthy(Get(t, "userinfo", Null)) && Truthy(Get(t, "id_token", Null))
    requires Get(t, "id_token_claims", Dict(map[])).Dict?
    ensures UserClaims(t).Returned?
    ensures UpsertEmail(UserClaims(t).value) == Get(Get(t, "id_token_claims", Dict(map[])).fields, "email", Str(""))
  {
    assert "email" in UserClaims(t).value;
  }

  /** A claim as written to a string column: a string, or None for null.
      Any other JSON value is treated as a rejected write. */
  function Text(v: Value): Outcome<Option<string>> {
    match v
    case Null => Returned(None)
    case Str(s) => Returned(Some(s))
    case _ => Raised(TypeError)
  }

  /** The email, name and azure_id the callback asks the directory to
      upsert, or the exception raised before the upsert is reached: the
      library's own failure, a falsy token (400), a missing profile. */
  function UpsertRequest(g: Grant): (r: Outcome<(Option<string>, Option<string>, Option<string>)>)
    ensures g.Refused? ==> r == Raised(ProviderError)
    ensures g.Granted? && !Truthy(g.token) ==> r == Raised(HttpError(BadRequest, "Failed to get access token"))
    ensures g.Granted? && Truthy(g.token) && !g.token.Dict? ==> r == Raised(AttributeError)
    ensures g.Granted? && Truthy(g.token) && g.token.Dict? && UserClaims(g.token.fields).Raised? ==>
              r == Raised(UserClaims(g.token.fields).exc)
    ensures g.Granted? && Truthy(g.token) && g.token.Dict? && UserClaims(g.token.fields).Returned? ==>
              var u := UserClaims(g.token.fields).value;
              && (r.Returned? <==>
                    Text(UpsertEmail(u)).Returned? && Text(Get(u, "name", Str(""))).Returned?
                    && Text(Get(u, "sub", Str(""))).Returned?)
              && (r.Raised? ==> r.exc == TypeError)
    ensures r.Returned? ==>
              && g.Granted? && g.token.Dict? && UserClaims(g.token.fields).Returned?
              && var u := UserClaims(g.token.fields).value;
                 Text(UpsertEmail(u)) == Returned(r.value.0)
                 && Text(Get(u, "name", Str(""))) == Returned(r.value.1)
                 && Text(Get(u, "sub", Str(""))) == Returned(r.value.2)
  {
    match g
    case Refused => Raised(ProviderError)
    case Granted(token) =>
      if !Truthy(token) then Raised(HttpError(BadRequest, "Failed to get access token"))
      else if !token.Dict? then Raised(AttributeError)
      else match UserClaims(token.fields)
        case Raised(e) => Raised(e)
        case Returned(u) =>
          match Text(UpsertEmail(u))
          case Raised(e) => Raised(e)
          case Returned(email) =>
            match Text(Get(u, "name", Str("")))
            case Raised(e) => Raised(e)
            case Returned(name) =>
              match Text(Get(u, "sub", Str("")))
              case Raised(e) => Raised(e)
              case Returned(sub) => Returned((email, name, sub))
  }

  /** The dictionary stored under "user": the directory's email, name and
      id, and the token's access_token and token_type ("Bearer" when
      absent). */
  function SessionUser(u: User, t: map<string, Value>): Value {
    Dict(map["email" := OfText(u.email),
             "name" := OfText(u.name),
             "id" := Num(u.id),
             "access_token" := Get(t, "access_token", Null),
             "token_type" := Get(t, "token_type", Str("Bearer"))])
  }

  datatype Callback = Callback(result: Outcome<Response<()>>, session: Session, users: UserTable)

  /** `auth_callback`: every failure, including the handler's own
      HTTPExceptions, is caught and re-raised as a 400 carrying the
      message, with the session and the directory untouched. On success the
      upserted user is written under "user" and the browser goes home. */
  function AuthCallback(s: Session, users: UserTable, now: int, g: Grant): (c: Callback)
    ensures c.result.Raised? ==>
              && Status(c.result) == BadRequest
              && c.session == s && c.users == users
    ensures UpsertRequest(g).Raised? ==> c.result == Raised(Rewrapped(BadRequest, "", UpsertRequest(g).exc))
    ensures UpsertRequest(g).Returned? ==>
              var (email, name, sub) := UpsertRequest(g).value;
              var r := CreateOrUpdateUser(users, email, name, sub, now);
              && (c.result.Returned? <==> r.Returned?)
              && (r.Raised? ==> c.result == Raised(Rewrapped(BadRequest, "", r.exc)))
    ensures c.result.Returned? ==>
              && c.result.value == Home
              && UpsertRequest(g).Returned?
              && var (email, name, sub) := UpsertRequest(g).value;
                 var r := CreateOrUpdateUser(users, email, name, sub, now);
                 && r.Returned?
                 && c.users == r.value.1
                 && c.session == s["user" := SessionUser(r.value.0, g.token.fields)]
    ensures c.result.Returned? ==> IsAuthenticated(c.session) && c.session["user"].Dict?
    ensures c.result.Returned? && WellFormed(users) ==> WellFormed(c.users)
  {
    match UpsertRequest(g)
    case Raised(e) => Callback(Raised(Rewrapped(BadRequest, "", e)), s, users)
    case Returned((email, name, sub)) =>
      match CreateOrUpdateUser(users, email, name, sub, now)
      case Raised(e) => Callback(Raised(Rewrapped(BadRequest, "", e)), s, users)
      case Returned((u, users')) =>
        UpsertKeepsWellFormed(users, email, name, sub, now);
        Callback(Returned(Home), s["user" := SessionUser(u, g.token.fields)], users')
  }

  lemma UpsertKeepsWellFormed(t: UserTable, email: Option<string>, name: Option<string>,
                              azureId: Option<string>, now: int)
    requires CreateOrUpdateUser(t, email, name, azureId, now).Returned?
    ensures WellFormed(t) ==> WellFormed(CreateOrUpdateUser(t, email, name, azureId, now).value.1)
  {
    if WellFormed(t) {
      UpsertLeavesOneUserPerEmail(t, email, name, azureId, now);
    }
  }

  /** The stored user dictionary names the directory row the upsert
      returned: same email and id, and that row is in the directory. */
  lemma CallbackStoresDirectoryUser(s: Session, users: UserTable, now: int, g: Grant)
    requires WellFormed(users)
    requires AuthCallback(s, users, now, g).result.Returned?
    ensures var c := AuthCallback(s, users, now, g);
            var stored := c.session["user"].fields;
            && "id" in stored && stored["id"].Num?
            && exists u :: u in c.users.rows && stored["id"] == Num(u.id) && stored["email"] == OfText(u.email)
                        && u.email == UpsertRequest(g).value.0
  {
    var (email, name, sub) := UpsertRequest(g).value;
    var r := CreateOrUpdateUser(users, email, name, sub, now);
    UpsertLeavesOneUserPerEmail(users, email, name, sub, now);
    var u := r.value.0;
    assert u in AuthCallback(s, users, now, g).users.rows;
  }

  /** The round trip of a login: after a successful callback the session
      reads back, through `get_current_user`, the user dictionary of the
      upserted row, and a later `login` goes home without the provider,
      whatever the provider would have answered. */
  lemma CallbackThenCurrentUser(s: Session, users: UserTable, now: int, g: Grant, toProvider: Handled<Response<()>>)
    requires AuthCallback(s, users, now, g).result.Returned?
    ensures var s' := AuthCallback(s, users, now, g).session;
            var (email, name, sub) := UpsertRequest(g).value;
            && GetCurrentUser(s') == Some(SessionUser(CreateOrUpdateUser(users, email, name, sub, now).value.0,
                                                      g.token.fields))
            && Login(s', toProvider) == Handled(Returned(Home), s')
  {
  }

  /** A token whose userinfo names an email and an azure_id that no user
      holds yet logs a new user in: one row is appended under the next id,
      and the browser goes home. */
  lemma UserinfoLogsInNewUser(s: Session, users: UserTable, now: int, email: string, name: string, sub: string)
    requires GetUserByEmail(users, Some(email)).None?
    requires GetUserByAzureId(users, Some(sub)).None?
    ensures var info := Dict(map["email" := Str(email), "name" := Str(name), "sub" := Str(sub)]);
            var c := AuthCallback(s, users, now, Granted(Dict(map["userinfo" := info])));
            && c.result == Returned(Home)
            && c.users == UserTable(users.rows + [NewUser(users.nextId, Some(email), Some(name), Some(sub), now)],
                                    users.nextId + 1)
  {
    var info := Dict(map["email" := Str(email), "name" := Str(name), "sub" := Str(sub)]);
    var token := Dict(map["userinfo" := info]);
    assert "email" in info.fields && info.fields != map[];
    assert "userinfo" in token.fields && token.fields != map[];
    assert Truthy(info) && Truthy(token);
    assert UserClaims(token.fields) == Returned(info.fields);
    assert UpsertRequest(Granted(token)) == Returned((Some(email), Some(name), Some(sub)));
    assert EmailIndex(users, Some(email)) < 0;
  }
}

