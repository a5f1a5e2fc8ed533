/** The two session layouts side by side. app/auth/route.py stores a display
    name string plus token and expiry keys; app/auth/auth.py stores a user
    dictionary with an id. Each layout satisfies one guard and breaks the
    code written for the other. */
module Schemes {
  import opened Values
  import opened Http
  import AuthUtils
  import AuthRoute
  import AuthScheme
  import AuthModels
  import ChatModels
  import ChatRoutes

  /** A login through app/auth/route.py counts as logged in for the chat
      endpoints, but its "user" is not a dictionary, so reading the user's
      id raises and every gated chat request on an existing session, and
      every session creation, ends in a 500. */
  lemma RouteLoginBreaksChatEndpoints(s: Session, now: int, cfg: AuthRoute.Config,
                                                         code: Option<string>, error: Option<string>,
                                                         idp: AuthRoute.Provider, t: ChatModels.ChatTables,
                                                         chatId: int, title: string)
    requires AuthRoute.AuthCallback(s, now, cfg, code, error, idp).result.Returned?
    requires !AuthRoute.AuthCallback(s, now, cfg, code, error, idp).session["user"].Dict?
    requires ChatModels.SessionExists(t, chatId)
    ensures var s' := AuthRoute.AuthCallback(s, now, cfg, code, error, idp).session;
            && AuthScheme.IsAuthenticated(s')
            && ChatRoutes.Gate(s', t, chatId) == Raised(TypeError)
            && ChatRoutes.CreateSession(s', t, title, now) == (Raised(TypeError), t)
            && Status(ChatRoutes.GetSessionMessages(s', t, chatId)) == ServerError
  {
    var s' := AuthRoute.AuthCallback(s, now, cfg, code, error, idp).session;
    assert "user" in s';
    assert ChatRoutes.UserId(s'["user"]) == Raised(TypeError);
  }

  /** A login through app/auth/auth.py writes only "user", so a session
      that held no expiry before still holds none, and `verify_token`
      sends it back to the login page at every instant. */
  lemma LibraryLoginFailsTokenGuard(s: Session, users: AuthModels.UserTable, now: int,
                                                       g: AuthScheme.Grant, later: int)
    requires AuthScheme.AuthCallback(s, users, now, g).result.Returned?
    requires "token_expires_at" !in s
    ensures var s' := AuthScheme.AuthCallback(s, users, now, g).session;
            && AuthScheme.IsAuthenticated(s')
            && AuthUtils.VerifyToken(s', later) == Handled(Returned(Some(AuthUtils.ToLogin)), s')
  {
    var s' := AuthScheme.AuthCallback(s, users, now, g).session;
    assert s'.Keys == s.Keys + {"user"};
    assert !AuthUtils.HasRequiredKeys(s');
  }
}
