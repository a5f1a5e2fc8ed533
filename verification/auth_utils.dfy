/** The session guard of app/auth/utils.py: `verify_token` decides, from the
    session and the current instant, whether a request may proceed. */
module AuthUtils {
  import opened Values
  import opened Http

  /** The keys a logged-in session must hold. */
  const RequiredKeys: set<string> := {"user", "access_token", "token_expires_at"}

  /** The redirect every rejection answers with: 303 to the login page. */
  const ToLogin: Response<()> := Redirect(Path("/auth/login"), SeeOther)

  predicate HasRequiredKeys(s: Session) {
    RequiredKeys <= s.Keys
  }

  /** Logged in and the token's expiry instant is still in the future. */
  predicate Live(s: Session, now: int) {
    HasRequiredKeys(s) && s["token_expires_at"].Num? && now < s["token_expires_at"].n
  }

  /** Logged in, but the expiry instant has been reached: an expiry equal
      to the current instant already counts. */
  predicate Expired(s: Session, now: int) {
    HasRequiredKeys(s) && s["token_expires_at"].Num? && now >= s["token_expires_at"].n
  }

  /** `verify_token`: None when the request may proceed, otherwise the
      redirect to the login page. An expired session is emptied entirely
      before the redirect. Comparing the clock with a stored expiry that is
      not a number raises TypeError. */
  function VerifyToken(s: Session, now: int): (c: Handled<Option<Response<()>>>)
    ensures c.result == Returned(None) <==> Live(s, now)
    ensures c.result.Returned? && c.result.value.Some? ==> c.result.value == Some(ToLogin)
    ensures c.result.Raised? <==> HasRequiredKeys(s) && !s["token_expires_at"].Num?
    ensures c.result.Raised? ==> c.result.exc == TypeError
    ensures !HasRequiredKeys(s) ==> c.result == Returned(Some(ToLogin)) && c.session == s
    ensures Expired(s, now) ==> c.result == Returned(Some(ToLogin)) && c.session == map[]
    ensures !Expired(s, now) ==> c.session == s
  {
    if !HasRequiredKeys(s) then Handled(Returned(Some(ToLogin)), s)
    else match s["token_expires_at"]
      case Num(expiresAt) =>
        if now >= expiresAt then Handled(Returned(Some(ToLogin)), map[])
        else Handled(Returned(None), s)
      case _ => Handled(Raised(TypeError), s)
  }

  /** Passing at `t` implies passing at every earlier instant; expiring at
      `t` implies expiring at every later one. */
  lemma GuardIsMonotone(s: Session, t: int, t': int)
    ensures t' <= t && VerifyToken(s, t).result == Returned(None) ==>
              VerifyToken(s, t').result == Returned(None)
    ensures t <= t' && Expired(s, t) ==>
              VerifyToken(s, t').result == Returned(Some(ToLogin)) && VerifyToken(s, t').session == map[]
  {
  }

  /** Once the guard has redirected, asking again at any instant redirects
      again; after an expiry the second call fails on the missing keys. */
  lemma RedirectIsSticky(s: Session, now: int, later: int)
    requires VerifyToken(s, now).result == Returned(Some(ToLogin))
    ensures VerifyToken(VerifyToken(s, now).session, later).result == Returned(Some(ToLogin))
    ensures Expired(s, now) ==> !HasRequiredKeys(VerifyToken(s, now).session)
  {
  }
}
