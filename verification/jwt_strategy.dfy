/** `JwtStrategy.validate`: the principal attached to a request bearing a
    verified access token, merged from the token's claims and the stored
    user (looked up by `sub`; the lookup result is the second argument). */
module JwtStrategy {
  import opened Wrappers
  import opened AuthTypes
  import opened UserStore
  import Jwt
  import Auth

  function Validate(payload: JwtPayload, user: Option<User>): (a: AuthUser)
    ensures a.id == payload.sub
    ensures a.roles == Some(payload.roles.GetOr([]))
    ensures user.None? ==>
              a.email == payload.email && a.name == payload.name
              && a.avatarUrl == payload.avatarUrl && a.avatarSource == payload.avatarSource
    ensures user.Some? ==>
              && (user.value.email.Some? ==> a.email == user.value.email)
              && (user.value.email.None? ==> a.email == payload.email)
              && (user.value.name.Some? ==> a.name == user.value.name)
              && (user.value.name.None? ==> a.name == payload.name)
              && (user.value.avatarUrl.Some? ==> a.avatarUrl == user.value.avatarUrl)
              && (user.value.avatarUrl.None? ==> a.avatarUrl == payload.avatarUrl)
              && (user.value.avatarSource.Some? ==> a.avatarSource == user.value.avatarSource)
              && (user.value.avatarSource.None? ==> a.avatarSource == payload.avatarSource)
  {
    match user
    case None =>
      AuthUser(payload.sub, payload.email, payload.name, payload.avatarUrl, payload.avatarSource,
               Some(payload.roles.GetOr([])))
    case Some(u) =>
      AuthUser(payload.sub, u.email.OrElse(payload.email), u.name.OrElse(payload.name),
               u.avatarUrl.OrElse(payload.avatarUrl), u.avatarSource.OrElse(payload.avatarSource),
               Some(payload.roles.GetOr([])))
  }

  /** An access token issued for a stored user yields, for that user, the
      stored profile with the roles the token was issued with. */
  lemma IssuedTokenPrincipal(u: User, c: Auth.AuthConfig)
    ensures var p := Jwt.Verify(Auth.IssueTokens(Auth.SanitizeUser(u), c).accessToken, c.AccessSecret());
            p.Some? && Validate(p.value, Some(u))
                       == AuthUser(u.id, u.email, u.name, u.avatarUrl, u.avatarSource, Some(u.roles))
  {
  }

  /** Roles come from the token only: a user whose stored roles changed
      keeps the roles the token was issued with until it is reissued. */
  lemma RolesFromTokenOnly(payload: JwtPayload, u: User, roles: seq<string>)
    ensures Validate(payload, Some(u.(roles := roles))) == Validate(payload, Some(u))
  {
  }
}
