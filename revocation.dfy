/** The token-revocation path end to end: logout writes the blacklist, the
    JWT filter reads it, and the sweep eventually forgets expired entries. */
module Revocation {
  import opened Common
  import opened Jwt
  import opened JwtFilter
  import opened SecurityConfig
  import opened UserInfo
  import TokenBlacklist

  /** After a successful logout, any request presenting the revoked token
      while it still validates is refused with 401, on any path. */
  lemma LogoutThenRefused(authHeader: string, jwt: JwtUtil, blacklist: map<string, int>, head: RequestHead)
    requires RevocationFor(authHeader, jwt).Ok?
    requires var r := RevocationFor(authHeader, jwt).value;
      jwt.validateToken(r.token) && ExtractToken(head) == Some(r.token)
    ensures var r := RevocationFor(authHeader, jwt).value;
      Handle(head, jwt, blacklist[r.token := r.expiresAt]) == RevokedToken
  {
  }

  /** Logout with "Bearer " + t, then a request carrying t in its first
      `accessToken` cookie: refused with 401. */
  lemma BearerLogoutThenCookieRefused(t: string, jwt: JwtUtil, blacklist: map<string, int>, head: RequestHead, i: nat)
    requires jwt.validateToken(t) && jwt.getExpirationDateFromToken(t).Some?
    requires head.cookies.Some? && i < |head.cookies.value|
    requires head.cookies.value[i] == Cookie(AccessTokenCookie, t)
    requires forall j :: 0 <= j < i ==> head.cookies.value[j].name != AccessTokenCookie
    ensures RevocationFor(BearerPrefix + t, jwt) == Ok(Revocation(t, jwt.getExpirationDateFromToken(t).value))
    ensures Handle(head, jwt, blacklist[t := jwt.getExpirationDateFromToken(t).value]) == RevokedToken
  {
  }

  /** Logout with "Bearer " + t, then a request with no `accessToken`
      cookie and the same header: refused with 401. */
  lemma BearerLogoutThenHeaderRefused(t: string, jwt: JwtUtil, blacklist: map<string, int>, head: RequestHead)
    requires jwt.validateToken(t) && jwt.getExpirationDateFromToken(t).Some?
    requires !HasCookie(head.cookies, AccessTokenCookie)
    requires head.authorization == Some(BearerPrefix + t)
    ensures RevocationFor(BearerPrefix + t, jwt) == Ok(Revocation(t, jwt.getExpirationDateFromToken(t).value))
    ensures Handle(head, jwt, blacklist[t := jwt.getExpirationDateFromToken(t).value]) == RevokedToken
  {
  }

  /** Sweeps at or before the token's expiry keep it revoked; the filter
      never looks at the stored expiry, so until such a sweep runs the
      token stays revoked even past its expiry. */
  lemma RevokedUntilSweptPastExpiry(t: string, e: int, now: int, jwt: JwtUtil, blacklist: map<string, int>, head: RequestHead)
    requires now <= e
    requires jwt.validateToken(t) && ExtractToken(head) == Some(t)
    ensures t in TokenBlacklist.Sweep(blacklist[t := e], now)
    ensures Handle(head, jwt, TokenBlacklist.Sweep(blacklist[t := e], now)) == RevokedToken
  {
  }

  /** A sweep after the token's expiry forgets it; from then on only the
      token codec's own expiry check keeps it out. */
  lemma SweepPastExpiryForgets(t: string, e: int, now: int, blacklist: map<string, int>)
    requires e < now
    ensures t !in TokenBlacklist.Sweep(blacklist[t := e], now)
    ensures t in TokenBlacklist.Expired(blacklist[t := e], now)
  {
  }

  /** Logout revokes the header's token while the filter prefers the
      cookie: a caller whose `accessToken` cookie differs from the header's
      bearer token keeps access with the cookie after logging out. */
  lemma CookieTokenSurvivesHeaderLogout(t1: string, t2: string, u: string, jwt: JwtUtil,
                                        blacklist: map<string, int>, head: RequestHead)
    requires t1 != t2 && t1 !in blacklist
    requires jwt.validateToken(t1) && jwt.getUserIdFromToken(t1) == Returns(u)
    requires jwt.getExpirationDateFromToken(t2).Some?
    requires head.cookies == Some([Cookie(AccessTokenCookie, t1)])
    requires head.authorization == Some(BearerPrefix + t2)
    ensures RevocationFor(BearerPrefix + t2, jwt).Ok?
    ensures var r := RevocationFor(BearerPrefix + t2, jwt).value;
      Handle(head, jwt, blacklist[r.token := r.expiresAt]) == Dispatched(Some(Authentication(Some(u))))
  {
  }

  /** The same path through the objects: a controller and a filter sharing
      one blacklist; after a successful logout a request carrying the token
      in its `accessToken` cookie gets 401 and the chain never runs. */
  method LogoutThenRequest(controller: UserInfoController, filter: JwtAuthenticationFilter,
                           t: string, userId: string)
    returns (logout: LogoutResponse, response: HttpServletResponse, chain: FilterChain)
    requires controller.tokenBlacklistService == filter.tokenBlacklistService
    requires controller.jwtUtil == filter.jwtUtil
    requires filter.jwtUtil.validateToken(t) && filter.jwtUtil.getExpirationDateFromToken(t).Some?
    modifies controller.tokenBlacklistService
    ensures logout == Confirmed(LogoutMessage)
    ensures t in filter.tokenBlacklistService.blacklist
    ensures response.status == Unauthorized && chain.invocations == 0
  {
    var context := new SecurityContext();
    BearerRevocation(t, controller.jwtUtil);
    logout := controller.Logout(userId, BearerPrefix + t, context);
    var request := new HttpServletRequest(RequestHead(Some([Cookie(AccessTokenCookie, t)]), None, "/api/blog/categories"));
    response := new HttpServletResponse();
    chain := new FilterChain();
    CookieWins(request.head, 0);
    filter.DoFilterInternal(request, response, chain, context);
  }
}
