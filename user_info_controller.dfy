/** The logout endpoint: the only producer of blacklist entries. */
module UserInfo {
  import opened Common
  import opened Jwt
  import opened JwtFilter
  import TokenBlacklist

  const LogoutMessage: string := "로그아웃이 성공적으로 완료되었습니다."
  const StatusOk: int := 200
  const StatusBadRequest: int := 400

  /** Why logout fails: the header is shorter than seven characters
      (`substring(7)` throws), or the token's expiry cannot be read. */
  datatype LogoutError = HeaderTooShort | ExpiryUnreadable

  /** The response: 200 with the confirmation, or 400 with an error body
      (the exception's own message text is not modelled). */
  datatype LogoutResponse = Confirmed(message: string) | Failed(error: LogoutError)
  {
    function Status(): int
    {
      if Confirmed? then StatusOk else StatusBadRequest
    }
  }

  /** The entry a logout writes into the blacklist. */
  datatype Revocation = Revocation(token: string, expiresAt: int)

  /** What logout revokes for a given `Authorization` header: the header
      minus its first seven characters, whatever they are, paired with that
      token's expiry. */
  function RevocationFor(authHeader: string, jwt: JwtUtil): Result<Revocation, LogoutError>
  {
    if |authHeader| < 7 then Err(HeaderTooShort)
    else match jwt.getExpirationDateFromToken(authHeader[7..])
      case None => Err(ExpiryUnreadable)
      case Some(e) => Ok(Revocation(authHeader[7..], e))
  }

  /** The first seven characters are dropped unchecked: a non-"Bearer "
      header revokes its own tail just the same. */
  lemma PrefixNotChecked(h1: string, h2: string, jwt: JwtUtil)
    requires |h1| >= 7 && |h2| >= 7 && h1[7..] == h2[7..]
    ensures RevocationFor(h1, jwt) == RevocationFor(h2, jwt)
  {
  }

  /** For a "Bearer " header the revoked token is exactly the bearer token,
      and it is revoked until its own expiry. */
  lemma BearerRevocation(t: string, jwt: JwtUtil)
    ensures match jwt.getExpirationDateFromToken(t)
      case None => RevocationFor(BearerPrefix + t, jwt) == Err(ExpiryUnreadable)
      case Some(e) => RevocationFor(BearerPrefix + t, jwt) == Ok(Revocation(t, e))
  {
  }

  class UserInfoController {
    const jwtUtil: JwtUtil
    const tokenBlacklistService: TokenBlacklist.TokenBlacklistService

    constructor (jwtUtil: JwtUtil, tokenBlacklistService: TokenBlacklist.TokenBlacklistService)
      ensures this.jwtUtil == jwtUtil && this.tokenBlacklistService == tokenBlacklistService
    {
      this.jwtUtil := jwtUtil;
      this.tokenBlacklistService := tokenBlacklistService;
    }

    /** On success the blacklist gains the revocation entry and the security
        context is cleared; on failure neither changes. */
    method Logout(userId: string, authHeader: string, context: SecurityContext) returns (response: LogoutResponse)
      modifies tokenBlacklistService, context
      ensures match RevocationFor(authHeader, jwtUtil)
        case Ok(r) =>
          && tokenBlacklistService.blacklist == old(tokenBlacklistService.blacklist)[r.token := r.expiresAt]
          && context.authentication == None
          && response == Confirmed(LogoutMessage) && response.Status() == StatusOk
        case Err(e) =>
          && unchanged(tokenBlacklistService) && unchanged(context)
          && response == Failed(e) && response.Status() == StatusBadRequest
    {
      if |authHeader| < 7 {
        return Failed(HeaderTooShort);
      }
      var token := authHeader[7..];
      var expiration := jwtUtil.getExpirationDateFromToken(token);
      if expiration.None? {
        return Failed(ExpiryUnreadable);
      }
      tokenBlacklistService.AddToBlacklist(token, expiration.value);
      context.ClearContext();
      response := Confirmed(LogoutMessage);
    }
  }
}
