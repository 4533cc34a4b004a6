/** The per-request authenticator: finds the access token on the request,
    validates it, refuses revoked tokens and attaches the caller's identity. */
module JwtFilter {
  import opened Common
  import opened Jwt
  import TokenBlacklist

  const AccessTokenCookie: string := "accessToken"
  const BearerPrefix: string := "Bearer "
  const UserIdAttribute: string := "userId"
  const Unauthorized: int := 401
  const RevokedMessage: string := "토큰이 무효화되었습니다."

  datatype Cookie = Cookie(name: string, value: string)

  /** The immutable parts of a request that the security layer reads:
      the cookie array (None when `getCookies()` is null), the
      `Authorization` header (None when absent) and the path. */
  datatype RequestHead = RequestHead(cookies: Option<seq<Cookie>>, authorization: Option<string>, path: string)

  /** Position of the first cookie called `name`, or |cookies| if none is. */
  function FirstCookieIndex(cookies: seq<Cookie>, name: string): (i: nat)
    ensures i <= |cookies|
    ensures forall j :: 0 <= j < i ==> cookies[j].name != name
    ensures i < |cookies| ==> cookies[i].name == name
  {
    if cookies == [] then 0
    else if cookies[0].name == name then 0
    else 1 + FirstCookieIndex(cookies[1..], name)
  }

  /** Whether any cookie carries `name`. */
  predicate HasCookie(cookies: Option<seq<Cookie>>, name: string)
  {
    cookies.Some? && exists c :: c in cookies.value && c.name == name
  }

  /** The token a request presents: the value of the first `accessToken`
      cookie; failing that, an `Authorization` header starting with
      "Bearer " minus those seven characters; failing that, none. */
  function ExtractToken(head: RequestHead): Option<string>
  {
    if head.cookies.Some? && FirstCookieIndex(head.cookies.value, AccessTokenCookie) < |head.cookies.value| then
      Some(head.cookies.value[FirstCookieIndex(head.cookies.value, AccessTokenCookie)].value)
    else if head.authorization.Some? && StartsWith(head.authorization.value, BearerPrefix) then
      Some(head.authorization.value[|BearerPrefix|..])
    else
      None
  }

  /** A request carrying an `accessToken` cookie presents the first such
      cookie's value, whatever its `Authorization` header says. */
  lemma CookieWins(head: RequestHead, i: nat)
    requires head.cookies.Some? && i < |head.cookies.value|
    requires head.cookies.value[i].name == AccessTokenCookie
    requires forall j :: 0 <= j < i ==> head.cookies.value[j].name != AccessTokenCookie
    ensures ExtractToken(head) == Some(head.cookies.value[i].value)
  {
  }

  /** Without an `accessToken` cookie, "Bearer " + t presents t. */
  lemma BearerHeaderPresents(head: RequestHead, t: string)
    requires !HasCookie(head.cookies, AccessTokenCookie)
    requires head.authorization == Some(BearerPrefix + t)
    ensures ExtractToken(head) == Some(t)
  {
  }

  /** No token is presented exactly when there is no `accessToken` cookie
      and no header with the case-sensitive "Bearer " prefix. */
  lemma NoTokenExactly(head: RequestHead)
    ensures ExtractToken(head).None? <==>
      !HasCookie(head.cookies, AccessTokenCookie) &&
      !(head.authorization.Some? && StartsWith(head.authorization.value, BearerPrefix))
  {
  }

  /** An authentication placed in the security context. The filter builds
      it with the three-argument constructor, so it is authenticated even
      when its principal is null (None). */
  datatype Authentication = Authentication(principal: Option<string>)

  /** The outcome of the filter for one request. */
  datatype FilterDecision =
    | PassAnonymous                            // the chain runs with no identity
    | Reject                                   // 401 written, the chain does not run
    | PassAuthenticated(userId: Option<string>) // identity attached (possibly a null subject), the chain runs
    | Resolve                                  // an exception went to the resolver

  /** The decision for a presented token against the current blacklist. */
  function Decide(token: Option<string>, jwt: JwtUtil, blacklist: map<string, int>): FilterDecision
  {
    if token.None? || !jwt.validateToken(token.value) then PassAnonymous
    else if token.value in blacklist then Reject
    else match jwt.getUserIdFromToken(token.value)
      case Throws => Resolve
      case ReturnsNull => PassAuthenticated(None)
      case Returns(u) => PassAuthenticated(Some(u))
  }

  /** The four-way decision: refused exactly for a valid, listed token;
      handed to the resolver exactly when the subject lookup of a valid,
      unlisted token throws; authenticated with the looked-up subject (a
      null one included) exactly when it does not throw; passed anonymously
      exactly for a missing or invalid token. */
  lemma DecideCases(token: Option<string>, jwt: JwtUtil, blacklist: map<string, int>)
    ensures Decide(token, jwt, blacklist) == Reject <==>
      token.Some? && jwt.validateToken(token.value) && token.value in blacklist
    ensures Decide(token, jwt, blacklist) == PassAnonymous <==>
      token.None? || !jwt.validateToken(token.value)
    ensures Decide(token, jwt, blacklist) == Resolve <==>
      token.Some? && jwt.validateToken(token.value) && token.value !in blacklist &&
      jwt.getUserIdFromToken(token.value).Throws?
    ensures forall p :: Decide(token, jwt, blacklist) == PassAuthenticated(p) <==>
      token.Some? && jwt.validateToken(token.value) && token.value !in blacklist &&
      !jwt.getUserIdFromToken(token.value).Throws? && p == jwt.getUserIdFromToken(token.value).OrNull()
  {
  }

  /** The blacklist is consulted only for tokens that validate. */
  lemma BlacklistOnlyForValidTokens(token: Option<string>, jwt: JwtUtil, b1: map<string, int>, b2: map<string, int>)
    requires token.None? || !jwt.validateToken(token.value)
    ensures Decide(token, jwt, b1) == Decide(token, jwt, b2) == PassAnonymous
  {
  }

  class HttpServletRequest {
    const head: RequestHead
    var attributes: map<string, string>

    constructor (head: RequestHead)
      ensures this.head == head && attributes == map[]
    {
      this.head := head;
      attributes := map[];
    }

    /** `setAttribute`: a null value removes the attribute. */
    method SetAttribute(name: string, value: Option<string>)
      modifies this`attributes
      ensures value.Some? ==> attributes == old(attributes)[name := value.value]
      ensures value.None? ==> attributes == old(attributes) - {name}
    {
      if value.Some? {
        attributes := attributes[name := value.value];
      } else {
        attributes := attributes - {name};
      }
    }
  }

  class HttpServletResponse {
    var status: int
    var body: string
    /** Set once an exception has been handed to the exception resolver. */
    var resolved: bool

    constructor ()
      ensures status == 200 && body == "" && !resolved
    {
      status, body, resolved := 200, "", false;
    }
  }

  /** The rest of the filter chain, observed through how often it ran. */
  class FilterChain {
    var invocations: nat

    constructor ()
      ensures invocations == 0
    {
      invocations := 0;
    }

    method DoFilter()
      modifies this
      ensures invocations == old(invocations) + 1
    {
      invocations := invocations + 1;
    }
  }

  /** The authentication holder for the current request (None: nobody). */
  class SecurityContext {
    var authentication: Option<Authentication>

    constructor ()
      ensures authentication == None
    {
      authentication := None;
    }

    method SetAuthentication(a: Authentication)
      modifies this
      ensures authentication == Some(a)
    {
      authentication := Some(a);
    }

    method ClearContext()
      modifies this
      ensures authentication == None
    {
      authentication := None;
    }
  }

  class JwtAuthenticationFilter {
    const jwtUtil: JwtUtil
    const tokenBlacklistService: TokenBlacklist.TokenBlacklistService

    constructor (jwtUtil: JwtUtil, tokenBlacklistService: TokenBlacklist.TokenBlacklistService)
      ensures this.jwtUtil == jwtUtil && this.tokenBlacklistService == tokenBlacklistService
    {
      this.jwtUtil := jwtUtil;
      this.tokenBlacklistService := tokenBlacklistService;
    }

    /** One pass of the filter. The blacklist is only read; what changes is
        what `Decide` prescribes for the presented token. */
    method DoFilterInternal(request: HttpServletRequest, response: HttpServletResponse,
                            chain: FilterChain, context: SecurityContext)
      modifies request`attributes, response, chain, context
      ensures match Decide(ExtractToken(request.head), jwtUtil, tokenBlacklistService.blacklist)
        case PassAnonymous =>
          && chain.invocations == old(chain.invocations) + 1
          && request.attributes == old(request.attributes)
          && unchanged(context) && unchanged(response)
        case Reject =>
          && response.status == Unauthorized
          && response.body == old(response.body) + RevokedMessage
          && response.resolved == old(response.resolved)
          && chain.invocations == old(chain.invocations)
          && request.attributes == old(request.attributes)
          && unchanged(context)
        case PassAuthenticated(u) =>
          && context.authentication == Some(Authentication(u))
          && (u.Some? ==> request.attributes == old(request.attributes)[UserIdAttribute := u.value])
          && (u.None? ==> request.attributes == old(request.attributes) - {UserIdAttribute})
          && chain.invocations == old(chain.invocations) + 1
          && unchanged(response)
        case Resolve =>
          && response.resolved
          && response.status == old(response.status) && response.body == old(response.body)
          && chain.invocations == old(chain.invocations)
          && request.attributes == old(request.attributes)
          && unchanged(context)
    {
      var token := ExtractToken(request.head);
      if token.Some? && jwtUtil.validateToken(token.value) {
        var listed := tokenBlacklistService.IsBlacklisted(token.value);
        if listed {
          response.status := Unauthorized;
          response.body := response.body + RevokedMessage;
          return;
        }
        var subject := jwtUtil.getUserIdFromToken(token.value);
        if subject.Throws? {
          response.resolved := true;
          return;
        }
        var userId := subject.OrNull();
        context.SetAuthentication(Authentication(userId));
        request.SetAttribute(UserIdAttribute, userId);
      }
      chain.DoFilter();
    }
  }
}
