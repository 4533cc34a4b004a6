/** The HTTP security configuration: which paths are open, the rule that
    every other request needs an authenticated caller, where the JWT filter
    sits, and the CORS policy. */
module SecurityConfig {
  import opened Common
  import opened Jwt
  import opened JwtFilter

  /** The `permitAll` request matchers. */
  const PermitAllPaths: set<string> := {
    "/api/users/login",
    "/api/users/register",
    "/error",
    "/api/users/forgotPassword",
    "/api/users/changePassword"
  }

  const LogoutPath: string := "/api/users/logout"

  /** `anyRequest().authenticated()`: everything not permitted needs an
      authenticated caller. */
  predicate RequiresAuthentication(path: string)
  {
    path !in PermitAllPaths
  }

  /** How a request leaves the security layer. */
  datatype RequestOutcome =
    | RevokedToken                         // the JWT filter wrote 401
    | ExceptionResolved                    // the JWT filter handed an exception to the resolver
    | AccessDenied                         // authorization refused an unauthenticated caller
    | Dispatched(authentication: Option<Authentication>) // the request reaches its controller, with this caller

  /** The JWT filter is added before the username/password filter, so it
      runs before the authorization decision, which then sees the identity
      the filter established (or none). */
  function Handle(head: RequestHead, jwt: JwtUtil, blacklist: map<string, int>): RequestOutcome
  {
    match Decide(ExtractToken(head), jwt, blacklist)
    case Reject => RevokedToken
    case Resolve => ExceptionResolved
    case PassAuthenticated(u) => Dispatched(Some(Authentication(u)))
    case PassAnonymous => if RequiresAuthentication(head.path) then AccessDenied else Dispatched(None)
  }

  /** Exactly the five listed paths are open; logout is not among them. */
  lemma OpenPathsExactly(path: string)
    ensures !RequiresAuthentication(path) <==>
      path == "/api/users/login" || path == "/api/users/register" || path == "/error" ||
      path == "/api/users/forgotPassword" || path == "/api/users/changePassword"
    ensures RequiresAuthentication(LogoutPath)
  {
  }

  /** A protected path is reached only with the authentication built for a
      valid, unrevoked token whose subject lookup did not throw; its
      principal is that token's subject, which may be null. */
  lemma ProtectedNeedsIdentity(head: RequestHead, jwt: JwtUtil, blacklist: map<string, int>)
    requires RequiresAuthentication(head.path)
    requires Handle(head, jwt, blacklist).Dispatched?
    ensures var t := ExtractToken(head);
      && t.Some? && jwt.validateToken(t.value) && t.value !in blacklist
      && !jwt.getUserIdFromToken(t.value).Throws?
      && Handle(head, jwt, blacklist).authentication == Some(Authentication(jwt.getUserIdFromToken(t.value).OrNull()))
  {
  }

  /** A valid, unrevoked token whose subject is null still authenticates:
      the request reaches any path, protected ones included, with a null
      principal. */
  lemma NullSubjectAuthenticated(head: RequestHead, jwt: JwtUtil, blacklist: map<string, int>, t: string)
    requires ExtractToken(head) == Some(t) && jwt.validateToken(t) && t !in blacklist
    requires jwt.getUserIdFromToken(t) == ReturnsNull
    ensures Handle(head, jwt, blacklist) == Dispatched(Some(Authentication(None)))
  {
  }

  /** A request to a protected path presenting no token is refused. */
  lemma NoTokenRefused(head: RequestHead, jwt: JwtUtil, blacklist: map<string, int>)
    requires RequiresAuthentication(head.path)
    requires !HasCookie(head.cookies, AccessTokenCookie)
    requires head.authorization.None? || !StartsWith(head.authorization.value, BearerPrefix)
    ensures Handle(head, jwt, blacklist) == AccessDenied
  {
  }

  /** Because the filter runs on every path, a valid revoked token is
      refused with 401 even on an open path. */
  lemma RevokedEverywhere(head: RequestHead, jwt: JwtUtil, blacklist: map<string, int>, t: string)
    requires ExtractToken(head) == Some(t) && jwt.validateToken(t) && t in blacklist
    ensures Handle(head, jwt, blacklist) == RevokedToken
  {
  }

  /** The CORS configuration registered for every path. */
  datatype CorsConfiguration = CorsConfiguration(
    allowedOrigins: seq<string>,
    allowedMethods: seq<string>,
    allowedHeaders: seq<string>,
    allowCredentials: bool,
    maxAge: int)

  const CorsPattern: string := "/**"

  const Cors: CorsConfiguration := CorsConfiguration(
    ["http://localhost:5173", "http://localhost"],
    ["GET", "POST", "PUT", "DELETE", "OPTIONS"],
    ["*"],
    true,
    3600)

  /** The CORS source: one configuration, registered for every path. */
  const CorsRegistrations: map<string, CorsConfiguration> := map[CorsPattern := Cors]

  /** One registration, for every path: two origins, five methods, any header,
      credentials, one hour. */
  lemma CorsPolicy()
    ensures CorsRegistrations.Keys == {"/**"} && CorsRegistrations["/**"] == Cors
    ensures Cors.allowedHeaders == ["*"]
    ensures |Cors.allowedOrigins| == 2 && Cors.allowedOrigins[0] != Cors.allowedOrigins[1]
    ensures forall o :: o in Cors.allowedOrigins <==> o == "http://localhost:5173" || o == "http://localhost"
    ensures forall m :: m in Cors.allowedMethods <==> m in {"GET", "POST", "PUT", "DELETE", "OPTIONS"}
    ensures "PATCH" !in Cors.allowedMethods && "HEAD" !in Cors.allowedMethods
    ensures Cors.allowCredentials && Cors.maxAge == 3600
  {
  }
}
