# Token revocation and request gating of the exceed blog backend, in Dafny

This project models the part of the Spring blog backend that carries state
and security decisions, together with a few small pure cores beside it:

- **Blacklist store** (`TokenBlacklist`): `TokenBlacklistService` as a class
  holding `blacklist: map<string, int>` (token to expiry in epoch
  milliseconds), with insert, membership and the expiry sweep. The sweep is
  a loop over the keys that drops entries whose expiry is strictly before
  `now`. Each method's new state is tied to the old one. The sweep is
  specified by the function `Sweep`, and lemmas state what it keeps, that it
  is a submap, that it is idempotent and how many entries it removes. The
  sweep returns that count. The source computes it and only logs it.
- **Request authenticator** (`JwtFilter`): `extractToken` as a function over
  the cookie array and the `Authorization` header, and `doFilterInternal` as
  a method over request, response, filter chain and security-context
  objects. The method's effect is tied to the pure decision `Decide`: pass
  anonymously, refuse with 401, attach the subject and pass, or hand an
  exception to the resolver.
- **Security configuration** (`SecurityConfig`): the permit-all path set,
  "every other request is authenticated", and the filter placed before
  authorization, composed in `Handle`. Also the CORS constants.
- **Logout** (`UserInfo`): `UserInfoController.logout` as a method that
  writes the shared blacklist and clears the security context on success.
  It leaves both untouched on its two failure paths. `RevocationFor` is
  its pure specification.
- **End to end** (`Revocation`): after logout, the token is refused with
  401 by the filter until a sweep past its expiry removes it. Logout
  revokes the header's token while the filter prefers the cookie.
- **Paging** (`BlogService`): offset and page count in Java `int`
  arithmetic, including wrap-around and the `size <= 0` cases of the
  double computation.
- **Image upload** (`BlogController`): the emptiness and 50 MiB checks,
  the extension taken from the last `.`, and URL composition.
- **Error codes** (`ErrorCodes`, `RegisterResponses`): the six constants and
  the `success()`/`fail(e)` builders.

The token codec (`JwtUtil`) is not part of this model. Its three operations
are supplied as arbitrary functions in the `Jwt.JwtUtil` value. The subject
lookup returns a subject, returns null or throws (`Jwt.Lookup`). The expiry
lookup gives `None` where it throws or yields a null date. The clock is the
`now` parameter of the sweep.

Three facts about the code shape the model:
- The sweep removes only entries whose expiry is strictly before `now`; an
  entry expiring at `now` survives.
- Logout fails with 400 when the header is shorter than seven characters or
  the expiry cannot be read. It then changes neither the blacklist nor the
  security context.
- The code has no refresh-token rotation.

## Model

| member | source | states |
|---|---|---|
| TokenBlacklist.TokenBlacklistService.constructor | src/main/java/com/blog/exceed/service/TokenBlacklistService.java:23-29 | the store starts empty |
| TokenBlacklist.TokenBlacklistService.AddToBlacklist | src/main/java/com/blog/exceed/service/TokenBlacklistService.java:42-45 | afterwards the token maps to the given expiry (a repeat insert overwrites, leaving one entry), and every other key and value is unchanged |
| TokenBlacklist.TokenBlacklistService.IsBlacklisted | src/main/java/com/blog/exceed/service/TokenBlacklistService.java:57-63 | the answer is key membership only, independent of the stored expiry; the store is not modified |
| TokenBlacklist.TokenBlacklistService.RemoveExpiredTokens | src/main/java/com/blog/exceed/service/TokenBlacklistService.java:72-89 | the new map is exactly the old entries with expiry >= now, values unchanged; the returned beforeSize - size equals the number of entries with expiry < now and is >= 0 |
| TokenBlacklist.SweepKeeps | src/main/java/com/blog/exceed/service/TokenBlacklistService.java:76-83 | a sweep keeps a token iff it is present with expiry >= now (an expiry equal to now survives), with its value |
| TokenBlacklist.SweepIsSubmap | src/main/java/com/blog/exceed/service/TokenBlacklistService.java:76-83 | a sweep adds no key and changes no value |
| TokenBlacklist.SweepLeavesNoExpired | src/main/java/com/blog/exceed/service/TokenBlacklistService.java:73-83 | after a sweep at now every remaining expiry is >= now, so nothing is left to expire at now |
| TokenBlacklist.SweepIdempotent | src/main/java/com/blog/exceed/service/TokenBlacklistService.java:76-83 | a second sweep with the same now changes nothing |
| TokenBlacklist.SweepLaterSubsumes | src/main/java/com/blog/exceed/service/TokenBlacklistService.java:27-28 | of two periodic sweeps, the later one alone decides what remains |
| TokenBlacklist.SweepCount | src/main/java/com/blog/exceed/service/TokenBlacklistService.java:74-85 | the size before a sweep is the size after plus the number of expired entries |
| JwtFilter.FirstCookieIndex | src/main/java/com/blog/exceed/config/JwtAuthenticationFilter.java:66-71 | the index found is the first cookie with the name (all earlier ones differ), or the end of the array when none has it |
| JwtFilter.CookieWins | src/main/java/com/blog/exceed/config/JwtAuthenticationFilter.java:64-71 | with an accessToken cookie, the first such cookie's value is the token, whatever the Authorization header says |
| JwtFilter.BearerHeaderPresents | src/main/java/com/blog/exceed/config/JwtAuthenticationFilter.java:74-76 | with no accessToken cookie, the header "Bearer " + t yields t |
| JwtFilter.NoTokenExactly | src/main/java/com/blog/exceed/config/JwtAuthenticationFilter.java:64-78 | no token iff there is no accessToken cookie and no header starting with the case-sensitive "Bearer " |
| JwtFilter.DecideCases | src/main/java/com/blog/exceed/config/JwtAuthenticationFilter.java:40-58 | refusal iff the token validates and is listed; resolver iff it validates, is unlisted and its subject lookup throws; authentication with principal p iff it validates, is unlisted, the lookup does not throw and p is its subject or null; anonymous pass iff the token is missing or invalid |
| JwtFilter.BlacklistOnlyForValidTokens | src/main/java/com/blog/exceed/config/JwtAuthenticationFilter.java:40-42 | for a missing or invalid token the blacklist's contents make no difference |
| JwtFilter.JwtAuthenticationFilter.DoFilterInternal | src/main/java/com/blog/exceed/config/JwtAuthenticationFilter.java:36-62 | anonymous: chain runs once, nothing else changes; refused: status 401 and message written, chain not run; authenticated: context holds an authentication whose principal is the subject (possibly null), request attribute userId is set to the subject or removed for a null one, chain runs once; exception: handed to the resolver, chain not run; the blacklist is only read |
| SecurityConfig.OpenPathsExactly | src/main/java/com/blog/exceed/config/SecurityConfig.java:47-54 | exactly the five listed paths are open, and /api/users/logout is not one of them |
| SecurityConfig.ProtectedNeedsIdentity | src/main/java/com/blog/exceed/config/SecurityConfig.java:54-59 | a protected path is reached only with a valid, unlisted token whose subject lookup did not throw, and the caller's principal is that token's subject, which may be null |
| SecurityConfig.NullSubjectAuthenticated | src/main/java/com/blog/exceed/config/JwtAuthenticationFilter.java:48-58 | a valid, unlisted token whose subject is null still authenticates: the request is dispatched with a null principal, even to a protected path |
| SecurityConfig.NoTokenRefused | src/main/java/com/blog/exceed/config/SecurityConfig.java:54 | a protected path with no token is denied |
| SecurityConfig.RevokedEverywhere | src/main/java/com/blog/exceed/config/SecurityConfig.java:56-59 | the filter runs before authorization on every path, so a valid revoked token gets 401 even on an open path |
| SecurityConfig.CorsPolicy | src/main/java/com/blog/exceed/config/SecurityConfig.java:70-83 | one configuration, registered for "/**"; two distinct origins, exactly GET, POST, PUT, DELETE and OPTIONS, any header, credentials allowed, max age 3600 |
| UserInfo.UserInfoController.Logout | src/main/java/com/blog/exceed/controller/UserInfoController.java:172-202 | success: the blacklist gains token -> expiry, the context is cleared, 200 with the confirmation; failure (header under 7 chars, or expiry unreadable): blacklist and context untouched, 400 |
| UserInfo.PrefixNotChecked | src/main/java/com/blog/exceed/controller/UserInfoController.java:179 | the first seven characters are dropped without checking that they are "Bearer " |
| UserInfo.BearerRevocation | src/main/java/com/blog/exceed/controller/UserInfoController.java:179-186 | for "Bearer " + t the entry written is t with t's expiry, or the failure when that expiry cannot be read |
| Revocation.LogoutThenRefused | src/main/java/com/blog/exceed/controller/UserInfoController.java:186 | after a successful logout, any request presenting the revoked token while it validates is refused with 401 |
| Revocation.BearerLogoutThenCookieRefused | src/main/java/com/blog/exceed/config/JwtAuthenticationFilter.java:40-46 | logout with "Bearer " + t, then a request with t in its first accessToken cookie: 401 |
| Revocation.BearerLogoutThenHeaderRefused | src/main/java/com/blog/exceed/config/JwtAuthenticationFilter.java:74-76 | logout with "Bearer " + t, then a request with no accessToken cookie and that header: 401 |
| Revocation.RevokedUntilSweptPastExpiry | src/main/java/com/blog/exceed/service/TokenBlacklistService.java:57-58 | a sweep at or before the token's expiry keeps it, so the token is still refused with 401 |
| Revocation.SweepPastExpiryForgets | src/main/java/com/blog/exceed/service/TokenBlacklistService.java:76-82 | a sweep after the token's expiry removes the entry |
| Revocation.CookieTokenSurvivesHeaderLogout | src/main/java/com/blog/exceed/controller/UserInfoController.java:174-186 | a cookie token different from the header's bearer token is not revoked by logout and still authenticates |
| Revocation.LogoutThenRequest | src/main/java/com/blog/exceed/controller/UserInfoController.java:177-193 | with a controller and a filter sharing one store: logout succeeds, and the next request with the token as cookie gets 401 while the chain never runs |
| Common.WrapInt | src/main/java/com/blog/exceed/service/BlogService.java:34 | Java int arithmetic: the result is congruent to the exact value modulo 2^32, and equal to it when it fits |
| BlogService.OffsetWithoutOverflow | src/main/java/com/blog/exceed/service/BlogService.java:34 | without overflow offset = (page - 1) * size; page 1 gives 0; an unvalidated page <= 0 with size >= 0 gives offset <= 0 |
| BlogService.OffsetWrapsForSmallestPage | src/main/java/com/blog/exceed/service/BlogService.java:34 | with size 1 the smallest int page wraps to the largest positive offset, with size 2 to -2; a page <= 0 with a positive size (page -0x3fff_ffff, size 3) can still give a positive offset once the product wraps |
| BlogService.TotalPagesIsCeiling | src/main/java/com/blog/exceed/service/BlogService.java:37 | for size > 0, totalPages * size >= totalElements, and (totalPages - 1) * size < totalElements when there are rows |
| BlogService.NoRowsNoPages | src/main/java/com/blog/exceed/service/BlogService.java:37 | a count of 0 gives 0 pages for every size |
| BlogService.PagedFields | src/main/java/com/blog/exceed/service/BlogService.java:33-46 | page, size and the count are echoed; lastPage equals totalPages; rows are fetched with the computed offset |
| BlogController.LastIndexOf | src/main/java/com/blog/exceed/controller/BlogController.java:55 | the index holds the character and no later position does; -1 when absent |
| BlogController.Extension | src/main/java/com/blog/exceed/controller/BlogController.java:55 | the extension is empty iff the name has no '.'; otherwise it is a suffix of the name starting with its only '.' |
| BlogController.ExtensionPreserved | src/main/java/com/blog/exceed/controller/BlogController.java:55-56 | for an id without '.', the stored name id + extension has the same extension as the client's name |
| BlogController.UploadChecks | src/main/java/com/blog/exceed/controller/BlogController.java:45-52 | an empty file is refused first; over 52,428,800 bytes is refused; exactly that size passes; 400 iff empty or too large |
| BlogController.UploadedFile | src/main/java/com/blog/exceed/controller/BlogController.java:54-71 | the attachment has no post id, the file's size and type, and URL "/images/" + id + extension; the returned URL is the backend URL plus that path when the backend URL is set and not blank, else the path |
| BlogController.BlankBackendIgnored | src/main/java/com/blog/exceed/controller/BlogController.java:64 | an empty or whitespace-only backend URL is not prepended |
| ErrorCodes.SixConstants | src/main/java/com/blog/exceed/exception/ErrorCode.java:19-28 | there are exactly six constants |
| ErrorCodes.CodesWellFormed | src/main/java/com/blog/exceed/exception/ErrorCode.java:9-28 | every code is four digits, and its first digit gives its category: 0 success, 1 user error, 9 system error |
| ErrorCodes.CodesDistinct | src/main/java/com/blog/exceed/exception/ErrorCode.java:19-28 | no two constants share a code; "0000" belongs to SUCCESS alone |
| RegisterResponses.SuccessBody | src/main/java/com/blog/exceed/dto/RegisterResponse.java:53-59 | success() is successful with code "0000" and SUCCESS's message |
| RegisterResponses.FailBody | src/main/java/com/blog/exceed/dto/RegisterResponse.java:65-71 | fail(e) is unsuccessful, copies e's code and message, and determines e |
| RegisterResponses.FailCodeZeroOnlyForSuccess | src/main/java/com/blog/exceed/dto/RegisterResponse.java:65-71 | fail(e) carries "0000" iff e is SUCCESS, which fail does not prevent and which yields an unsuccessful body with the success code |

## Left out

- Token signing, parsing and validation: `JwtUtil` is not part of this model. Its three calls are arbitrary functions.
- The scheduled executor, its hourly period and the thread safety of `ConcurrentHashMap`. The sweep is a method callable at any time with the clock reading passed in.
- Logging in every component.
- Long integers: expiry timestamps and file sizes are unbounded integers. The source only stores and compares them, so no overflow can arise.
- JwtFilter.JwtAuthenticationFilter.DoFilterInternal: only an exception from `getUserIdFromToken` is modelled; `validateToken` is taken to answer without throwing. What the exception resolver writes is reduced to a flag. Exceptions from the response writer and from the rest of the chain are not modelled.
- SecurityConfig.Handle: the status for a denied request is Spring's default entry point and is not modelled. Path matching is taken as exact string equality. CSRF, the stateless session policy and the BCrypt password encoder are framework wiring.
- SecurityConfig.CorsPolicy: only the configured values are modelled, not Spring's CORS matching (case-insensitive origins, preflight handling).
- UserInfo.UserInfoController.Logout: the text of the 400 error body (the exception's message) is not modelled. A missing `Authorization` header or `userId` attribute is rejected by Spring before the method runs.
- BlogService: the SQL behind the two mapper queries. The count is taken as non-negative. `search` is passed through untouched.
- BlogController.UploadImage: directory creation and the file write are abstracted as one optional IOException input. A failing attachment insert is not modelled: it is not an IOException, so the method's catch does not handle it, and the application-wide handler answers 500 with its own error body instead of the upload-failure message. `UUID.randomUUID` is the `randomId` input and `StringUtils.cleanPath` the `cleanPath` input. A null original file name (an uncaught NullPointerException) is not modelled. Emptiness is taken as zero bytes.
- Other endpoints (`register`, `login`, `getMyInfo`, `forgotPassword`), the chat services and controllers, mappers, DAOs, other DTOs and `GlobalExceptionHandler`: framework-orchestrated CRUD and proxies outside the revocation path.
- Refresh-token rotation and cookie-issuing login: absent from the code.
