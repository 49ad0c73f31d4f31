# HttpAccessService in Dafny

A model of `HttpAccessService`, the class of the Lutece httpaccess library that hands out
commons-httpclient clients. The model covers four parts of it:

- **The no-proxy wildcard matcher `matches`.** It is modelled as the source writes it: two
  boolean arrays, nested loops, and the star closure written into the previous vector in
  place. It is proved to compute a recursive reference definition of anchored glob
  matching, `GlobSpec.Glob`.
- **`matchesList` and the bypass decision `bNoProxy`.** The no-proxy list is split on commas
  as `String.split(",")` does it, and the patterns are not trimmed.
- **`getHttpClient`.** The service keeps three cached slots: the proxied pooled client, the
  no-proxy pooled client, and the shared connection manager. The model covers the cache
  hit, which returns before any configuration, and the cache miss, which caches the new
  client before configuring it. It also covers the pool-sizing guard as written and the
  sequence of proxy, credential, charset and timeout settings, where a
  `NumberFormatException` or an `IllegalArgumentException` can stop the sequence part-way.
- **`releaseConnection`.**

Modules:

- `Wrappers` (`wrappers.dfy`): `Option` and `Result`.
- `GlobSpec` (`glob.dfy`): the reference definition `Glob` and its properties.
- `Matcher` (`matcher.dfy`): the array matcher `Matches`, the proof that it computes `Glob`,
  and `MatchesList`.
- `JavaText` (`java_text.dfy`): the library functions the service relies on:
  `StringUtils.isEmpty`, `isBlank` and `isNumeric` (commons-lang3), `Integer.parseInt` as a
  partial function with its 32-bit range, and `String.split(",")`.
- `HttpAccess` (`http_access.dfy`):
  - the configuration record;
  - the bypass predicate `Bypass` and its imperative form `ResolveBypass`;
  - the pure specification `Configure` of the settings a new client receives;
  - the classes `ConnectionManager`, `HttpClient`, `HttpMethod` and `HttpAccessService`, with
    `GetHttpClient` and `ReleaseConnection`.

## Behaviour as written

The model follows the code in these places, including where a reader would expect
something else.

- **The sentinel needs no precondition.** `matches` appends `'\0'` to both strings. The
  sentinel is an ordinary literal on both sides, so `Matches` equals `Glob` for every
  pattern and text of the model, including ones that contain `'\0'`
  (`GlobSpec.SentinelIsNeutral`). Strings here are sequences of Unicode scalar values;
  see "Left out" for characters outside the Basic Multilingual Plane.
- **A missing host is matched as the text "null".** When the URI has no host, the Java
  concatenation `null + '\0'` gives "null\0". A no-proxy list containing `null` (or `*`)
  therefore bypasses the proxy for such a URI, where one would expect a missing host
  never to match.
- **A pooled cache hit returns before any configuration.** The cached client is returned
  at once: no proxy, credential, charset or timeout setting is applied, and the method's
  `doAuthentication` flag is not touched, although a method that takes the request
  suggests per-request configuration on every call.
- **Pool sizing as written can only fail.** Both pool-size properties are tested with
  `isEmpty` and then passed to `parseInt`. An empty or missing value therefore always
  raises `NumberFormatException`, after the shared manager has been created and before
  any slot is filled. A non-empty value is never applied.
- **A miss caches the client before configuring it.** The new client is cached before the
  settings run, so a `NumberFormatException` during configuration leaves a partly
  configured client in its slot. Later hits return that client unchanged.
- **Credentials parse the proxy port again.** The credential block parses the proxy port a
  second time even when no proxy was set. Credentials with a blank proxy port therefore
  make every unpooled unbypassed call fail, and the pooled miss that fills a slot; later
  pooled hits return the cached client before reaching that parse.
- **NTLM credentials need a user name, even for a bypassed request.** The credentials are
  built before the bypass test, and `NTCredentials` rejects a null user name with an
  `IllegalArgumentException`. With a host name and a domain set but no proxy user name,
  every unpooled call and every pooled miss therefore fails, bypassed or not.
- **`isNumeric` and `parseInt` disagree.** A numeric port above 2147483647 passes
  `isNumeric` and then fails in `parseInt`. A port written with a sign fails `isNumeric`,
  so no proxy is set, yet the credential block accepts it.
- **The connection timeout is shared.** It is set on the client's connection manager,
  which for pooled clients is the shared one.

## Model

| member | source | states |
|---|---|---|
| GlobSpec.StarMatchesAll | src/java/fr/paris/lutece/util/httpaccess/HttpAccessService.java:364-389 | the pattern `*` matches every text, the empty one included |
| GlobSpec.EmptyPatternMatchesOnlyEmpty | src/java/fr/paris/lutece/util/httpaccess/HttpAccessService.java:346-396 | the empty pattern matches exactly the empty text |
| GlobSpec.LiteralPatternIsEquality | src/java/fr/paris/lutece/util/httpaccess/HttpAccessService.java:371-374 | a pattern without `*` or `?` matches a text if and only if the two are equal |
| GlobSpec.StarAbsorbsPrefix | src/java/fr/paris/lutece/util/httpaccess/HttpAccessService.java:366-389 | a leading star lets the rest of the pattern match after any prefix of the text |
| GlobSpec.SentinelIsNeutral | src/java/fr/paris/lutece/util/httpaccess/HttpAccessService.java:348-349 | appending the same literal (the `'\0'` sentinel) to pattern and text leaves the answer unchanged |
| GlobSpec.StarThenLiteral | src/java/fr/paris/lutece/util/httpaccess/HttpAccessService.java:364-389 | star then a literal matches exactly the non-empty texts ending in that literal |
| GlobSpec.StarBetweenLiterals | src/java/fr/paris/lutece/util/httpaccess/HttpAccessService.java:364-389 | `a*b` matches exactly the texts of length at least 2 that start with `a` and end with `b` |
| GlobSpec.QuestionMarkExamples | src/java/fr/paris/lutece/util/httpaccess/HttpAccessService.java:376-379 | `?` consumes exactly one character: `a?c` matches `abc` but neither `ac` nor `abbc` |
| Matcher.ClosureStep | src/java/fr/paris/lutece/util/httpaccess/HttpAccessService.java:366-369 | writing `true` after a live star into the previous vector turns the entry vector into the set of live pattern positions, one position at a time |
| Matcher.ReachedOnlyStars | src/java/fr/paris/lutece/util/httpaccess/HttpAccessService.java:353-369 | with no text read, a pattern prefix matches exactly when it is all stars |
| Matcher.FirstClosure | src/java/fr/paris/lutece/util/httpaccess/HttpAccessService.java:353-369 | closing the first vector over the stars makes live exactly the positions preceded only by stars |
| Matcher.NextRows | src/java/fr/paris/lutece/util/httpaccess/HttpAccessService.java:357-393 | one outer iteration closes the entry vector over the stars and builds the vector for the next text character, which again marks the positions reached |
| Matcher.LastRow | src/java/fr/paris/lutece/util/httpaccess/HttpAccessService.java:395 | after the sentinel, the last position is set exactly when the pattern matches the text |
| Matcher.Sweep | src/java/fr/paris/lutece/util/httpaccess/HttpAccessService.java:361-390 | the inner loop leaves `old` holding the closed vector and `states` holding the next vector, element by element, after exactly pattern length + 1 iterations (sentinel included) |
| Matcher.Matches | src/java/fr/paris/lutece/util/httpaccess/HttpAccessService.java:346-396 | the array matcher returns `Glob(pattern, text)` for every input, after exactly (text length + 1) times (pattern length + 1) inner steps, counted by the inner loop |
| Matcher.MatchesList | src/java/fr/paris/lutece/util/httpaccess/HttpAccessService.java:319-335 | true if and only if the list is not null and some pattern matches; a null list gives false with nothing examined; on a match every earlier pattern failed; on no match every pattern was examined |
| Matcher.BypassListExamples | src/java/fr/paris/lutece/util/httpaccess/HttpAccessService.java:319-335 | a list with a matching pattern gives true; a list without one, and the empty list, give false |
| JavaText.EmptyBlankNumeric | src/java/fr/paris/lutece/util/httpaccess/HttpAccessService.java:228-261 | `isEmpty` implies `isBlank` but not conversely (a lone space), and `isNumeric` implies not blank and not empty |
| JavaText.ParseInt | src/java/fr/paris/lutece/util/httpaccess/HttpAccessService.java:261 | `Integer.parseInt` rejects null and empty strings, reports the rejected string, and yields only 32-bit values |
| JavaText.ParseIntRoundTrip | src/java/fr/paris/lutece/util/httpaccess/HttpAccessService.java:299 | `parseInt` reads back every 32-bit integer written in decimal |
| JavaText.ParseIntOfNumeric | src/java/fr/paris/lutece/util/httpaccess/HttpAccessService.java:257-261 | a numeric string parses if and only if its value is at most 2147483647, and then to that value |
| JavaText.NumericOverflows | src/java/fr/paris/lutece/util/httpaccess/HttpAccessService.java:257-261 | `2147483648` is numeric but `parseInt` rejects it |
| JavaText.SignedIsNotNumeric | src/java/fr/paris/lutece/util/httpaccess/HttpAccessService.java:257-281 | `-1` is not numeric, so no proxy is set for it, yet `parseInt` accepts it, as the credential block does |
| JavaText.Split | src/java/fr/paris/lutece/util/httpaccess/HttpAccessService.java:205 | without a comma the string itself; otherwise the comma-free pieces form a prefix of the comma-separated fields, only empty fields are dropped, and the last piece kept is not empty |
| JavaText.FieldsJoin | src/java/fr/paris/lutece/util/httpaccess/HttpAccessService.java:205 | joining the fields with commas gives the string back, and no field holds a comma |
| JavaText.JoinFields | src/java/fr/paris/lutece/util/httpaccess/HttpAccessService.java:205 | cutting comma-free pieces joined by commas gives the pieces back |
| JavaText.SplitKeepsSpaces | src/java/fr/paris/lutece/util/httpaccess/HttpAccessService.java:205 | `"a, b"` splits into `"a"` and `" b"`: no trimming |
| JavaText.SplitDropsTrailingEmpty | src/java/fr/paris/lutece/util/httpaccess/HttpAccessService.java:205 | `"a,,b,,"` splits into `"a"`, `""`, `"b"`: inner empty pieces stay, trailing ones go |
| JavaText.SplitEdgeCases | src/java/fr/paris/lutece/util/httpaccess/HttpAccessService.java:205 | `","` splits into nothing; `""` splits into itself |
| HttpAccess.MissingHostReadsNull | src/java/fr/paris/lutece/util/httpaccess/HttpAccessService.java:199-211 | `Bypass` decides a URI without a host exactly as one whose host is "null", the text `null + '\0'` gives at line 348 |
| HttpAccess.ResolveBypass | src/java/fr/paris/lutece/util/httpaccess/HttpAccessService.java:199-211 | `bNoProxy` holds if and only if the proxy host and the no-proxy list are not blank, the URI can be read, and some untrimmed comma-separated pattern matches the host; this agrees with `Bypass` |
| HttpAccess.BypassOverAllFields | src/java/fr/paris/lutece/util/httpaccess/HttpAccessService.java:205 | for a non-empty host, the decision is the same over all comma-separated fields, trailing empty ones included |
| HttpAccess.BypassUntrimmed | src/java/fr/paris/lutece/util/httpaccess/HttpAccessService.java:205 | with the list `"a, *"` the second pattern is `" *"`: host `b` keeps the proxy, host `a` bypasses it |
| HttpAccess.BypassEdgeCases | src/java/fr/paris/lutece/util/httpaccess/HttpAccessService.java:201-210 | an unreadable URI keeps the proxy; a missing host matches the pattern `null`; without a proxy host nothing is bypassed |
| HttpAccess.CredentialKinds | src/java/fr/paris/lutece/util/httpaccess/HttpAccessService.java:265-277 | `ProxyCredentials` throws `IllegalArgumentException` exactly when host name and domain are set and the user name is null; otherwise it gives NTLM credentials exactly when host name and domain are set, user-name/password credentials exactly when both of those are set, and none otherwise; either kind carries the configured user name and password |
| HttpAccess.ProxySetting | src/java/fr/paris/lutece/util/httpaccess/HttpAccessService.java:257-263 | on a new client the proxy is set if and only if host and port are not blank, the port is numeric, the request is not bypassed and the port fits in 32 bits; a numeric port beyond 32 bits fails the call with nothing set |
| HttpAccess.CredentialsSetting | src/java/fr/paris/lutece/util/httpaccess/HttpAccessService.java:279-285 | on a new client, for a method in any state, the credentials under the proxy's scope and the preemptive flag are set, and the method's authentication is switched on, if and only if credentials were built, the request is not bypassed and the port parses |
| HttpAccess.BypassLeavesProxyAlone | src/java/fr/paris/lutece/util/httpaccess/HttpAccessService.java:259-279 | a bypassed request gets neither proxy nor credentials, and its method's flag is untouched |
| HttpAccess.CredentialsNeedProxyPort | src/java/fr/paris/lutece/util/httpaccess/HttpAccessService.java:279-281 | credentials with a blank proxy port make an unbypassed call fail with nothing configured |
| HttpAccess.ProxyStep | src/java/fr/paris/lutece/util/httpaccess/HttpAccessService.java:257-263 | only the proxy can change; nothing happens unless the proxy is wanted; a failure on the port leaves the state as it was |
| HttpAccess.CredentialsStep | src/java/fr/paris/lutece/util/httpaccess/HttpAccessService.java:265-285 | only credentials, the preemptive flag and the method's flag can change; building NTLM credentials without a user name throws, bypassed or not; otherwise nothing happens without credentials or when bypassed; a failure leaves the state as it was |
| HttpAccess.CharsetStep | src/java/fr/paris/lutece/util/httpaccess/HttpAccessService.java:287-295 | only the parameters change, and no parameter is removed |
| HttpAccess.SocketTimeoutStep | src/java/fr/paris/lutece/util/httpaccess/HttpAccessService.java:297-300 | only the socket timeout can change; a blank value does nothing; a failure on it leaves the state as it was |
| HttpAccess.ConnectionTimeoutStep | src/java/fr/paris/lutece/util/httpaccess/HttpAccessService.java:302-305 | only the manager's connection timeout can change; a blank value does nothing; a failure on it leaves the state as it was |
| HttpAccess.ConfigureOrder | src/java/fr/paris/lutece/util/httpaccess/HttpAccessService.java:257-305 | `Configure` applies the blocks in order and stops at an exception: a failing call never sets the connection timeout, the socket timeout is set only after the charsets, and the charsets only after the credentials were built and, where they apply, installed |
| HttpAccess.ConfigureFailure | src/java/fr/paris/lutece/util/httpaccess/HttpAccessService.java:257-305 | a failure is a `NumberFormatException` on the proxy port, socket timeout or connection timeout, one that `parseInt` indeed rejects, or the `IllegalArgumentException` of credentials that cannot be built |
| HttpAccess.NtlmWithoutUserNameFails | src/java/fr/paris/lutece/util/httpaccess/HttpAccessService.java:265-271 | NTLM credentials without a user name make a bypassed configuration fail with nothing set, and an unbypassed one fail right after the proxy block |
| HttpAccess.ConfigureSuccess | src/java/fr/paris/lutece/util/httpaccess/HttpAccessService.java:287-305 | without failure both charsets and both timeouts are set exactly when their properties are not blank |
| HttpAccess.CharsetKeys | src/java/fr/paris/lutece/util/httpaccess/HttpAccessService.java:287-295 | the charsets land under `http.protocol.content-charset` and `http.protocol.element-charset` when set, and no other parameter changes |
| HttpAccess.ConnectionManager.constructor | src/java/fr/paris/lutece/util/httpaccess/HttpAccessService.java:222-225 | a new manager has no timeout and no idle closures |
| HttpAccess.HttpClient.constructor | src/java/fr/paris/lutece/util/httpaccess/HttpAccessService.java:238 | a new client is bound to the given manager with nothing set |
| HttpAccess.HttpAccessService.constructor | src/java/fr/paris/lutece/util/httpaccess/HttpAccessService.java:116-118 | the two client slots and the manager slot start empty |
| HttpAccess.HttpAccessService.SetProxy | src/java/fr/paris/lutece/util/httpaccess/HttpAccessService.java:257-263 | the proxy block changes the client as the proxy step of `Configure` says |
| HttpAccess.HttpAccessService.SetCredentials | src/java/fr/paris/lutece/util/httpaccess/HttpAccessService.java:265-285 | the credential block changes client and method as the credential step of `Configure` says |
| HttpAccess.HttpAccessService.SetParameters | src/java/fr/paris/lutece/util/httpaccess/HttpAccessService.java:287-305 | the charset and timeout blocks change client and manager as the corresponding steps of `Configure` say |
| HttpAccess.HttpAccessService.ApplyConfiguration | src/java/fr/paris/lutece/util/httpaccess/HttpAccessService.java:255-305 | the configuration blocks together reach the state `Configure` computes, and fail exactly when it does |
| HttpAccess.HttpAccessService.GetHttpClient | src/java/fr/paris/lutece/util/httpaccess/HttpAccessService.java:194-308 | the slots stay consistent; the method is never released and an existing manager's idle closures are untouched; an existing manager is reused and a missing one is created only on a pooled miss; a pooled hit returns the cached client with nothing changed; a pooled miss with an empty or missing pool size fails with no slot filled; otherwise a new client on the shared manager fills exactly the chosen slot and is configured by `Configure`; without pooling nothing cached changes and a new client with its own manager is configured |
| HttpAccess.HttpMethod.constructor | src/java/fr/paris/lutece/util/httpaccess/HttpAccessService.java:194 | the request handed to `getHttpClient` starts unreleased and with authentication on, the default of `HttpMethodBase`, so line 284 can only keep it on |
| HttpAccess.HttpAccessService.ReleaseConnection | src/java/fr/paris/lutece/util/httpaccess/HttpAccessService.java:447-454 | the method is released first; then idle connections are closed with idle time 0 exactly when a client is given and pooling is off; nothing cached changes |

## Left out

- Loading the properties (`init`, `AppPropertiesService`): the configuration is an input record, `Config`.
- `validate` and the response validator: the validator's code is not part of this model, and `validate` only delegates to it.
- The lazy singleton `getInstance` and `synchronized`: the model is one sequential service object. The Java slots are static; here they are fields of that object.
- Logging of the `URIException`: only its effect, that the proxy stays in use, is modelled.
- The HTTP transport and the commons-httpclient internals: clients, managers and methods carry only the fields the service sets.
- The pool size setters: they are unreachable as written, so managers carry no size fields.
- `IsNumeric`, `ParseInt`: they accept ASCII digits only; the Java versions also accept other Unicode decimal digits.
- `Glob`, `Matches`: a `?` consumes one Unicode scalar value, while Java's `charAt` walks UTF-16 code units, so for a character outside the Basic Multilingual Plane the two differ (Java's `matches("?", "😀")` is false, the model's is true); the model is exact for texts and patterns within that plane.
- `GetHttpClient`: the method state is captured only through `doAuthentication` and `released`; other fields of the request method are not modelled.
