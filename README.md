# force-authentication: request authentication, modelled in Dafny

This project models how the force-authentication library decides who a web request belongs to.
The library is a Spring Security integration for Salesforce OAuth. Each servlet filter is modelled
as a method from the request and the current security context to an outcome, a new context and,
where the filter sets one, new request attributes. An outcome continues the chain, redirects,
sends an error status, or lets an exception escape.

- `SignedParametersUtil` (`signed_parameters_util.dfy`) checks `signature.envelope` strings.
  The signature is an HMAC (RFC 2104) of the still-encoded envelope text. The envelope is
  base64url JSON (section 5 of RFC 4648). HMAC, base64, UTF-8 and JSON are given functions held
  in a `Codec` value.
- `OAuthFilter` (`oauth_filter.dfy`) handles two things. The first is the `/_oauth` callback of
  the authorization-code flow (sections 4.1.2 and 4.1.2.1 of RFC 6749). The second is the
  `Authorization: OAuth <token>` header with its `Force-User-Id` and `Force-Instance-Url`
  companions.
- `SignedParametersFilter` (`signed_parameters_filter.dfy`) handles the `signed_parameters`
  parameter. It has four branches: all three credentials, none of them, only the user id, or a
  partial set. `SignedRequestFilter` (`signed_request_filter.dfy`) handles the canvas
  `signed_request` parameter.
- `OAuthAuthenticationEntryPoint` (`entry_point.dfy`) answers 401 on API routes and otherwise
  redirects into the authorization flow. It builds the callback URL and the final redirect URL
  on the way.
- `JerseyOAuthConnector` (`jersey_connector.dfy`) covers the authorize URI (section 4.1.1 of
  RFC 6749), the user id taken from the identity URL, and the token request form (section 4.1.3).
  It also covers how the token response or the failure of the POST becomes a token or an
  exception.
- The supporting pieces are the following. `ForceAuthenticationToken` (`force_token.dfy`) has
  field-based equality and a hash code. `AuthenticationUtils` (`authentication_utils.dfy`)
  fetches the current token or fails. `SpringOAuthClientConfig` (`client_config.dfy`) is a
  class with six nullable settings, setters and required-field validation.
- `java_lang.dfy` holds the Java and commons-lang behaviour the code relies on: nullable strings,
  `split`, `lastIndexOf`, `contains`, `equalsIgnoreCase`, `Integer.toString` and 32-bit
  `hashCode` arithmetic. `servlet.dfy` holds the request and outcome values, and
  `wrappers.dfy` holds `Option` and `Result`.

The thread-local security context is an explicit value, `Option<Authentication>`: `None` is an
empty context. An `Authentication` is either this library's token or some other kind. Java
`null` strings are `Option<string>`. An exception that escapes is a `Failure` or `Thrown`
value, never a precondition. The code exchange, the canvas library's `verifyAndDecode`, the
route's access rules and the connector's `buildAuthorizeUri` (as the entry point sees it) are
parameters.

Details of the code worth noting:
- The callback passes `request.getRequestURL()` to the code exchange as the redirect URI. It does
  not rebuild the callback URL.
- `SignedParametersFilter` stores the raw `signed_parameters` string as the request attribute,
  not the decoded map.
- Either part of a signed envelope may be empty. Only the presence of a dot is required.
- The canvas filter does not check that the decoded user id, token or instance URL is non-empty.

## Model

| member | source | states |
|---|---|---|
| JavaLang.SplitAtFirst | src/main/java/net/davidbuccola/force/authentication/SignedParametersUtil.java:45 | `split("[.]", 2)` cuts at the first separator only: the head holds no separator, the tail is present exactly when the text holds one, and head, separator and tail join back to the input |
| JavaLang.SplitAtFirstOfJoin | src/main/java/net/davidbuccola/force/authentication/SignedParametersUtil.java:45-47 | splitting `a + c + b` with `c` not in `a` gives back `a` and `b`, whatever `b` holds |
| JavaLang.LastIndexOf | force-authentication-core/src/main/java/net/davidbuccola/force/authentication/JerseyOAuthConnector.java:105 | the index found holds the character and no later index does; -1 when it is absent |
| JavaLang.SplitOnWhitespace | src/main/java/net/davidbuccola/force/authentication/OAuthFilter.java:80 | `split("\\s+", 2)` gives two parts exactly when there is white space: the text before the first run of white space and everything after that run |
| JavaLang.DecimalString | force-authentication-core/src/main/java/net/davidbuccola/force/authentication/OAuthAuthenticationEntryPoint.java:82 | `append(port)` writes decimal digits, at least one, with no leading zero, whose decimal value is the port |
| JavaLang.DecimalStringInjective | force-authentication-core/src/main/java/net/davidbuccola/force/authentication/OAuthAuthenticationEntryPoint.java:82 | different ports are written differently |
| ForceToken.NewToken | src/main/java/net/davidbuccola/force/authentication/ForceAuthenticationToken.java:33-40 | the constructor keeps user id, access token, instance URL and authorities as given and marks the token authenticated |
| ForceToken.Credentials | src/main/java/net/davidbuccola/force/authentication/ForceAuthenticationToken.java:42-45 | the credentials are the access token |
| ForceToken.Principal | src/main/java/net/davidbuccola/force/authentication/ForceAuthenticationToken.java:47-50 | the principal is the user id |
| ForceToken.Equals | src/main/java/net/davidbuccola/force/authentication/ForceAuthenticationToken.java:79-93 | `equals`: the same object, or another token whose three string fields are equal; `null` and other classes are unequal |
| ForceToken.HashCode | src/main/java/net/davidbuccola/force/authentication/ForceAuthenticationToken.java:95-102 | `hashCode`: `HashCodeBuilder(17, 37)` over user id, access token and instance URL, in 32-bit arithmetic |
| ForceToken.EqualsIffSameFields | src/main/java/net/davidbuccola/force/authentication/ForceAuthenticationToken.java:79-93 | two tokens are equal exactly when user id, access token and instance URL are pairwise equal |
| ForceToken.EqualsIgnoresAuthorities | src/main/java/net/davidbuccola/force/authentication/ForceAuthenticationToken.java:87-92 | authorities and the authenticated flag play no part in equality |
| ForceToken.EqualsIsEquivalence | src/main/java/net/davidbuccola/force/authentication/ForceAuthenticationToken.java:79-93 | equality on tokens is reflexive, symmetric and transitive |
| ForceToken.NonTokenNeverEqual | src/main/java/net/davidbuccola/force/authentication/ForceAuthenticationToken.java:84-86 | `null` and objects of any other class are never equal to a token |
| ForceToken.EqualTokensHaveEqualHashCodes | src/main/java/net/davidbuccola/force/authentication/ForceAuthenticationToken.java:95-102 | the hash code reads only the three compared fields, so equal tokens hash alike |
| AuthenticationUtils.GetAuthenticationTokenIfAvailable | force-authentication-core/src/main/java/net/davidbuccola/force/authentication/AuthenticationUtils.java:40-47 | a token is returned exactly when the context holds this library's token, and it is that token |
| AuthenticationUtils.GetAuthenticationToken | force-authentication-core/src/main/java/net/davidbuccola/force/authentication/AuthenticationUtils.java:27-33 | succeeds exactly when the context holds a token and returns it; an empty context or another kind of authentication fails with the "no ForceAuthenticationToken" insufficient-authentication error |
| SignedParametersUtil.Algorithm | src/main/java/net/davidbuccola/force/authentication/SignedParametersUtil.java:51 | a missing, null or empty `algorithm` entry means HMACSHA256; otherwise the entry is used as is |
| SignedParametersUtil.VerifyAndDecode | src/main/java/net/davidbuccola/force/authentication/SignedParametersUtil.java:37-62 | a null secret fails first with the "secret must not be null" argument error; a null input or one without a dot fails; every other failure is one security failure; success means the envelope after the first dot decodes, its MAC under the named algorithm equals the decoded signature, and the result is the decoded map without `algorithm`; and every input meeting those conditions succeeds |
| SignedParametersUtil.Verified | src/main/java/net/davidbuccola/force/authentication/SignedParametersUtil.java:64-74 | `verify`: the secret's UTF-8 bytes form a non-empty key and the MAC of the encoded envelope under the named algorithm equals the base64url-decoded signature byte for byte |
| SignedParametersUtil.SignThenVerify | src/main/java/net/davidbuccola/force/authentication/SignedParametersUtil.java:64-74 | an envelope signed with the MAC of its encoded text verifies and yields its parameters minus `algorithm` |
| SignedParametersUtil.SplitsAtFirstDot | src/main/java/net/davidbuccola/force/authentication/SignedParametersUtil.java:45-53 | the signature is the text before the first dot and the envelope is all the rest, later dots included; the input verifies exactly when that envelope decodes and its MAC matches that signature |
| SignedParametersUtil.TamperedSignatureRejected | src/main/java/net/davidbuccola/force/authentication/SignedParametersUtil.java:69-73 | a signature whose bytes differ from the envelope's MAC is rejected with the security failure |
| OAuthFilter.IsOAuthCallback | src/main/java/net/davidbuccola/force/authentication/OAuthFilter.java:112-114 | the servlet path is exactly `/_oauth` |
| OAuthFilter.IsSuccessCallback | src/main/java/net/davidbuccola/force/authentication/OAuthFilter.java:116-118 | the `code` parameter is present and non-empty |
| OAuthFilter.IsErrorCallback | src/main/java/net/davidbuccola/force/authentication/OAuthFilter.java:120-122 | the `error` parameter is present and non-empty |
| OAuthFilter.ExtractErrorMessage | src/main/java/net/davidbuccola/force/authentication/OAuthFilter.java:124-127 | the message is `error` (or "Authorization failed" when it is empty), a colon, then `error_description` or nothing |
| OAuthFilter.IsHeaderBasedAuthentication | src/main/java/net/davidbuccola/force/authentication/OAuthFilter.java:139-142 | no `Authorization` header means no; a header shorter than six characters throws; otherwise the answer is yes exactly when the header starts with "OAuth" in any case followed by a space |
| OAuthFilter.AccessTokenOf | src/main/java/net/davidbuccola/force/authentication/OAuthFilter.java:80 | the access token is what follows the FIRST run of white space: a proper suffix of the header, not starting with white space, preceded by the head up to the first white space and one unbroken run of white space |
| OAuthFilter.AreAllAuthenticationHeadersSpecified | src/main/java/net/davidbuccola/force/authentication/OAuthFilter.java:144-146 | user id, access token and instance URL are all non-null and non-empty |
| OAuthFilter.DoFilter | src/main/java/net/davidbuccola/force/authentication/OAuthFilter.java:39-110 | the callback path is checked first and never continues the chain. A non-empty `code` exchanges the code with the request URL, installs the token and redirects to `state`; if the exchange throws, nothing is installed. Otherwise a non-empty `error` gives 401 with the extracted message, and neither gives 400. The OAuth header with all three values installs a token with ROLE_USER and ROLE_API_USER and continues; a missing value gives 400; a short header throws; no header continues unchanged. An error or exception never changes the context |
| OAuthFilter.HeaderTokenExample | src/main/java/net/davidbuccola/force/authentication/OAuthFilter.java:80 | `OAuth abc` and `oauth<space><tab><space>abc` both yield the token `abc` |
| SignedParametersFilter.IsAnyAuthenticationParameterSpecified | src/main/java/net/davidbuccola/force/authentication/SignedParametersFilter.java:115-117 | at least one of the three credentials is non-null |
| SignedParametersFilter.AreAllAuthenticationParametersSpecified | src/main/java/net/davidbuccola/force/authentication/SignedParametersFilter.java:119-121 | all three credentials are non-null |
| SignedParametersFilter.IsJustUserIdSpecified | src/main/java/net/davidbuccola/force/authentication/SignedParametersFilter.java:123-125 | the user id is non-null and the other two are null |
| SignedParametersFilter.ParameterCasesPartition | src/main/java/net/davidbuccola/force/authentication/SignedParametersFilter.java:115-125 | "none", "all" and "just the user id" exclude each other, and the fourth case is exactly "token or instance URL given but not all three" |
| SignedParametersFilter.GetCurrentSecurityContextUserId | src/main/java/net/davidbuccola/force/authentication/SignedParametersFilter.java:127-134 | a user id is returned exactly when the context holds a token, and it is that token's user id |
| SignedParametersFilter.Credential | src/main/java/net/davidbuccola/force/authentication/SignedParametersFilter.java:68-70 | a value is present only when the key maps to non-empty text, and empty text counts as absent |
| SignedParametersFilter.DoFilter | src/main/java/net/davidbuccola/force/authentication/SignedParametersFilter.java:45-113 | no `signed_parameters` continues with nothing changed. A verification failure gives 400, and a null secret's exception escapes. All three credentials install a token with USER, API_USER and CANVAS_USER. Only a user id clears the context exactly when it holds a token for a different user. None keeps the context. A partial set gives 400. Every continuing path sets the attribute to the raw string; failing paths change neither context nor attributes |
| SignedRequestFilter.DoFilter | src/main/java/net/davidbuccola/force/authentication/SignedRequestFilter.java:45-88 | no `signed_request` continues with nothing changed. A verification failure gives 400 "Signed request verification failed" with context and attributes unchanged. Success installs a token from the user id, OAuth token and instance URL with USER and CANVAS_USER only, sets `signed_parameters` to the environment parameters, and continues |
| ClientConfig.SpringOAuthClientConfig.constructor | force-authentication-core/src/main/java/net/davidbuccola/force/authentication/SpringOAuthClientConfig.java:24-29 | a new bean has all six settings null |
| ClientConfig.SpringOAuthClientConfig.GetClientId | force-authentication-core/src/main/java/net/davidbuccola/force/authentication/SpringOAuthClientConfig.java:32-34 | returns the current client id setting, the value the last `setClientId` stored |
| ClientConfig.SpringOAuthClientConfig.GetClientSecret | force-authentication-core/src/main/java/net/davidbuccola/force/authentication/SpringOAuthClientConfig.java:37-39 | returns the current client secret setting, the value the last `setClientSecret` stored |
| ClientConfig.SpringOAuthClientConfig.GetServerURL | force-authentication-core/src/main/java/net/davidbuccola/force/authentication/SpringOAuthClientConfig.java:42-44 | returns the current server URL setting, the value the last `setServerURL` stored |
| ClientConfig.SpringOAuthClientConfig.GetScope | force-authentication-core/src/main/java/net/davidbuccola/force/authentication/SpringOAuthClientConfig.java:47-49 | returns the current scope setting, the value the last `setScope` stored |
| ClientConfig.SpringOAuthClientConfig.GetDisplay | force-authentication-core/src/main/java/net/davidbuccola/force/authentication/SpringOAuthClientConfig.java:52-54 | returns the current display setting, the value the last `setDisplay` stored |
| ClientConfig.SpringOAuthClientConfig.GetPrompt | force-authentication-core/src/main/java/net/davidbuccola/force/authentication/SpringOAuthClientConfig.java:57-59 | returns the current prompt setting, the value the last `setPrompt` stored |
| ClientConfig.SpringOAuthClientConfig.SetClientId | force-authentication-core/src/main/java/net/davidbuccola/force/authentication/SpringOAuthClientConfig.java:68-70 | the getter returns the new value and the other five settings are unchanged |
| ClientConfig.SpringOAuthClientConfig.SetClientSecret | force-authentication-core/src/main/java/net/davidbuccola/force/authentication/SpringOAuthClientConfig.java:79-81 | the getter returns the new value and the other five settings are unchanged |
| ClientConfig.SpringOAuthClientConfig.SetServerURL | force-authentication-core/src/main/java/net/davidbuccola/force/authentication/SpringOAuthClientConfig.java:88-90 | the getter returns the new value and the other five settings are unchanged |
| ClientConfig.SpringOAuthClientConfig.SetScope | force-authentication-core/src/main/java/net/davidbuccola/force/authentication/SpringOAuthClientConfig.java:99-101 | the getter returns the new value and the other five settings are unchanged |
| ClientConfig.SpringOAuthClientConfig.SetDisplay | force-authentication-core/src/main/java/net/davidbuccola/force/authentication/SpringOAuthClientConfig.java:108-110 | the getter returns the new value and the other five settings are unchanged |
| ClientConfig.SpringOAuthClientConfig.SetPrompt | force-authentication-core/src/main/java/net/davidbuccola/force/authentication/SpringOAuthClientConfig.java:117-119 | the getter returns the new value and the other five settings are unchanged |
| ClientConfig.SpringOAuthClientConfig.AfterPropertiesSet | force-authentication-core/src/main/java/net/davidbuccola/force/authentication/SpringOAuthClientConfig.java:122-132 | validation passes exactly when client id, client secret and server URL are non-null (empty text passes, optional settings may be null); otherwise the first missing one, in that order, is reported by name |
| ClientConfig.EqualsAsWritten | force-authentication-core/src/main/java/net/davidbuccola/force/authentication/SpringOAuthClientConfig.java:134-151 | `equals` as written: the same object is equal, `null` and non-configs are unequal, another `OAuthClientConfig` implementation throws a class-cast exception, and a bean is compared on its six settings |
| ClientConfig.EqualsAsWrittenThrowsForOtherImplementations | force-authentication-core/src/main/java/net/davidbuccola/force/authentication/SpringOAuthClientConfig.java:139-142 | comparing a bean with another `OAuthClientConfig` implementation throws a class-cast exception instead of answering |
| ClientConfig.Equals | force-authentication-core/src/main/java/net/davidbuccola/force/authentication/SpringOAuthClientConfig.java:135-151 | two beans are equal exactly when all six settings are equal; nothing else is equal to a bean |
| ClientConfig.EqualsCorrectsAsWritten | force-authentication-core/src/main/java/net/davidbuccola/force/authentication/SpringOAuthClientConfig.java:135-151 | the corrected comparison agrees with the written one wherever that one answers, is symmetric, and answers false for other implementations |
| ClientConfig.EqualConfigsHaveEqualHashCodes | force-authentication-core/src/main/java/net/davidbuccola/force/authentication/SpringOAuthClientConfig.java:153-163 | the hash code reads the same six settings, so equal beans hash alike |
| ClientConfig.HashCode | force-authentication-core/src/main/java/net/davidbuccola/force/authentication/SpringOAuthClientConfig.java:153-163 | `hashCode`: `HashCodeBuilder(19, 37)` over the six settings in order, a null setting adding 0 |
| JerseyOAuthConnector.AuthorizeQueryLookup | force-authentication-core/src/main/java/net/davidbuccola/force/authentication/JerseyOAuthConnector.java:47-58 | the query starts with `response_type=code`, `client_id` and `redirect_uri` in that order, and `display`, `prompt` and `state` appear exactly when non-empty |
| JerseyOAuthConnector.BuildAuthorizeUri | force-authentication-core/src/main/java/net/davidbuccola/force/authentication/JerseyOAuthConnector.java:46-61 | fails with an argument error exactly when the server URL is null or not a URI, the client id is null, or a template variable is left unresolved in the server URL or a query value; otherwise the URI is the server URL plus `services/oauth2/authorize` with the three fixed parameters, then `display`, `prompt` and `state` each when non-empty, in that order |
| JerseyOAuthConnector.ExtractUserId | force-authentication-core/src/main/java/net/davidbuccola/force/authentication/JerseyOAuthConnector.java:103-106 | an empty identity URL is rejected; otherwise the result is the slash-free suffix after the last `/`, or the whole URL when it has no `/` |
| JerseyOAuthConnector.ExtractUserIdOfPath | force-authentication-core/src/main/java/net/davidbuccola/force/authentication/JerseyOAuthConnector.java:103-106 | `prefix/id` gives `id`, and a slash-free non-empty id is its own user id |
| JerseyOAuthConnector.TokenRequestFormFields | force-authentication-core/src/main/java/net/davidbuccola/force/authentication/JerseyOAuthConnector.java:67-72 | the token request carries the code, `grant_type=authorization_code`, the client id and secret, and the redirect URI |
| JerseyOAuthConnector.GetToken | force-authentication-core/src/main/java/net/davidbuccola/force/authentication/JerseyOAuthConnector.java:64-101 | a posted response with all three fields and a non-empty `id` gives a token, and only such a response does: its user id is the one taken from `id`, it has the response's access token and instance URL, and it is authenticated with ROLE_USER and ROLE_API_USER. A missing `id` throws a null-pointer exception, an empty one an argument error, and a missing access token or instance URL a null-pointer exception. A rejected request, an unparsable response or a failed stream gives an OAuth exception with its own message prefix; a client-handler failure escapes as it is |
| OAuthEntryPoint.IsApiUrl | force-authentication-core/src/main/java/net/davidbuccola/force/authentication/OAuthAuthenticationEntryPoint.java:58-67 | the route is an API route exactly when some attribute string contains `ROLE_API_USER` |
| OAuthEntryPoint.BuildCallbackUrl | force-authentication-core/src/main/java/net/davidbuccola/force/authentication/OAuthAuthenticationEntryPoint.java:72-89 | the builder's result is the callback URL `scheme://server[:port]contextPath/_oauth` |
| OAuthEntryPoint.CallbackUrlShape | force-authentication-core/src/main/java/net/davidbuccola/force/authentication/OAuthAuthenticationEntryPoint.java:75-86 | the callback URL starts with `scheme://` and ends with the filter's callback path. The port is shown exactly for http other than 80 or https other than 443, and never for another scheme. A negative port counts as 80, so https with a negative port shows `:80` |
| OAuthEntryPoint.BuildFinalRedirectUrl | force-authentication-core/src/main/java/net/davidbuccola/force/authentication/OAuthAuthenticationEntryPoint.java:95-101 | the result is the request URL, followed by `?` and the query string exactly when there is one |
| OAuthEntryPoint.FinalRedirectUrlRoundTrip | force-authentication-core/src/main/java/net/davidbuccola/force/authentication/OAuthAuthenticationEntryPoint.java:95-101 | cutting the final redirect URL at its first `?` gives back the request URL and the query string (or no query) |
| OAuthEntryPoint.AuthorizeQueryOfCommence | force-authentication-core/src/main/java/net/davidbuccola/force/authentication/OAuthAuthenticationEntryPoint.java:50 | the authorize query built from `commence`'s two URLs carries the callback URL as `redirect_uri` and the final redirect URL as `state`, and that state cuts back into the request URL and query string |
| OAuthEntryPoint.Commence | force-authentication-core/src/main/java/net/davidbuccola/force/authentication/OAuthAuthenticationEntryPoint.java:40-52 | an API route gets 401 with the exception's message and no redirect; any other route is redirected to the authorize URI built from the callback URL and the final redirect URL, or the builder's exception escapes |

## Left out

- Logging, debug formatting, and the servlet response objects. `sendError`, `sendRedirect` and `chain.doFilter` are `Outcome` values.
- The order in which the filters are chained is configured outside these classes, and each filter is modelled on its own.
- The thread-local `SecurityContextHolder` is an explicit context value passed in and returned. Concurrent requests are not modelled.
- HMAC, base64, UTF-8 and Jackson are given functions. A JSON document that parses to `null` (which would make `remove` throw) is folded into a parse failure.
- `Arrays.equals` is modelled as plain equality. Timing is not expressible.
- The canvas library's `SignedRequest.verifyAndDecode` is a given function returning the decoded request or nothing. A `null` field inside a decoded request is not modelled.
- The HTTP POST and JSON reading of `getToken`, and `extractErrorMessage` of the connector, are a given `post` function. A rejected request arrives with its error message already extracted; an exception thrown inside `extractErrorMessage` itself is not modelled. A connection failure is the `ClientFailed` case, which escapes `getToken` and then `OAuthFilter.doFilter` uncaught.
- The route lookup of `FilterSecurityInterceptor` and the `FilterInvocation` it needs are not modelled. The route's attribute strings are an input.
- The rendering and percent-encoding of the authorize URI by `UriBuilder` are not modelled. The URI is kept as server URL, path and ordered query fields.
- `JerseyOAuthConnector.BuildAuthorizeUri`: whether `UriBuilder.fromUri` accepts the server URL, and whether a component holds an unresolved `{name}` template variable, are given predicates. The URI and template grammars are not modelled.
- `OAuthFilter.DoFilter`: a `null` token returned by the code exchange is not modelled. The exchange returns a token or throws.
- `OAuthEntryPoint.Commence`: the authentication exception's message is taken as a string, and a `null` message is not modelled.
- Request headers are looked up by exact name. The servlet container's case-insensitive header names are not modelled. Parameters are single-valued.
- `JavaLang.EqualsIgnoreCase`: this model folds ASCII letters only. It compares against the ASCII literal "OAuth ", and no other character folds to one of its letters, so the result is the same.
- `JavaLang.StringHash`: this model hashes Unicode scalar values, not UTF-16 code units. The two differ only on text outside the Basic Multilingual Plane.
- `ForceToken.Equals`: the `this == o` identity test is taken as value equality, which gives the same answer because the field comparison follows it.
- `toString`, the getters of the token, and `getRequestUriWithQueryString` (used only in a log line) carry no behaviour beyond returning a field.
- `SpringSecurityAuthorizationConnector` adapts an external interface through `URI.create`. It adds nothing beyond `AuthenticationUtils` and is not part of this model.
- `OAuthConnector`, `OAuthClientConfig` and `OAuthException` have no behaviour. They appear only as parameter types and exception values.
- `SignedParametersUtil.VerifyAndDecode` is a function. The in-place `remove("algorithm")` on the parsed map is a map difference.

## Findings

| source | as written | input that shows it | evidently intended | confidence | as-written member | corrected member |
|---|---|---|---|---|---|---|
| force-authentication-core/src/main/java/net/davidbuccola/force/authentication/SpringOAuthClientConfig.java:139-142 | `equals` tests `o instanceof OAuthClientConfig` and then casts `o` to `SpringOAuthClientConfig` | any other implementation of `OAuthClientConfig` passed to `equals` throws `ClassCastException` | test `instanceof SpringOAuthClientConfig`, so other implementations are simply unequal | not executed | ClientConfig.EqualsAsWritten | ClientConfig.Equals |
