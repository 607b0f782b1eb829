/**
 * `OAuthFilter`: handles the OAuth callback (`/_oauth`, section 4.1.2 of RFC 6749) and the
 * `Authorization: OAuth <token>` header with its `Force-Instance-Url` and `Force-User-Id` companions.
 */
module OAuthFilter {
  import opened Wrappers
  import opened JavaLang
  import opened Servlet
  import opened ForceToken

  const CALLBACK_PATH: string := "/_oauth"
  const AUTHORITIES: seq<Role> := [RoleUser, RoleApiUser]
  const MISSING_CALLBACK_PARAMETERS: string := "OAuth callback is missing required parameters"
  const MISSING_HEADER_VALUES: string := "Header-based authentication is missing required values"

  /** `isOAuthCallback`: the servlet path is exactly the callback path. */
  predicate IsOAuthCallback(request: HttpRequest) {
    request.servletPath == CALLBACK_PATH
  }

  /** `isSuccessCallback`: a non-empty `code` parameter. */
  predicate IsSuccessCallback(request: HttpRequest) {
    !IsEmpty(Parameter(request, "code"))
  }

  /** `isErrorCallback`: a non-empty `error` parameter. */
  predicate IsErrorCallback(request: HttpRequest) {
    !IsEmpty(Parameter(request, "error"))
  }

  /** `extractErrorMessage`: `error` (or "Authorization failed"), a colon, then `error_description` (or nothing). */
  function ExtractErrorMessage(request: HttpRequest): (message: string)
    ensures IsErrorCallback(request) ==>
      message == Parameter(request, "error").value + ":" + DefaultIfEmpty(Parameter(request, "error_description"), Some("")).value
    ensures !IsErrorCallback(request) ==>
      message == "Authorization failed:" + DefaultIfEmpty(Parameter(request, "error_description"), Some("")).value
  {
    DefaultIfEmpty(Parameter(request, "error"), Some("Authorization failed")).value
      + ":" + DefaultIfEmpty(Parameter(request, "error_description"), Some("")).value
  }

  /**
   * `isHeaderBasedAuthentication`: an `Authorization` header whose first six characters are
   * "OAuth " in any case. `substring(0, 6)` throws on a header shorter than six characters.
   */
  function IsHeaderBasedAuthentication(request: HttpRequest): (r: Result<bool, JavaException>)
    ensures Header(request, "Authorization").None? ==> r == Success(false)
    ensures Header(request, "Authorization").Some? && |Header(request, "Authorization").value| < 6 ==>
      r == Failure(StringIndexOutOfBoundsException)
    ensures Header(request, "Authorization").Some? && |Header(request, "Authorization").value| >= 6 ==>
      var h := Header(request, "Authorization").value;
      && r.Success?
      && (r.value <==> h[5] == ' ' && EqualsIgnoreCase(h[..5], "OAuth"))
  {
    var authorization := Header(request, "Authorization");
    if authorization.None? then Success(false)
    else if |authorization.value| < 6 then Failure(StringIndexOutOfBoundsException)
    else Success(EqualsIgnoreCase(authorization.value[..6], "OAuth "))
  }

  /** `authorization.split("\\s+", 2)[1]`: the text after the first run of white space. */
  function AccessTokenOf(authorization: string): (token: string)
    requires HasWhitespace(authorization)
    ensures |token| < |authorization| && token == authorization[|authorization| - |token|..]
    ensures token == [] || !IsWhitespace(token[0])
    // What precedes the token is the head up to the FIRST white space, then one unbroken run of white space.
    ensures var i := NextWhitespace(authorization, 0);
      && i < |authorization| - |token|
      && forall k :: i <= k < |authorization| - |token| ==> IsWhitespace(authorization[k])
  {
    SplitOnWhitespace(authorization)[1]
  }

  /** `areAllAuthenticationHeadersSpecified`: all three values non-empty. */
  predicate AreAllAuthenticationHeadersSpecified(userId: JString, accessToken: JString, instanceUrl: JString) {
    !IsEmpty(userId) && !IsEmpty(accessToken) && !IsEmpty(instanceUrl)
  }

  /**
   * `doFilter`. `getToken` is the connector's code-for-token exchange (section 4.1.3 of RFC 6749),
   * taken as given; a `Failure` is the exception it throws, which escapes the filter.
   */
  method DoFilter(request: HttpRequest, context: SecurityContext, getToken: (string, string) -> Result<ForceAuthenticationToken, JavaException>)
    returns (outcome: Outcome, context': SecurityContext)
    // The callback is recognised first, and it never lets the chain continue.
    ensures IsOAuthCallback(request) ==> !outcome.Continue?
    ensures IsOAuthCallback(request) && IsSuccessCallback(request) ==>
      match getToken(Parameter(request, "code").value, request.requestUrl)
      case Success(t) => outcome == Redirect(Parameter(request, "state")) && context' == Some(Force(t))
      case Failure(e) => outcome == Thrown(e) && context' == context
    ensures IsOAuthCallback(request) && !IsSuccessCallback(request) && IsErrorCallback(request) ==>
      && outcome == SendError(SC_UNAUTHORIZED,
           Parameter(request, "error").value + ":" + DefaultIfEmpty(Parameter(request, "error_description"), Some("")).value)
      && context' == context
    ensures IsOAuthCallback(request) && !IsSuccessCallback(request) && !IsErrorCallback(request) ==>
      outcome == SendError(SC_BAD_REQUEST, MISSING_CALLBACK_PARAMETERS) && context' == context
    // Otherwise the Authorization header is examined.
    ensures !IsOAuthCallback(request) && IsHeaderBasedAuthentication(request).Failure? ==>
      outcome == Thrown(IsHeaderBasedAuthentication(request).error) && context' == context
    ensures !IsOAuthCallback(request) && IsHeaderBasedAuthentication(request) == Success(true) ==>
      var accessToken := AccessTokenOf(Header(request, "Authorization").value);
      var instanceUrl := Header(request, "Force-Instance-Url");
      var userId := Header(request, "Force-User-Id");
      if AreAllAuthenticationHeadersSpecified(userId, Some(accessToken), instanceUrl) then
        && outcome == Continue
        && context' == Some(Force(NewToken(userId.value, accessToken, instanceUrl.value, AUTHORITIES)))
      else
        outcome == SendError(SC_BAD_REQUEST, MISSING_HEADER_VALUES) && context' == context
    ensures !IsOAuthCallback(request) && IsHeaderBasedAuthentication(request) == Success(false) ==>
      outcome == Continue && context' == context
    // A failing request installs nothing; the context only ever changes to a token.
    ensures outcome.SendError? || outcome.Thrown? ==> context' == context
    ensures context' != context ==> context'.Some? && context'.value.Force?
  {
    if IsOAuthCallback(request) {
      if IsSuccessCallback(request) {
        var exchange := getToken(Parameter(request, "code").value, request.requestUrl);
        if exchange.Failure? {
          return Thrown(exchange.error), context;
        }
        context' := Some(Force(exchange.value));
        var redirectUri := Parameter(request, "state");
        return Redirect(redirectUri), context';
      } else if IsErrorCallback(request) {
        var message := ExtractErrorMessage(request);
        return SendError(SC_UNAUTHORIZED, message), context;
      } else {
        return SendError(SC_BAD_REQUEST, MISSING_CALLBACK_PARAMETERS), context;
      }
    }
    var headerBased := IsHeaderBasedAuthentication(request);
    if headerBased.Failure? {
      return Thrown(headerBased.error), context;
    }
    context' := context;
    if headerBased.value {
      var authorization := Header(request, "Authorization").value;
      assert IsWhitespace(authorization[5]);
      var accessToken := AccessTokenOf(authorization);
      var instanceUrl := Header(request, "Force-Instance-Url");
      var userId := Header(request, "Force-User-Id");
      if AreAllAuthenticationHeadersSpecified(userId, Some(accessToken), instanceUrl) {
        var authenticationToken := NewToken(userId.value, accessToken, instanceUrl.value, AUTHORITIES);
        context' := Some(Force(authenticationToken));
      } else {
        return SendError(SC_BAD_REQUEST, MISSING_HEADER_VALUES), context;
      }
    }
    return Continue, context';
  }

  /** `Authorization: OAuth abc` with both companion headers yields the token abc. */
  lemma HeaderTokenExample()
    ensures HasWhitespace("OAuth abc") && AccessTokenOf("OAuth abc") == "abc"
    ensures HasWhitespace("oauth \t abc") && AccessTokenOf("oauth \t abc") == "abc"
  {
    var a := "OAuth abc";
    assert IsWhitespace(a[5]);
    assert NextWhitespace(a, 0) == 5 by {
      assert NextWhitespace(a, 5) == 5;
      assert NextWhitespace(a, 4) == 5;
      assert NextWhitespace(a, 3) == 5;
      assert NextWhitespace(a, 2) == 5;
      assert NextWhitespace(a, 1) == 5;
    }
    assert SkipWhitespace(a, 5) == 6 by {
      assert SkipWhitespace(a, 6) == 6;
    }
    assert a[6..] == "abc";
    var b := "oauth \t abc";
    assert IsWhitespace(b[5]);
    assert NextWhitespace(b, 0) == 5 by {
      assert NextWhitespace(b, 5) == 5;
      assert NextWhitespace(b, 4) == 5;
      assert NextWhitespace(b, 3) == 5;
      assert NextWhitespace(b, 2) == 5;
      assert NextWhitespace(b, 1) == 5;
    }
    assert SkipWhitespace(b, 5) == 8 by {
      assert SkipWhitespace(b, 8) == 8;
      assert SkipWhitespace(b, 7) == 8;
      assert SkipWhitespace(b, 6) == 8;
    }
    assert b[8..] == "abc";
  }
}
