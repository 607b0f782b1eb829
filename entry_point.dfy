/**
 * `OAuthAuthenticationEntryPoint.commence`: what an unauthenticated request to a protected URL gets.
 * API routes get a 401; other routes are redirected into the OAuth authorization flow, with a
 * callback URL back to this server and the current URL as `state`.
 */
module OAuthEntryPoint {
  import opened Wrappers
  import opened JavaLang
  import opened Servlet
  import OAuthFilter
  import ClientConfig
  import JerseyOAuthConnector

  const API_ROLE: string := "ROLE_API_USER"

  /** A route is an API route when one of its configuration attributes mentions `ROLE_API_USER`. */
  predicate IsApiRoute(attributes: seq<string>) {
    exists k :: 0 <= k < |attributes| && Contains(attributes[k], API_ROLE)
  }

  /** `isApiUrl`: scan the route's attribute strings, stopping at the first that mentions `ROLE_API_USER`. */
  method IsApiUrl(attributes: seq<string>) returns (api: bool)
    ensures api <==> IsApiRoute(attributes)
  {
    var i := 0;
    while i < |attributes|
      invariant 0 <= i <= |attributes|
      invariant forall k :: 0 <= k < i ==> !Contains(attributes[k], API_ROLE)
    {
      if Contains(attributes[i], API_ROLE) {
        return true;
      }
      i := i + 1;
    }
    return false;
  }

  /** The port `buildCallbackUrl` works with: a negative one is taken as 80. */
  function EffectivePort(port: int): nat {
    if port < 0 then 80 else port
  }

  /** The port is written out when it is not the default of http (80) or https (443); for any other scheme it never is. */
  predicate ShowsPort(scheme: string, port: int) {
    (scheme == "http" && EffectivePort(port) != 80) || (scheme == "https" && EffectivePort(port) != 443)
  }

  /** `scheme://serverName[:port]contextPath/_oauth`. */
  function CallbackUrl(scheme: string, serverName: string, port: int, contextPath: string): string {
    scheme + "://" + serverName
      + (if ShowsPort(scheme, port) then ":" + DecimalString(EffectivePort(port)) else "")
      + contextPath + OAuthFilter.CALLBACK_PATH
  }

  /** `buildCallbackUrl`: append the pieces to a builder one by one. */
  method BuildCallbackUrl(request: HttpRequest) returns (url: string)
    ensures url == CallbackUrl(request.scheme, request.serverName, request.serverPort, request.contextPath)
  {
    var builder := "";
    var scheme := request.scheme;
    var port := request.serverPort;
    if port < 0 {
      port := 80;
    }
    builder := builder + scheme + "://";
    builder := builder + request.serverName;
    if (scheme == "http" && port != 80) || (scheme == "https" && port != 443) {
      builder := builder + [':'] + DecimalString(port);
    }
    builder := builder + request.contextPath;
    builder := builder + "/_oauth";
    return builder;
  }

  /**
   * The callback URL is the server's root followed by the context path and `/_oauth`, so its servlet
   * path is the one `OAuthFilter` recognises; the default port of http and https is left out, a
   * negative port counts as 80, and any other scheme never shows a port.
   */
  lemma CallbackUrlShape(scheme: string, serverName: string, port: int, contextPath: string)
    ensures var url := CallbackUrl(scheme, serverName, port, contextPath);
      && url[..|scheme| + 3] == scheme + "://"
      && url[|url| - |OAuthFilter.CALLBACK_PATH|..] == OAuthFilter.CALLBACK_PATH
      && (!ShowsPort(scheme, port) ==> url == scheme + "://" + serverName + contextPath + "/_oauth")
      && (ShowsPort(scheme, port) ==> url == scheme + "://" + serverName + ":" + DecimalString(EffectivePort(port)) + contextPath + "/_oauth")
      && (scheme != "http" && scheme != "https" ==> !ShowsPort(scheme, port))
      && (scheme == "https" && port < 0 ==> ShowsPort(scheme, port) && DecimalString(EffectivePort(port)) == "80")
      && (scheme == "http" && (port < 0 || port == 80) ==> !ShowsPort(scheme, port))
      && (scheme == "https" && port == 443 ==> !ShowsPort(scheme, port))
  {
  }

  /** The URL to come back to: the request URL, then `?` and the query string when there is one. */
  function FinalRedirectUrl(requestUrl: string, queryString: JString): string {
    if queryString.Some? then requestUrl + "?" + queryString.value else requestUrl
  }

  /** `buildFinalRedirectUrl`. */
  method BuildFinalRedirectUrl(request: HttpRequest) returns (url: string)
    ensures url == FinalRedirectUrl(request.requestUrl, request.queryString)
  {
    var buffer := request.requestUrl;
    if request.queryString.Some? {
      buffer := buffer + "?" + request.queryString.value;
    }
    return buffer;
  }

  /**
   * The original destination survives the round trip: cutting the final redirect URL at its first
   * `?` gives back the request URL and the query string (a request URL never holds a `?`).
   */
  lemma {:induction false} FinalRedirectUrlRoundTrip(requestUrl: string, queryString: JString)
    requires '?' !in requestUrl
    ensures SplitAtFirst(FinalRedirectUrl(requestUrl, queryString), '?') == (requestUrl, queryString)
  {
    if queryString.Some? {
      SplitAtFirstOfJoin(requestUrl, '?', queryString.value);
      assert requestUrl + "?" + queryString.value == requestUrl + ['?'] + queryString.value;
    }
  }

  /**
   * What the authorization server is sent when `commence` hands its two URLs to the connector's
   * `buildAuthorizeUri`: `redirect_uri` is the callback URL, which `OAuthFilter` catches, and
   * `state` is the final redirect URL, which cuts back into the original request URL and query.
   */
  lemma {:induction false} AuthorizeQueryOfCommence(config: ClientConfig.ConfigValues, request: HttpRequest)
    requires config.clientId.Some?
    requires request.requestUrl != "" && '?' !in request.requestUrl
    ensures var callbackUrl := CallbackUrl(request.scheme, request.serverName, request.serverPort, request.contextPath);
      var finalRedirectUrl := FinalRedirectUrl(request.requestUrl, request.queryString);
      var q := JerseyOAuthConnector.AuthorizeQuery(config.clientId.value, config.display, config.prompt, callbackUrl, Some(finalRedirectUrl));
      && JerseyOAuthConnector.Lookup(q, "redirect_uri") == Some(callbackUrl)
      && JerseyOAuthConnector.Lookup(q, "state") == Some(finalRedirectUrl)
      && SplitAtFirst(finalRedirectUrl, '?') == (request.requestUrl, request.queryString)
  {
    var callbackUrl := CallbackUrl(request.scheme, request.serverName, request.serverPort, request.contextPath);
    var finalRedirectUrl := FinalRedirectUrl(request.requestUrl, request.queryString);
    JerseyOAuthConnector.AuthorizeQueryLookup(config.clientId.value, config.display, config.prompt, callbackUrl, Some(finalRedirectUrl));
    FinalRedirectUrlRoundTrip(request.requestUrl, request.queryString);
  }

  /**
   * `commence`. `routeAttributes` are the access rules configured for the request's URL;
   * `buildAuthorizeUri(callbackUrl, state)` is the connector's, which may throw.
   */
  method Commence(request: HttpRequest, routeAttributes: seq<string>, authExceptionMessage: string,
                  buildAuthorizeUri: (string, string) -> Result<string, JavaException>)
    returns (outcome: Outcome)
    ensures IsApiRoute(routeAttributes) ==> outcome == SendError(SC_UNAUTHORIZED, authExceptionMessage)
    ensures !IsApiRoute(routeAttributes) ==>
      var callbackUrl := CallbackUrl(request.scheme, request.serverName, request.serverPort, request.contextPath);
      var finalRedirectUrl := FinalRedirectUrl(request.requestUrl, request.queryString);
      match buildAuthorizeUri(callbackUrl, finalRedirectUrl)
      case Success(uri) => outcome == Redirect(Some(uri))
      case Failure(e) => outcome == Thrown(e)
    ensures outcome.Redirect? ==> !IsApiRoute(routeAttributes)
  {
    var api := IsApiUrl(routeAttributes);
    if api {
      return SendError(SC_UNAUTHORIZED, authExceptionMessage);
    }
    var callbackUrl := BuildCallbackUrl(request);
    var finalRedirectUrl := BuildFinalRedirectUrl(request);
    var authorizeUri := buildAuthorizeUri(callbackUrl, finalRedirectUrl);
    if authorizeUri.Failure? {
      return Thrown(authorizeUri.error);
    }
    return Redirect(Some(authorizeUri.value));
  }
}
