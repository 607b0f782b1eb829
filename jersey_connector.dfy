/**
 * `JerseyOAuthConnector`: builds the authorization request URI (section 4.1.1 of RFC 6749),
 * shapes the token request (section 4.1.3) and turns the token response into a
 * `ForceAuthenticationToken`. The HTTP POST itself is a given function.
 */
module JerseyOAuthConnector {
  import opened Wrappers
  import opened JavaLang
  import opened ForceToken
  import opened ClientConfig

  const AUTHORIZE_PATH: string := "services/oauth2/authorize"
  const TOKEN_PATH: string := "services/oauth2/token"
  const AUTHORITIES: seq<Role> := [RoleUser, RoleApiUser]

  /** A query parameter or form field: name and (possibly `null`) value, in order. */
  datatype Field = Field(name: string, value: JString)

  /** What the `UriBuilder` holds: the server URL, the appended path and the query parameters in order. */
  datatype AuthorizeUri = AuthorizeUri(serverUrl: string, path: string, query: seq<Field>)

  /** The value of the first field called `name`. */
  function Lookup(fields: seq<Field>, name: string): JString {
    if fields == [] then None
    else if fields[0].name == name then fields[0].value
    else Lookup(fields[1..], name)
  }

  /** Fields with other names do not hide or change the value found behind them. */
  lemma {:induction false} LookupSkips(fields: seq<Field>, rest: seq<Field>, name: string)
    requires forall k :: 0 <= k < |fields| ==> fields[k].name != name
    ensures Lookup(fields + rest, name) == Lookup(rest, name)
  {
    if fields == [] {
      assert fields + rest == rest;
    } else {
      assert (fields + rest)[1..] == fields[1..] + rest;
      LookupSkips(fields[1..], rest, name);
    }
  }

  /** A field only when its value is not empty. */
  function Optional(name: string, value: JString): seq<Field> {
    if IsEmpty(value) then [] else [Field(name, value)]
  }

  /** The query of the authorize URI: the three fixed parameters, then `display`, `prompt`, `state` when non-empty. */
  function AuthorizeQuery(clientId: string, display: JString, prompt: JString, callbackUri: string, state: JString): seq<Field> {
    [Field("response_type", Some("code")), Field("client_id", Some(clientId)), Field("redirect_uri", Some(callbackUri))]
      + Optional("display", display) + Optional("prompt", prompt) + Optional("state", state)
  }

  /** What a reader of the authorize URI's query finds under each name. */
  lemma {:induction false} AuthorizeQueryLookup(clientId: string, display: JString, prompt: JString, callbackUri: string, state: JString)
    ensures var q := AuthorizeQuery(clientId, display, prompt, callbackUri, state);
      && q[..3] == [Field("response_type", Some("code")), Field("client_id", Some(clientId)), Field("redirect_uri", Some(callbackUri))]
      && Lookup(q, "response_type") == Some("code")
      && Lookup(q, "client_id") == Some(clientId)
      && Lookup(q, "redirect_uri") == Some(callbackUri)
      && Lookup(q, "display") == (if IsEmpty(display) then None else display)
      && Lookup(q, "prompt") == (if IsEmpty(prompt) then None else prompt)
      && Lookup(q, "state") == (if IsEmpty(state) then None else state)
  {
    var f0, f1, f2 := Field("response_type", Some("code")), Field("client_id", Some(clientId)), Field("redirect_uri", Some(callbackUri));
    var d, p, s := Optional("display", display), Optional("prompt", prompt), Optional("state", state);
    var q := AuthorizeQuery(clientId, display, prompt, callbackUri, state);
    assert q == [f0] + ([f1] + ([f2] + (d + (p + s))));
    LookupSkips([f0], [f1] + ([f2] + (d + (p + s))), "client_id");
    LookupSkips([f0, f1], [f2] + (d + (p + s)), "redirect_uri");
    assert q == [f0, f1] + ([f2] + (d + (p + s)));
    assert q == [f0, f1, f2] + (d + (p + s));
    LookupSkips([f0, f1, f2], d + (p + s), "display");
    LookupSkips([f0, f1, f2], d + (p + s), "prompt");
    LookupSkips([f0, f1, f2], d + (p + s), "state");
    LookupSkips(d, p + s, "prompt");
    LookupSkips(d, p + s, "state");
    LookupSkips(p, s, "state");
    LookupSkips(s, [], "display");
    LookupSkips(s, [], "prompt");
    LookupSkips(p, [], "display");
    assert p + s + [] == p + s;
    assert s + [] == s;
  }

  /**
   * Whether `build()` can render the assembled URI: every component that keeps URI-template syntax
   * (the server URL and each query value) must be free of unresolved `{name}` variables, as
   * `templateFree` says; `build()` is called with no values to substitute.
   */
  predicate Renderable(uri: AuthorizeUri, templateFree: string -> bool) {
    && templateFree(uri.serverUrl)
    && forall k :: 0 <= k < |uri.query| ==> uri.query[k].value.Some? ==> templateFree(uri.query[k].value.value)
  }

  /**
   * `buildAuthorizeUri`. `UriBuilder.fromUri` refuses a `null` server URL and one `isUri` rejects;
   * `queryParam` refuses a `null` client id; `build()` refuses an unrenderable URI. Each refusal is an
   * `IllegalArgumentException`.
   */
  method BuildAuthorizeUri(config: ConfigValues, callbackUri: string, state: JString,
                           isUri: string -> bool, templateFree: string -> bool)
    returns (r: Result<AuthorizeUri, JavaException>)
    ensures r.Failure? <==>
      || config.serverURL.None? || !isUri(config.serverURL.value) || config.clientId.None?
      || !Renderable(AuthorizeUri(config.serverURL.value, AUTHORIZE_PATH,
                                  AuthorizeQuery(config.clientId.value, config.display, config.prompt, callbackUri, state)),
                     templateFree)
    ensures r.Failure? ==> r.error == IllegalArgumentException(None)
    ensures r.Success? ==>
      r.value == AuthorizeUri(config.serverURL.value, AUTHORIZE_PATH,
                              AuthorizeQuery(config.clientId.value, config.display, config.prompt, callbackUri, state))
  {
    if config.serverURL.None? || !isUri(config.serverURL.value) {
      return Failure(IllegalArgumentException(None));
    }
    var builder := AuthorizeUri(config.serverURL.value, AUTHORIZE_PATH, []);
    builder := builder.(query := builder.query + [Field("response_type", Some("code"))]);
    if config.clientId.None? {
      return Failure(IllegalArgumentException(None));
    }
    builder := builder.(query := builder.query + [Field("client_id", config.clientId)]);
    builder := builder.(query := builder.query + [Field("redirect_uri", Some(callbackUri))]);
    if !IsEmpty(config.display) {
      builder := builder.(query := builder.query + [Field("display", config.display)]);
    }
    if !IsEmpty(config.prompt) {
      builder := builder.(query := builder.query + [Field("prompt", config.prompt)]);
    }
    if !IsEmpty(state) {
      builder := builder.(query := builder.query + [Field("state", state)]);
    }
    assert builder.query == AuthorizeQuery(config.clientId.value, config.display, config.prompt, callbackUri, state);
    if !Renderable(builder, templateFree) {
      return Failure(IllegalArgumentException(None));
    }
    return Success(builder);
  }

  /** `extractUserId`: the text after the last `/` of the identity URL; an empty URL is refused by `Validate.notEmpty`. */
  function ExtractUserId(idUrl: string): (r: Result<string, JavaException>)
    ensures idUrl == "" <==> r.Failure?
    ensures r.Failure? ==> r.error == IllegalArgumentException(None)
    ensures r.Success? ==>
      && '/' !in r.value
      && |r.value| <= |idUrl| && idUrl[|idUrl| - |r.value|..] == r.value
      && (|r.value| == |idUrl| || idUrl[|idUrl| - |r.value| - 1] == '/')
  {
    if idUrl == "" then Failure(IllegalArgumentException(None))
    else Success(idUrl[LastIndexOf(idUrl, '/') + 1..])
  }

  /** An identity URL ending in `/<id>` gives `<id>`; one without a slash is its own user id. */
  lemma {:induction false} ExtractUserIdOfPath(prefix: string, id: string)
    requires '/' !in id
    ensures ExtractUserId(prefix + "/" + id) == Success(id)
    ensures id != "" ==> ExtractUserId(id) == Success(id)
  {
    var u := prefix + "/" + id;
    var r := ExtractUserId(u).value;
    assert u[|prefix|] == '/';
    assert u[|prefix| + 1..] == id;
  }

  /** The form posted to the token endpoint: the code, the grant type and the client's credentials. */
  function TokenRequestForm(config: ConfigValues, code: string, callbackUri: string): seq<Field> {
    [Field("code", Some(code)), Field("grant_type", Some("authorization_code")),
     Field("client_id", config.clientId), Field("client_secret", config.clientSecret),
     Field("redirect_uri", Some(callbackUri))]
  }

  /** The token response's `id`, `access_token` and `instance_url` fields; `None` when a field is missing. */
  datatype TokenResponse = TokenResponse(id: JString, accessToken: JString, instanceUrl: JString)

  /** How the POST to the token endpoint ends. */
  datatype PostResult =
    | Posted(response: TokenResponse)
    | RequestRejected(errorMessage: string)   // UniformInterfaceException, with its extracted message
    | ResponseUnparsable(message: string)     // JsonProcessingException
    | StreamFailed(message: string)           // IOException
    | ClientFailed(message: string)           // ClientHandlerException: no connection, timeout

  /**
   * `getToken(code, callbackUri)`. `post` performs the request for the form it is given. The token's
   * arguments are read in order: a missing `id` makes `asText` throw a `NullPointerException`, an empty
   * one fails `Validate.notEmpty`, then a missing `access_token` or `instance_url` throws as `id` did.
   * None of these, nor a `ClientHandlerException`, is caught.
   */
  function GetToken(config: ConfigValues, code: string, callbackUri: string, post: seq<Field> -> PostResult)
    : (r: Result<ForceAuthenticationToken, JavaException>)
    ensures r.Success? ==>
      && var response := post(TokenRequestForm(config, code, callbackUri));
      && response.Posted?
      && response.response.id.Some? && response.response.accessToken.Some? && response.response.instanceUrl.Some?
      && ExtractUserId(response.response.id.value) == Success(r.value.userId)
      && r.value.accessToken == response.response.accessToken.value
      && r.value.instanceUrl == response.response.instanceUrl.value
      && r.value.authorities == AUTHORITIES && r.value.authenticated
    ensures post(TokenRequestForm(config, code, callbackUri)).Posted? ==>
      var response := post(TokenRequestForm(config, code, callbackUri)).response;
      if response.id.None? then r == Failure(NullPointerException)
      else if response.id.value == "" then r == Failure(IllegalArgumentException(None))
      else if response.accessToken.None? || response.instanceUrl.None? then r == Failure(NullPointerException)
      else r.Success?
    ensures post(TokenRequestForm(config, code, callbackUri)).RequestRejected? ==>
      r == Failure(OAuthException("Problem with OAuth token request: " + post(TokenRequestForm(config, code, callbackUri)).errorMessage))
    ensures post(TokenRequestForm(config, code, callbackUri)).ResponseUnparsable? ==>
      r == Failure(OAuthException("Problem with OAuth token response: " + post(TokenRequestForm(config, code, callbackUri)).message))
    ensures post(TokenRequestForm(config, code, callbackUri)).StreamFailed? ==>
      r == Failure(OAuthException("Problem reading OAuth token response stream: " + post(TokenRequestForm(config, code, callbackUri)).message))
    ensures post(TokenRequestForm(config, code, callbackUri)).ClientFailed? ==>
      r == Failure(ClientHandlerException(post(TokenRequestForm(config, code, callbackUri)).message))
  {
    match post(TokenRequestForm(config, code, callbackUri))
    case RequestRejected(m) => Failure(OAuthException("Problem with OAuth token request: " + m))
    case ResponseUnparsable(m) => Failure(OAuthException("Problem with OAuth token response: " + m))
    case StreamFailed(m) => Failure(OAuthException("Problem reading OAuth token response stream: " + m))
    case ClientFailed(m) => Failure(ClientHandlerException(m))
    case Posted(response) =>
      if response.id.None? then Failure(NullPointerException)
      else match ExtractUserId(response.id.value)
        case Failure(e) => Failure(e)
        case Success(userId) =>
          if response.accessToken.None? || response.instanceUrl.None? then Failure(NullPointerException)
          else Success(NewToken(userId, response.accessToken.value, response.instanceUrl.value, AUTHORITIES))
  }

  /** The token request carries the code, `grant_type=authorization_code`, the client id and secret, and the redirect URI. */
  lemma TokenRequestFormFields(config: ConfigValues, code: string, callbackUri: string)
    ensures var form := TokenRequestForm(config, code, callbackUri);
      && Lookup(form, "code") == Some(code)
      && Lookup(form, "grant_type") == Some("authorization_code")
      && Lookup(form, "client_id") == config.clientId
      && Lookup(form, "client_secret") == config.clientSecret
      && Lookup(form, "redirect_uri") == Some(callbackUri)
  {
    var form := TokenRequestForm(config, code, callbackUri);
    LookupSkips(form[..2], form[2..], "client_id");
    LookupSkips(form[..3], form[3..], "client_secret");
    LookupSkips(form[..4], form[4..], "redirect_uri");
    assert form == form[..2] + form[2..] == form[..3] + form[3..] == form[..4] + form[4..];
  }
}
