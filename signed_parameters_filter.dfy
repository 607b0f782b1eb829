/**
 * `SignedParametersFilter`: authentication carried by a `signed_parameters` request parameter
 * checked with `SignedParametersUtil`.
 */
module SignedParametersFilter {
  import opened Wrappers
  import opened JavaLang
  import opened Servlet
  import opened ForceToken
  import SignedParametersUtil

  const SIGNED_PARAMETERS: string := "signed_parameters"
  const AUTHORITIES: seq<Role> := [RoleUser, RoleApiUser, RoleCanvasUser]
  const VERIFY_FAILED: string := "Signed parameters decode and verify failed"
  const MISSING_VALUES: string := "Signed parameters authentication is missing required values"

  predicate IsAnyAuthenticationParameterSpecified(userId: JString, accessToken: JString, instanceUrl: JString) {
    userId.Some? || accessToken.Some? || instanceUrl.Some?
  }

  predicate AreAllAuthenticationParametersSpecified(userId: JString, accessToken: JString, instanceUrl: JString) {
    userId.Some? && accessToken.Some? && instanceUrl.Some?
  }

  predicate IsJustUserIdSpecified(userId: JString, accessToken: JString, instanceUrl: JString) {
    userId.Some? && accessToken.None? && instanceUrl.None?
  }

  /** The four cases `doFilter` tells apart are exhaustive and exclusive. */
  lemma ParameterCasesPartition(userId: JString, accessToken: JString, instanceUrl: JString)
    ensures var none := !IsAnyAuthenticationParameterSpecified(userId, accessToken, instanceUrl);
            var all := AreAllAuthenticationParametersSpecified(userId, accessToken, instanceUrl);
            var justUserId := IsJustUserIdSpecified(userId, accessToken, instanceUrl);
            var partial := !none && !all && !justUserId;
            (none ==> !all && !justUserId) && (all ==> !justUserId)
            && (partial <==> (accessToken.Some? || instanceUrl.Some?) && !all)
  {
  }

  /** `getCurrentSecurityContextUserId`: the user id of the context's token, or `null`. */
  function GetCurrentSecurityContextUserId(context: SecurityContext): (userId: JString)
    ensures userId.Some? <==> context.Some? && context.value.Force?
    ensures userId.Some? ==> userId.value == context.value.token.userId
  {
    if context.Some? && context.value.Force? then Some(context.value.token.userId) else None
  }

  /** `defaultIfEmpty(parameters.remove(key), null)`: the value of `key`, empty text counting as absent. */
  function Credential(parameters: SignedParametersUtil.Parameters, key: string): (value: JString)
    ensures value.Some? ==> key in parameters && parameters[key] == value && value.value != ""
    ensures value.None? ==> IsEmpty(Get(parameters, key))
  {
    DefaultIfEmpty(Get(parameters, key), None)
  }

  /**
   * `doFilter`. `clientSecret` is the configured client secret (possibly `null`); the result
   * carries the outcome, the new security context and the new request attributes.
   */
  method DoFilter(codec: SignedParametersUtil.Codec, request: HttpRequest, context: SecurityContext, clientSecret: JString)
    returns (outcome: Outcome, context': SecurityContext, attributes: map<string, Attribute>)
    ensures Parameter(request, SIGNED_PARAMETERS).None? ==>
      outcome == Continue && context' == context && attributes == request.attributes
    ensures Parameter(request, SIGNED_PARAMETERS).Some? ==>
      var signed := Parameter(request, SIGNED_PARAMETERS).value;
      match SignedParametersUtil.VerifyAndDecode(codec, Some(signed), clientSecret)
      case Failure(GeneralSecurityException) =>
        outcome == SendError(SC_BAD_REQUEST, VERIFY_FAILED) && context' == context && attributes == request.attributes
      case Failure(e) =>
        outcome == Thrown(e) && context' == context && attributes == request.attributes
      case Success(parameters) =>
        var userId := Credential(parameters, "userId");
        var accessToken := Credential(parameters, "accessToken");
        var instanceUrl := Credential(parameters, "instanceUrl");
        var marked := request.attributes[SIGNED_PARAMETERS := SignedParametersText(signed)];
        if AreAllAuthenticationParametersSpecified(userId, accessToken, instanceUrl) then
          && outcome == Continue && attributes == marked
          && context' == Some(Force(NewToken(userId.value, accessToken.value, instanceUrl.value, AUTHORITIES)))
        else if IsJustUserIdSpecified(userId, accessToken, instanceUrl) then
          && outcome == Continue && attributes == marked
          && var current := GetCurrentSecurityContextUserId(context);
          && context' == (if current.Some? && current != userId then None else context)
        else if !IsAnyAuthenticationParameterSpecified(userId, accessToken, instanceUrl) then
          outcome == Continue && attributes == marked && context' == context
        else
          outcome == SendError(SC_BAD_REQUEST, MISSING_VALUES) && context' == context && attributes == request.attributes
    // Failing requests change nothing; the context is only ever cleared or given a complete canvas token.
    ensures !outcome.Continue? ==> context' == context && attributes == request.attributes
    ensures context' != context ==>
      || context' == None
      || (&& context'.Some? && context'.value.Force?
          && var t := context'.value.token;
          && t.userId != "" && t.accessToken != "" && t.instanceUrl != "" && t.authorities == AUTHORITIES)
  {
    var signedParameters := Parameter(request, SIGNED_PARAMETERS);
    context', attributes := context, request.attributes;
    if signedParameters.Some? {
      var decoded := SignedParametersUtil.VerifyAndDecode(codec, signedParameters, clientSecret);
      if decoded.Failure? {
        if decoded.error == GeneralSecurityException {
          return SendError(SC_BAD_REQUEST, VERIFY_FAILED), context, request.attributes;
        }
        return Thrown(decoded.error), context, request.attributes;
      }
      var parameters := decoded.value;
      var userId := Credential(parameters, "userId");
      parameters := parameters - {"userId"};
      var accessToken := Credential(parameters, "accessToken");
      parameters := parameters - {"accessToken"};
      var instanceUrl := Credential(parameters, "instanceUrl");
      parameters := parameters - {"instanceUrl"};
      if IsAnyAuthenticationParameterSpecified(userId, accessToken, instanceUrl) {
        if AreAllAuthenticationParametersSpecified(userId, accessToken, instanceUrl) {
          var authenticationToken := NewToken(userId.value, accessToken.value, instanceUrl.value, AUTHORITIES);
          context' := Some(Force(authenticationToken));
        } else if IsJustUserIdSpecified(userId, accessToken, instanceUrl) {
          var currentUserId := GetCurrentSecurityContextUserId(context);
          if currentUserId.Some? && currentUserId != userId {
            context' := None;
          }
        } else {
          return SendError(SC_BAD_REQUEST, MISSING_VALUES), context, request.attributes;
        }
      }
      attributes := attributes[SIGNED_PARAMETERS := SignedParametersText(signedParameters.value)];
    }
    outcome := Continue;
  }
}
