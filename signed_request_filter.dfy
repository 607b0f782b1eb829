/**
 * `SignedRequestFilter`: authentication carried by a Salesforce canvas `signed_request` parameter.
 * The canvas library's `SignedRequest.verifyAndDecode` is taken as a given function.
 */
module SignedRequestFilter {
  import opened Wrappers
  import opened JavaLang
  import opened Servlet
  import opened ForceToken

  const SIGNED_PARAMETERS: string := "signed_parameters"
  const SIGNED_REQUEST: string := "signed_request"
  const AUTHORITIES: seq<Role> := [RoleUser, RoleCanvasUser]
  const VERIFICATION_FAILED: string := "Signed request verification failed"

  /** The fields of a decoded `CanvasRequest` the filter reads. */
  datatype CanvasRequest = CanvasRequest(
    userId: string,                                  // context.userContext.userId
    oAuthToken: string,                              // client.oAuthToken
    instanceUrl: string,                             // client.instanceUrl
    environmentParameters: map<string, JsonValue>)   // context.environmentContext.parameters

  /**
   * `doFilter`. `verifyAndDecode(signedRequest, clientSecret)` is `None` when the library throws
   * its `SecurityException`.
   */
  method DoFilter(request: HttpRequest, context: SecurityContext, clientSecret: JString,
                  verifyAndDecode: (string, JString) -> Option<CanvasRequest>)
    returns (outcome: Outcome, context': SecurityContext, attributes: map<string, Attribute>)
    ensures Parameter(request, SIGNED_REQUEST).None? ==>
      outcome == Continue && context' == context && attributes == request.attributes
    ensures Parameter(request, SIGNED_REQUEST).Some? ==>
      match verifyAndDecode(Parameter(request, SIGNED_REQUEST).value, clientSecret)
      case None =>
        outcome == SendError(SC_BAD_REQUEST, VERIFICATION_FAILED) && context' == context && attributes == request.attributes
      case Some(canvas) =>
        && outcome == Continue
        && context' == Some(Force(NewToken(canvas.userId, canvas.oAuthToken, canvas.instanceUrl, AUTHORITIES)))
        && attributes == request.attributes[SIGNED_PARAMETERS := EnvironmentParameters(canvas.environmentParameters)]
    ensures !outcome.Continue? ==> context' == context && attributes == request.attributes
    ensures context' != context ==> context'.Some? && context'.value.Force? && context'.value.token.authorities == AUTHORITIES
  {
    var signedRequest := Parameter(request, SIGNED_REQUEST);
    context', attributes := context, request.attributes;
    if signedRequest.Some? {
      var canvasRequest := verifyAndDecode(signedRequest.value, clientSecret);
      if canvasRequest.None? {
        return SendError(SC_BAD_REQUEST, VERIFICATION_FAILED), context, request.attributes;
      }
      var canvas := canvasRequest.value;
      var authenticationToken := NewToken(canvas.userId, canvas.oAuthToken, canvas.instanceUrl, AUTHORITIES);
      context' := Some(Force(authenticationToken));
      attributes := attributes[SIGNED_PARAMETERS := EnvironmentParameters(canvas.environmentParameters)];
    }
    outcome := Continue;
  }
}
