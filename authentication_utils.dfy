/** `AuthenticationUtils`: read the current `ForceAuthenticationToken` from the security context. */
module AuthenticationUtils {
  import opened Wrappers
  import opened JavaLang
  import opened ForceToken

  const NO_TOKEN_MESSAGE: string := "There is no ForceAuthenticationToken in the current security context"

  /** `getAuthenticationTokenIfAvailable`: the context's token when it holds one, otherwise `null`. */
  function GetAuthenticationTokenIfAvailable(context: SecurityContext): (r: Option<ForceAuthenticationToken>)
    ensures r.Some? <==> context.Some? && context.value.Force?
    ensures r.Some? ==> context == Some(Force(r.value))
  {
    if context.Some? && context.value.Force? then Some(context.value.token) else None
  }

  /**
   * `getAuthenticationToken`: the context's token, or an `InsufficientAuthenticationException`
   * when the context is empty or holds another kind of `Authentication`. The context is only read.
   */
  function GetAuthenticationToken(context: SecurityContext): (r: Result<ForceAuthenticationToken, JavaException>)
    ensures r.Success? <==> context.Some? && context.value.Force?
    ensures r.Success? ==> context == Some(Force(r.value))
    ensures r.Failure? ==> r.error == InsufficientAuthenticationException(NO_TOKEN_MESSAGE)
  {
    match GetAuthenticationTokenIfAvailable(context)
    case Some(t) => Success(t)
    case None => Failure(InsufficientAuthenticationException(NO_TOKEN_MESSAGE))
  }
}
