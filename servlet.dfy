/**
 * The parts of a servlet request and response the filters look at, as values. A filter's
 * response is an `Outcome`: let the chain continue, redirect, send an error, or let an
 * exception escape from `doFilter`.
 */
module Servlet {
  import opened Wrappers
  import opened JavaLang

  const SC_BAD_REQUEST: int := 400
  const SC_UNAUTHORIZED: int := 401

  /** A decoded JSON value, as the canvas library hands over environment parameters. */
  datatype JsonValue =
    | JsonNull
    | JsonBool(b: bool)
    | JsonNumber(n: int)
    | JsonString(s: string)
    | JsonArray(items: seq<JsonValue>)
    | JsonObject(fields: map<string, JsonValue>)

  /** What a filter stores in a request attribute. */
  datatype Attribute =
    | SignedParametersText(text: string)                         // the raw `signed_parameters` string
    | EnvironmentParameters(parameters: map<string, JsonValue>)   // a canvas request's parameter map

  datatype HttpRequest = HttpRequest(
    scheme: string,
    serverName: string,
    serverPort: int,
    contextPath: string,
    servletPath: string,
    requestUrl: string,           // `getRequestURL()`: the URL without the query string
    queryString: JString,
    parameters: map<string, string>,
    headers: map<string, string>,
    attributes: map<string, Attribute>)

  /** `request.getParameter(name)`. */
  function Parameter(request: HttpRequest, name: string): JString {
    if name in request.parameters then Some(request.parameters[name]) else None
  }

  /** `request.getHeader(name)`. */
  function Header(request: HttpRequest, name: string): JString {
    if name in request.headers then Some(request.headers[name]) else None
  }

  /** How `doFilter` or `commence` ends. */
  datatype Outcome =
    | Continue                                  // chain.doFilter(request, response)
    | Redirect(location: JString)               // response.sendRedirect(location)
    | SendError(status: int, message: string)   // response.sendError(status, message)
    | Thrown(exception: JavaException)          // an exception escapes
}
