/**
 * `ForceAuthenticationToken`: the Spring `Authentication` holding the result of a Salesforce
 * authentication (user id, OAuth access token, instance URL, granted authorities).
 */
module ForceToken {
  import opened Wrappers
  import opened JavaLang

  /** The granted authorities the filters and the connector hand out. */
  datatype Role = RoleUser | RoleApiUser | RoleCanvasUser {
    function Name(): string {
      match this
      case RoleUser => "ROLE_USER"
      case RoleApiUser => "ROLE_API_USER"
      case RoleCanvasUser => "ROLE_CANVAS_USER"
    }
  }

  /** The three string fields are final; `authenticated` is the flag of `AbstractAuthenticationToken`. */
  datatype ForceAuthenticationToken = ForceAuthenticationToken(
    userId: string,
    accessToken: string,
    instanceUrl: string,
    authorities: seq<Role>,
    authenticated: bool)

  /** What a security context can hold: this project's token or some other `Authentication`. */
  datatype Authentication =
    | Force(token: ForceAuthenticationToken)
    | OtherAuthentication(name: string)

  /** The request's security context: at most one current `Authentication`. */
  type SecurityContext = Option<Authentication>

  /** The constructor: keeps the three values and the authorities as given and marks the token authenticated. */
  function NewToken(userId: string, accessToken: string, instanceUrl: string, authorities: seq<Role>)
    : (t: ForceAuthenticationToken)
    ensures t.userId == userId && t.accessToken == accessToken && t.instanceUrl == instanceUrl
    ensures t.authorities == authorities
    ensures t.authenticated
  {
    ForceAuthenticationToken(userId, accessToken, instanceUrl, authorities, true)
  }

  /** `getCredentials`: the access token. */
  function Credentials(t: ForceAuthenticationToken): (c: string)
    ensures c == t.accessToken
  {
    t.accessToken
  }

  /** `getPrincipal`: the user id. */
  function Principal(t: ForceAuthenticationToken): (p: string)
    ensures p == t.userId
  {
    t.userId
  }

  /** `t.equals(o)`, with `o` any object: `None` is `null`, `OtherAuthentication` any object of another class. */
  function Equals(t: ForceAuthenticationToken, o: Option<Authentication>): bool {
    if o == Some(Force(t)) then true                  // this == o
    else if !(o.Some? && o.value.Force?) then false   // !(o instanceof ForceAuthenticationToken)
    else
      var that := o.value.token;
      t.userId == that.userId && t.accessToken == that.accessToken && t.instanceUrl == that.instanceUrl
  }

  /** `hashCode`: `HashCodeBuilder(17, 37)` over the user id, the access token and the instance URL. */
  function HashCode(t: ForceAuthenticationToken): Int32 {
    HashAppend(HashAppend(HashAppend(17, 37, Some(t.userId)), 37, Some(t.accessToken)), 37, Some(t.instanceUrl))
  }

  /** Two tokens are equal exactly when their three string fields are pairwise equal. */
  lemma EqualsIffSameFields(a: ForceAuthenticationToken, b: ForceAuthenticationToken)
    ensures Equals(a, Some(Force(b))) <==>
      a.userId == b.userId && a.accessToken == b.accessToken && a.instanceUrl == b.instanceUrl
  {
  }

  /** Authorities and the authenticated flag play no part in equality. */
  lemma EqualsIgnoresAuthorities(t: ForceAuthenticationToken, authorities: seq<Role>, authenticated: bool)
    ensures Equals(t, Some(Force(t.(authorities := authorities, authenticated := authenticated))))
  {
  }

  /** `equals` is an equivalence on tokens. */
  lemma EqualsIsEquivalence(a: ForceAuthenticationToken, b: ForceAuthenticationToken, c: ForceAuthenticationToken)
    ensures Equals(a, Some(Force(a)))
    ensures Equals(a, Some(Force(b))) == Equals(b, Some(Force(a)))
    ensures Equals(a, Some(Force(b))) && Equals(b, Some(Force(c))) ==> Equals(a, Some(Force(c)))
  {
  }

  /** `null` and objects of any other class are never equal to a token. */
  lemma NonTokenNeverEqual(t: ForceAuthenticationToken, o: Option<Authentication>)
    requires o.None? || o.value.OtherAuthentication?
    ensures !Equals(t, o)
  {
  }

  /** `hashCode` is consistent with `equals`: it reads only the fields `equals` compares. */
  lemma EqualTokensHaveEqualHashCodes(a: ForceAuthenticationToken, b: ForceAuthenticationToken)
    requires Equals(a, Some(Force(b)))
    ensures HashCode(a) == HashCode(b)
  {
  }
}
