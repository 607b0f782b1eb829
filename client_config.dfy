/**
 * `SpringOAuthClientConfig`: the OAuth client settings bean. Six nullable fields set one by one,
 * then checked by `afterPropertiesSet`.
 */
module ClientConfig {
  import opened Wrappers
  import opened JavaLang

  /** The six settings, as `equals` and `hashCode` see them. */
  datatype ConfigValues = ConfigValues(
    clientId: JString,
    clientSecret: JString,
    serverURL: JString,
    scope: JString,
    display: JString,
    prompt: JString)

  class SpringOAuthClientConfig {
    var clientId: JString
    var clientSecret: JString
    var serverURL: JString
    var scope: JString
    var display: JString
    var prompt: JString

    /** A new bean has every setting `null`. */
    constructor ()
      ensures Values() == ConfigValues(None, None, None, None, None, None)
    {
      clientId, clientSecret, serverURL := None, None, None;
      scope, display, prompt := None, None, None;
    }

    function Values(): ConfigValues
      reads this
    {
      ConfigValues(clientId, clientSecret, serverURL, scope, display, prompt)
    }

    function GetClientId(): JString reads this { clientId }
    function GetClientSecret(): JString reads this { clientSecret }
    function GetServerURL(): JString reads this { serverURL }
    function GetScope(): JString reads this { scope }
    function GetDisplay(): JString reads this { display }
    function GetPrompt(): JString reads this { prompt }

    method SetClientId(value: JString)
      modifies this
      ensures GetClientId() == value && Values() == old(Values()).(clientId := value)
    {
      clientId := value;
    }

    method SetClientSecret(value: JString)
      modifies this
      ensures GetClientSecret() == value && Values() == old(Values()).(clientSecret := value)
    {
      clientSecret := value;
    }

    method SetServerURL(value: JString)
      modifies this
      ensures GetServerURL() == value && Values() == old(Values()).(serverURL := value)
    {
      serverURL := value;
    }

    method SetScope(value: JString)
      modifies this
      ensures GetScope() == value && Values() == old(Values()).(scope := value)
    {
      scope := value;
    }

    method SetDisplay(value: JString)
      modifies this
      ensures GetDisplay() == value && Values() == old(Values()).(display := value)
    {
      display := value;
    }

    method SetPrompt(value: JString)
      modifies this
      ensures GetPrompt() == value && Values() == old(Values()).(prompt := value)
    {
      prompt := value;
    }

    /**
     * `afterPropertiesSet`: client id, client secret and server URL must be set, checked in that
     * order; the first missing one is reported. Empty strings pass, and the optional settings may be `null`.
     */
    method AfterPropertiesSet() returns (r: Result<(), JavaException>)
      ensures r.Success? <==> clientId.Some? && clientSecret.Some? && serverURL.Some?
      ensures clientId.None? ==> r == Failure(BeanInitializationException("clientId is not set"))
      ensures clientId.Some? && clientSecret.None? ==> r == Failure(BeanInitializationException("clientSecret is not set"))
      ensures clientId.Some? && clientSecret.Some? && serverURL.None? ==>
        r == Failure(BeanInitializationException("serverURL is not set"))
    {
      if clientId.None? {
        return Failure(BeanInitializationException("clientId is not set"));
      }
      if clientSecret.None? {
        return Failure(BeanInitializationException("clientSecret is not set"));
      }
      if serverURL.None? {
        return Failure(BeanInitializationException("serverURL is not set"));
      }
      return Success(());
    }
  }

  /** What `equals` can be handed: `null`, a bean of this class, another `OAuthClientConfig`, or any other object. */
  datatype ConfigObject =
    | NullReference
    | SpringConfig(values: ConfigValues)
    | OtherClientConfig(className: string)
    | NonConfigObject

  /**
   * `equals` as written: the `instanceof` test is against the `OAuthClientConfig` interface but the
   * cast is to `SpringOAuthClientConfig`, so any other implementation makes it throw.
   */
  function EqualsAsWritten(self: ConfigValues, o: ConfigObject): Result<bool, JavaException> {
    if o == SpringConfig(self) then Success(true)                    // this == o
    else if o.NullReference? || o.NonConfigObject? then Success(false)
    else if o.OtherClientConfig? then Failure(ClassCastException)    // (SpringOAuthClientConfig) o
    else
      var that := o.values;
      Success(
        && self.clientId == that.clientId && self.clientSecret == that.clientSecret
        && self.serverURL == that.serverURL && self.scope == that.scope
        && self.display == that.display && self.prompt == that.prompt)
  }

  /** Comparing with another `OAuthClientConfig` implementation throws instead of answering. */
  lemma EqualsAsWrittenThrowsForOtherImplementations(self: ConfigValues, className: string)
    ensures EqualsAsWritten(self, OtherClientConfig(className)) == Failure(ClassCastException)
  {
  }

  /** `equals` with the test the cast needs (`instanceof SpringOAuthClientConfig`): all six settings equal. */
  function Equals(self: ConfigValues, o: ConfigObject): (r: bool)
    ensures r <==> o.SpringConfig? && o.values == self
  {
    if o == SpringConfig(self) then true
    else if !o.SpringConfig? then false
    else
      var that := o.values;
      && self.clientId == that.clientId && self.clientSecret == that.clientSecret
      && self.serverURL == that.serverURL && self.scope == that.scope
      && self.display == that.display && self.prompt == that.prompt
  }

  /** The corrected `equals` always answers, agrees with the written one wherever that answers, and is symmetric. */
  lemma EqualsCorrectsAsWritten(a: ConfigValues, b: ConfigValues, o: ConfigObject)
    ensures EqualsAsWritten(a, o).Success? ==> EqualsAsWritten(a, o).value == Equals(a, o)
    ensures Equals(a, SpringConfig(b)) == Equals(b, SpringConfig(a))
    ensures o.OtherClientConfig? ==> !Equals(a, o)
  {
  }

  /** `hashCode`: `HashCodeBuilder(19, 37)` over the same six settings `equals` compares. */
  function HashCode(v: ConfigValues): Int32 {
    var h := HashAppend(HashAppend(HashAppend(19, 37, v.clientId), 37, v.clientSecret), 37, v.serverURL);
    HashAppend(HashAppend(HashAppend(h, 37, v.scope), 37, v.display), 37, v.prompt)
  }

  /** Equal beans have equal hash codes. */
  lemma EqualConfigsHaveEqualHashCodes(a: ConfigValues, o: ConfigObject)
    requires Equals(a, o)
    ensures HashCode(a) == HashCode(o.values)
  {
  }
}
