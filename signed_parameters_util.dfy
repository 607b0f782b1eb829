/**
 * `SignedParametersUtil.verifyAndDecode`: check and open a `signature.envelope` string. The
 * envelope is base64url-encoded JSON (RFC 4648 section 5); the signature is an HMAC (RFC 2104)
 * of the still-encoded envelope text under the client secret.
 */
module SignedParametersUtil {
  import opened Wrappers
  import opened JavaLang

  newtype byte = x: int | 0 <= x < 256

  /** The decoded JSON object: `HashMap<String, String>`, where a JSON null is a `null` value. */
  type Parameters = map<string, JString>

  /**
   * The library calls, taken as given functions.
   * - base64Decode: commons-codec `Base64(true).decode`, which skips characters outside the alphabet.
   * - utf8Decode / utf8Encode: `new String(bytes, UTF8)` and `getBytes(UTF8)`.
   * - parseJson: Jackson's `readValue` into a string map; `None` when it throws.
   * - mac: `Mac.getInstance(algorithm)`, `init(key)`, `doFinal(data)`; `None` when the algorithm
   *   is unknown or the key is rejected.
   */
  datatype Codec = Codec(
    base64Decode: string -> seq<byte>,
    utf8Decode: seq<byte> -> string,
    utf8Encode: string -> seq<byte>,
    parseJson: string -> Option<Parameters>,
    mac: (string, seq<byte>, seq<byte>) -> Option<seq<byte>>)

  const ALGORITHM_KEY: string := "algorithm"
  const DEFAULT_ALGORITHM: string := "HMACSHA256"
  const NULL_SECRET_MESSAGE: string := "secret must not be null"

  /** The MAC algorithm an envelope names; a missing, null or empty entry means HMACSHA256. */
  function Algorithm(parameters: Parameters): (algorithm: string)
    ensures IsEmpty(Get(parameters, ALGORITHM_KEY)) ==> algorithm == DEFAULT_ALGORITHM
    ensures !IsEmpty(Get(parameters, ALGORITHM_KEY)) ==> algorithm == parameters[ALGORITHM_KEY].value
    ensures algorithm != ""
  {
    DefaultIfEmpty(Get(parameters, ALGORITHM_KEY), Some(DEFAULT_ALGORITHM)).value
  }

  /**
   * `verify`: the secret's UTF-8 bytes must make a key (`SecretKeySpec` refuses an empty one), and the
   * MAC of the encoded envelope text must equal the decoded signature byte for byte.
   */
  predicate Verified(codec: Codec, secret: string, algorithm: string, encodedEnvelope: string, encodedSignature: string) {
    var key := codec.utf8Encode(secret);
    |key| > 0 && codec.mac(algorithm, key, codec.utf8Encode(encodedEnvelope)) == Some(codec.base64Decode(encodedSignature))
  }

  /** The envelope's JSON object, when its text decodes and parses. */
  function DecodeEnvelope(codec: Codec, encodedEnvelope: string): Option<Parameters> {
    codec.parseJson(codec.utf8Decode(codec.base64Decode(encodedEnvelope)))
  }

  /**
   * `verifyAndDecode(input, secret)`. A null secret fails before anything else with the
   * `IllegalArgumentException` of `Validate.notNull`; every other failure is one
   * `GeneralSecurityException`. On success the result is the envelope's map without its
   * `algorithm` entry.
   */
  function VerifyAndDecode(codec: Codec, input: JString, secret: JString): (r: Result<Parameters, JavaException>)
    ensures secret.None? ==> r == Failure(IllegalArgumentException(Some(NULL_SECRET_MESSAGE)))
    ensures secret.Some? && r.Failure? ==> r.error == GeneralSecurityException
    ensures secret.Some? && (input.None? || '.' !in input.value) ==> r.Failure?
    ensures r.Success? ==>
      && secret.Some? && input.Some?
      && var (signature, envelope) := SplitAtFirst(input.value, '.');
      && envelope.Some?
      && DecodeEnvelope(codec, envelope.value).Some?
      && var decoded := DecodeEnvelope(codec, envelope.value).value;
      && r.value == decoded - {ALGORITHM_KEY}
      && Verified(codec, secret.value, Algorithm(decoded), envelope.value, signature)
    ensures
      (&& secret.Some? && input.Some?
       && var (signature, envelope) := SplitAtFirst(input.value, '.');
       && envelope.Some?
       && DecodeEnvelope(codec, envelope.value).Some?
       && Verified(codec, secret.value, Algorithm(DecodeEnvelope(codec, envelope.value).value), envelope.value, signature))
      ==> r.Success?
  {
    if secret.None? then
      Failure(IllegalArgumentException(Some(NULL_SECRET_MESSAGE)))
    else if input.None? || '.' !in input.value then
      Failure(GeneralSecurityException)
    else
      var (encodedSignature, envelope) := SplitAtFirst(input.value, '.');
      var encodedEnvelope := envelope.value;
      match DecodeEnvelope(codec, encodedEnvelope)
      case None => Failure(GeneralSecurityException)
      case Some(parameters) =>
        var algorithm := Algorithm(parameters);
        var remaining := parameters - {ALGORITHM_KEY};
        if Verified(codec, secret.value, algorithm, encodedEnvelope, encodedSignature) then Success(remaining)
        else Failure(GeneralSecurityException)
  }

  /**
   * How a signer builds the string: the base64url text of the MAC of the encoded envelope, a dot,
   * then the encoded envelope itself.
   */
  function Sign(codec: Codec, base64Encode: seq<byte> -> string, secret: string, algorithm: string, encodedEnvelope: string): string
    requires codec.mac(algorithm, codec.utf8Encode(secret), codec.utf8Encode(encodedEnvelope)).Some?
  {
    base64Encode(codec.mac(algorithm, codec.utf8Encode(secret), codec.utf8Encode(encodedEnvelope)).value) + "." + encodedEnvelope
  }

  /**
   * A correctly signed envelope verifies and yields its parameters without `algorithm`, provided the
   * signature's text decodes back to the MAC and holds no dot (the base64url alphabet has none).
   */
  lemma {:induction false} SignThenVerify(codec: Codec, base64Encode: seq<byte> -> string, secret: string, encodedEnvelope: string, parameters: Parameters)
    requires DecodeEnvelope(codec, encodedEnvelope) == Some(parameters)
    requires |codec.utf8Encode(secret)| > 0
    requires codec.mac(Algorithm(parameters), codec.utf8Encode(secret), codec.utf8Encode(encodedEnvelope)).Some?
    requires var digest := codec.mac(Algorithm(parameters), codec.utf8Encode(secret), codec.utf8Encode(encodedEnvelope)).value;
      codec.base64Decode(base64Encode(digest)) == digest && '.' !in base64Encode(digest)
    ensures VerifyAndDecode(codec, Some(Sign(codec, base64Encode, secret, Algorithm(parameters), encodedEnvelope)), Some(secret))
      == Success(parameters - {ALGORITHM_KEY})
  {
    var digest := codec.mac(Algorithm(parameters), codec.utf8Encode(secret), codec.utf8Encode(encodedEnvelope)).value;
    var signature := base64Encode(digest);
    SplitAtFirstOfJoin(signature, '.', encodedEnvelope);
    assert signature + "." + encodedEnvelope == signature + ['.'] + encodedEnvelope;
  }

  /**
   * The input is cut at its first dot only: the signature is the text before it and the envelope
   * everything after it, later dots included.
   */
  lemma {:induction false} SplitsAtFirstDot(codec: Codec, signature: string, encodedEnvelope: string, secret: string)
    requires '.' !in signature
    ensures VerifyAndDecode(codec, Some(signature + "." + encodedEnvelope), Some(secret)).Success? <==>
      && DecodeEnvelope(codec, encodedEnvelope).Some?
      && Verified(codec, secret, Algorithm(DecodeEnvelope(codec, encodedEnvelope).value), encodedEnvelope, signature)
  {
    SplitAtFirstOfJoin(signature, '.', encodedEnvelope);
    assert signature + "." + encodedEnvelope == signature + ['.'] + encodedEnvelope;
  }

  /** A signature whose bytes differ from the envelope's MAC is rejected as tampered with. */
  lemma {:induction false} TamperedSignatureRejected(codec: Codec, signature: string, encodedEnvelope: string, secret: string, parameters: Parameters)
    requires '.' !in signature
    requires DecodeEnvelope(codec, encodedEnvelope) == Some(parameters)
    requires codec.mac(Algorithm(parameters), codec.utf8Encode(secret), codec.utf8Encode(encodedEnvelope))
      != Some(codec.base64Decode(signature))
    ensures VerifyAndDecode(codec, Some(signature + "." + encodedEnvelope), Some(secret)) == Failure(GeneralSecurityException)
  {
    SplitsAtFirstDot(codec, signature, encodedEnvelope, secret);
  }
}
