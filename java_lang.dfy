/**
 * The few pieces of Java and commons-lang behaviour the authentication code relies on:
 * nullable strings, `StringUtils.isEmpty`/`defaultIfEmpty`, `String.split`, `lastIndexOf`,
 * `contains`, `equalsIgnoreCase`, `Integer.toString`, 32-bit `hashCode` arithmetic, and
 * the exceptions that can leave the modelled code.
 */
module JavaLang {
  import opened Wrappers

  /** A Java `String` reference: `None` is `null`. */
  type JString = Option<string>

  /** The exceptions that can leave a modelled operation. */
  datatype JavaException =
    | IllegalArgumentException(detail: JString)   // detail: the message when the source writes one
    | StringIndexOutOfBoundsException
    | NullPointerException
    | ClassCastException
    | GeneralSecurityException
    | InsufficientAuthenticationException(message: string)
    | BeanInitializationException(message: string)
    | OAuthException(message: string)
    | ClientHandlerException(message: string)   // Jersey's unchecked failure to connect or to send

  /** `StringUtils.isEmpty`: null or the empty string. */
  predicate IsEmpty(s: JString) {
    s.None? || s.value == ""
  }

  /** `StringUtils.defaultIfEmpty`. */
  function DefaultIfEmpty(s: JString, default: JString): (r: JString)
    ensures IsEmpty(s) ==> r == default
    ensures !IsEmpty(s) ==> r == s
  {
    if IsEmpty(s) then default else s
  }

  /** The value a `HashMap.get`/`remove` call returns: `null` for a missing key. */
  function Get<V>(m: map<string, Option<V>>, key: string): Option<V> {
    if key in m then m[key] else None
  }

  // ---------------------------------------------------------------- searching

  /** `s.indexOf(c)`, with `|s|` for "not found". */
  function IndexOf(s: string, c: char): (i: nat)
    ensures i <= |s|
    ensures i < |s| ==> s[i] == c
    ensures c !in s[..i]
  {
    if s == [] then 0
    else if s[0] == c then 0
    else
      var j := IndexOf(s[1..], c);
      assert s[1..][..j] == s[1..j + 1];
      1 + j
  }

  /**
   * `s.split(c, 2)` for a one-character separator (`"[.]"`, `indexOf('?')`): the text before the
   * first `c` and, when there is a `c`, everything after it, later separators included.
   */
  function SplitAtFirst(s: string, c: char): (parts: (string, JString))
    ensures c !in parts.0
    ensures parts.1.None? <==> c !in s
    ensures parts.1.None? ==> parts.0 == s
    ensures parts.1.Some? ==> s == parts.0 + [c] + parts.1.value
  {
    var i := IndexOf(s, c);
    if i == |s| then
      assert s[..i] == s;
      (s, None)
    else
      assert s == s[..i] + [c] + s[i + 1..];
      (s[..i], Some(s[i + 1..]))
  }

  /** Splitting a text joined at its first separator gives back the two halves. */
  lemma {:induction false} SplitAtFirstOfJoin(a: string, c: char, b: string)
    requires c !in a
    ensures SplitAtFirst(a + [c] + b, c) == (a, Some(b))
  {
    var s := a + [c] + b;
    var i := IndexOf(s, c);
    assert s[..|a|] == a;
    assert s[|a|] == c;
    assert i == |a|;
    assert s[|a| + 1..] == b;
  }

  /** `s.lastIndexOf(c)`, with -1 for "not found". */
  function LastIndexOf(s: string, c: char): (i: int)
    ensures -1 <= i < |s|
    ensures i >= 0 ==> s[i] == c
    ensures forall k :: i < k < |s| ==> s[k] != c
  {
    if s == [] then -1
    else if s[|s| - 1] == c then |s| - 1
    else LastIndexOf(s[..|s| - 1], c)
  }

  /** `s.contains(t)`. */
  predicate Contains(s: string, t: string) {
    exists i :: 0 <= i <= |s| && t <= s[i..]
  }

  // ---------------------------------------------------------------- case and white space

  /** Lower-casing of ASCII letters; every other character is its own case. */
  function ToLowerAscii(c: char): char {
    if 'A' <= c <= 'Z' then (c as int + 32) as char else c
  }

  /** `a.equalsIgnoreCase(b)` under ASCII case folding. */
  predicate EqualsIgnoreCase(a: string, b: string) {
    |a| == |b| && forall i :: 0 <= i < |a| ==> ToLowerAscii(a[i]) == ToLowerAscii(b[i])
  }

  /** The regular-expression class `\s`: space, tab, line feed, vertical tab, form feed, carriage return. */
  predicate IsWhitespace(c: char) {
    c == ' ' || c == '\t' || c == '\n' || c == '\r' || c as int == 11 || c as int == 12
  }

  predicate HasWhitespace(s: string) {
    exists k :: 0 <= k < |s| && IsWhitespace(s[k])
  }

  /** The first index at or after `from` holding white space, or `|s|`. */
  function NextWhitespace(s: string, from: nat): (i: nat)
    requires from <= |s|
    ensures from <= i <= |s|
    ensures i < |s| ==> IsWhitespace(s[i])
    ensures forall k :: from <= k < i ==> !IsWhitespace(s[k])
    decreases |s| - from
  {
    if from == |s| || IsWhitespace(s[from]) then from else NextWhitespace(s, from + 1)
  }

  /** The first index at or after `from` that does not hold white space, or `|s|`. */
  function SkipWhitespace(s: string, from: nat): (i: nat)
    requires from <= |s|
    ensures from <= i <= |s|
    ensures i < |s| ==> !IsWhitespace(s[i])
    ensures forall k :: from <= k < i ==> IsWhitespace(s[k])
    decreases |s| - from
  {
    if from == |s| || !IsWhitespace(s[from]) then from else SkipWhitespace(s, from + 1)
  }

  /**
   * `s.split("\\s+", 2)`: one part when `s` holds no white space; otherwise the text before the
   * first run of white space and everything after that run.
   */
  function SplitOnWhitespace(s: string): (parts: seq<string>)
    ensures |parts| == 1 || |parts| == 2
    ensures |parts| == 2 <==> HasWhitespace(s)
    ensures |parts| == 1 ==> parts[0] == s
    ensures |parts| == 2 ==>
      && |parts[0]| + |parts[1]| < |s|
      && parts[0] == s[..|parts[0]|]
      && parts[1] == s[|s| - |parts[1]|..]
      && (forall k :: 0 <= k < |parts[0]| ==> !IsWhitespace(s[k]))
      && (forall k :: |parts[0]| <= k < |s| - |parts[1]| ==> IsWhitespace(s[k]))
      && (parts[1] == [] || !IsWhitespace(parts[1][0]))
  {
    var i := NextWhitespace(s, 0);
    if i == |s| then
      [s]
    else
      var j := SkipWhitespace(s, i);
      [s[..i], s[j..]]
  }

  // ---------------------------------------------------------------- numbers

  function DigitChar(d: nat): (c: char)
    requires d < 10
    ensures '0' <= c <= '9'
  {
    ('0' as int + d) as char
  }

  /** The number a string of decimal digits denotes, most significant digit first. */
  function DecimalValue(s: string): int {
    if s == [] then 0 else 10 * DecimalValue(s[..|s| - 1]) + (s[|s| - 1] as int - '0' as int)
  }

  /** `Integer.toString(n)` for a non-negative `n`: decimal digits, no leading zero, denoting `n`. */
  function DecimalString(n: nat): (s: string)
    ensures |s| > 0
    ensures forall k :: 0 <= k < |s| ==> '0' <= s[k] <= '9'
    ensures s[0] == '0' ==> n == 0
    ensures DecimalValue(s) == n
  {
    if n < 10 then [DigitChar(n)]
    else
      var prefix := DecimalString(n / 10);
      var s := prefix + [DigitChar(n % 10)];
      assert s[..|s| - 1] == prefix;
      s
  }

  /** Different numbers are written differently. */
  lemma DecimalStringInjective(m: nat, n: nat)
    requires DecimalString(m) == DecimalString(n)
    ensures m == n
  {
  }

  const TWO_TO_THE_32: int := 0x1_0000_0000

  /** A Java `int`. */
  type Int32 = x: int | -0x8000_0000 <= x < 0x8000_0000

  /** The `int` a Java integer computation wraps around to. */
  function ToInt32(x: int): (r: Int32)
    ensures (x - r) % TWO_TO_THE_32 == 0
    ensures -0x8000_0000 <= x < 0x8000_0000 ==> r == x
  {
    var m := x % TWO_TO_THE_32;
    if m < 0x8000_0000 then m else m - TWO_TO_THE_32
  }

  /** `String.hashCode`: `h = 31 * h + c` over the characters, in `int` arithmetic. */
  function StringHash(s: string): Int32 {
    if s == [] then 0 else ToInt32(31 * StringHash(s[..|s| - 1]) + s[|s| - 1] as int)
  }

  /** `HashCodeBuilder.append(object)` on a string: a null reference contributes 0. */
  function HashAppend(total: Int32, multiplier: int, s: JString): Int32 {
    ToInt32(total * multiplier + (if s.None? then 0 else StringHash(s.value)))
  }
}
