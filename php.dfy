/** PHP values as the plugin sees them: the scalars that arrive in a submitted
    form or a REST parameter, PHP arrays with string keys, and the two language
    rules the core relies on, the (string) cast and empty(). */
module Php {

  datatype Option<+T> = None | Some(value: T)

  /** A PHP scalar. Null is what isset() rejects. */
  datatype Value = Null | Bool(b: bool) | Int(i: int) | Str(s: string)

  /** A PHP array with string keys (insertion order is not modelled). */
  type PhpArray = map<string, Value>

  /** Decimal digits of a natural number, most significant first. */
  function Digits(n: nat): (r: string)
    ensures |r| > 0
    ensures forall i :: 0 <= i < |r| ==> '0' <= r[i] <= '9'
  {
    var d := ['0' + (n % 10) as char];
    if n < 10 then d else Digits(n / 10) + d
  }

  /** The number a string of decimal digits denotes. */
  function DecimalValue(s: string): nat
    requires forall i :: 0 <= i < |s| ==> '0' <= s[i] <= '9'
  {
    if s == [] then 0 else DecimalValue(s[..|s| - 1]) * 10 + (s[|s| - 1] - '0') as nat
  }

  /** Digits writes n itself: reading the digits back gives n. */
  lemma {:induction false} DigitsRoundTrip(n: nat)
    ensures DecimalValue(Digits(n)) == n
  {
    var d := ['0' + (n % 10) as char];
    if n >= 10 {
      DigitsRoundTrip(n / 10);
      var r := Digits(n);
      assert r == Digits(n / 10) + d;
      assert r[..|r| - 1] == Digits(n / 10);
    }
  }

  /** PHP's (string) conversion, which stripslashes() applies to its argument. */
  function ToPhpString(v: Value): string
  {
    match v
    case Null => ""
    case Bool(b) => if b then "1" else ""
    case Int(i) => if i < 0 then "-" + Digits(-i) else Digits(i)
    case Str(s) => s
  }

  /** PHP's stripslashes(): a backslash is dropped and the character after it
      kept, except that backslash-zero becomes the NUL character; a final lone
      backslash is dropped. */
  function StripSlashes(s: string): (r: string)
    ensures |r| <= |s|
    ensures '\\' !in s ==> r == s
    decreases |s|
  {
    if s == [] then []
    else if s[0] != '\\' then [s[0]] + StripSlashes(s[1..])
    else if |s| == 1 then []
    else [if s[1] == '0' then '\0' else s[1]] + StripSlashes(s[2..])
  }

  /** stripslashes is not idempotent: an escaped backslash becomes a lone
      backslash, and a lone backslash becomes nothing. */
  lemma StripSlashesDropsOneLevel()
    ensures StripSlashes("\\\\") == "\\"
    ensures StripSlashes("\\") == ""
    ensures StripSlashes(StripSlashes("\\\\")) != StripSlashes("\\\\")
  {
    assert StripSlashes("\\\\"[2..]) == [];
  }

  /** PHP's empty(): true for null, false, 0, "" and "0". */
  predicate Empty(v: Value)
  {
    match v
    case Null => true
    case Bool(b) => !b
    case Int(i) => i == 0
    case Str(s) => s == "" || s == "0"
  }
}
