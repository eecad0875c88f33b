/** The few .NET string operations the builders rely on: `string.IsNullOrWhiteSpace`,
    `string.IsNullOrEmpty`, `ToLower`, string interpolation of a possibly-null string,
    `string.Join`, `string.Concat` and the decimal rendering of an `int`. */
module Text {
  import opened Wrappers

  /** `char.IsWhiteSpace`: the members of the Unicode categories Zs, Zl and Zp, together with
      U+0009 to U+000D and U+0085. */
  predicate IsWhiteSpace(c: char) {
    ('\U{9}' <= c <= '\U{D}') || c == ' ' || c == '\U{85}' || c == '\U{A0}' || c == '\U{1680}'
    || ('\U{2000}' <= c <= '\U{200A}') || c == '\U{2028}' || c == '\U{2029}' || c == '\U{202F}'
    || c == '\U{205F}' || c == '\U{3000}'
  }

  predicate AllWhiteSpace(s: string) {
    forall i | 0 <= i < |s| :: IsWhiteSpace(s[i])
  }

  /** `string.IsNullOrWhiteSpace`: null, empty, or white space only. */
  predicate IsNullOrWhiteSpace(s: Option<string>) {
    s.None? || AllWhiteSpace(s.value)
  }

  /** `string.IsNullOrEmpty`. */
  predicate IsNullOrEmpty(s: Option<string>) {
    s.None? || s.value == ""
  }

  /** A string that is not null or white space is not null or empty either: it has a first
      character. */
  lemma NotBlankIsNotEmpty(s: Option<string>)
    requires !IsNullOrWhiteSpace(s)
    ensures !IsNullOrEmpty(s) && |s.value| > 0
  {
  }

  /** Lower-casing of one character, restricted to ASCII letters. */
  function ToLower(c: char): char {
    if 'A' <= c <= 'Z' then (c as int + 32) as char else c
  }

  /** What `$"{s}"` renders for a possibly-null string: null renders as nothing. */
  function Interp(s: Option<string>): string {
    if s.None? then "" else s.value
  }

  /** `string.Join(sep, items)`. */
  function Join(sep: string, items: seq<string>): string
    decreases |items|
  {
    if |items| == 0 then ""
    else if |items| == 1 then items[0]
    else items[0] + sep + Join(sep, items[1..])
  }

  /** Joining one more item puts exactly one separator before it. */
  lemma {:induction false} JoinAppend(sep: string, items: seq<string>, item: string)
    requires |items| > 0
    ensures Join(sep, items + [item]) == Join(sep, items) + sep + item
    decreases |items|
  {
    if |items| == 1 {
      assert (items + [item])[1..] == [item];
    } else {
      assert (items + [item])[1..] == items[1..] + [item];
      JoinAppend(sep, items[1..], item);
    }
  }

  /** `string.Concat(items)`. */
  function Concat(items: seq<string>): string
    decreases |items|
  {
    if |items| == 0 then "" else items[0] + Concat(items[1..])
  }

  /** Concatenating one more item appends exactly that item. */
  lemma {:induction false} ConcatAppend(items: seq<string>, item: string)
    ensures Concat(items + [item]) == Concat(items) + item
    decreases |items|
  {
    if |items| == 0 {
      assert items + [item] == [item];
    } else {
      assert (items + [item])[1..] == items[1..] + [item];
      ConcatAppend(items[1..], item);
    }
  }

  predicate IsDigit(c: char) {
    '0' <= c <= '9'
  }

  function DigitChar(d: nat): (c: char)
    requires d < 10
    ensures IsDigit(c)
  {
    ('0' as int + d) as char
  }

  /** The invariant culture's rendering of a non-negative `int`: decimal digits, no leading zero. */
  function NatToString(n: nat): (s: string)
    ensures |s| > 0
    ensures forall i | 0 <= i < |s| :: IsDigit(s[i])
    decreases n
  {
    if n < 10 then [DigitChar(n)] else NatToString(n / 10) + [DigitChar(n % 10)]
  }

  /** The number a string of decimal digits denotes; the inverse of `NatToString`. */
  function DecimalValue(s: string): nat
    requires forall i | 0 <= i < |s| :: IsDigit(s[i])
    decreases |s|
  {
    if |s| == 0 then 0
    else
      assert IsDigit(s[|s| - 1]);
      DecimalValue(s[..|s| - 1]) * 10 + (s[|s| - 1] as int - '0' as int)
  }

  /** Reading back the digits `NatToString` writes gives the number again. */
  lemma {:induction false} DecimalValueOfNatToString(n: nat)
    ensures DecimalValue(NatToString(n)) == n
    decreases n
  {
    var s := NatToString(n);
    if n >= 10 {
      assert s[..|s| - 1] == NatToString(n / 10);
      DecimalValueOfNatToString(n / 10);
    }
  }

  /** Distinct numbers render as distinct strings. */
  lemma NatToStringInjective(m: nat, n: nat)
    requires m != n
    ensures NatToString(m) != NatToString(n)
  {
    DecimalValueOfNatToString(m);
    DecimalValueOfNatToString(n);
  }
}
