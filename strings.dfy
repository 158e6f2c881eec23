/**
 * The few functions of Go's `strings` and `strconv` packages that the
 * library and its example tests use: `HasPrefix`, `ReplaceAll` with
 * one-character arguments, `Join` and `Itoa`.
 */
module Strings {

  /** strings.HasPrefix */
  predicate HasPrefix(s: string, prefix: string) {
    |prefix| <= |s| && s[..|prefix|] == prefix
  }

  /** A string has a prefix exactly when it is that prefix followed by some rest. */
  lemma HasPrefixIsConcat(s: string, prefix: string)
    ensures HasPrefix(s, prefix) <==> exists rest :: s == prefix + rest
  {
    forall rest | s == prefix + rest
      ensures HasPrefix(s, prefix)
    {
      assert s[..|prefix|] == prefix;
    }
    if HasPrefix(s, prefix) {
      assert s == prefix + s[|prefix|..];
    }
  }

  /** strings.ReplaceAll(s, string(from), string(to)) for single characters. */
  function ReplaceAll(s: string, from: char, to: char): (r: string)
    ensures |r| == |s|
    ensures forall i :: 0 <= i < |s| ==> r[i] == if s[i] == from then to else s[i]
  {
    if s == [] then [] else [if s[0] == from then to else s[0]] + ReplaceAll(s[1..], from, to)
  }

  /** strings.Join */
  function Join(parts: seq<string>, sep: string): string {
    if |parts| == 0 then ""
    else if |parts| == 1 then parts[0]
    else parts[0] + sep + Join(parts[1..], sep)
  }

  /** Each part preceded by the separator: the tail of a Join. */
  function Prefixed(parts: seq<string>, sep: string): string {
    if parts == [] then "" else sep + parts[0] + Prefixed(parts[1..], sep)
  }

  /** Joining a non-empty list is its head followed by every other part preceded by the separator. */
  lemma {:induction false} JoinIsHeadThenPrefixed(parts: seq<string>, sep: string)
    requires |parts| > 0
    ensures Join(parts, sep) == parts[0] + Prefixed(parts[1..], sep)
  {
    if |parts| > 1 {
      var tail := parts[1..];
      JoinIsHeadThenPrefixed(tail, sep);
      assert tail[1..] == parts[2..];
      assert Join(parts, sep) == parts[0] + sep + Join(tail, sep);
      assert Prefixed(tail, sep) == sep + tail[0] + Prefixed(parts[2..], sep);
    }
  }

  /** A character occurs in a Join only if it occurs in a part or in the separator. */
  lemma {:induction false} JoinAvoids(parts: seq<string>, sep: string, c: char)
    requires c !in sep
    requires forall i :: 0 <= i < |parts| ==> c !in parts[i]
    ensures c !in Join(parts, sep)
  {
    if |parts| > 1 {
      JoinAvoids(parts[1..], sep, c);
    }
  }

  function DigitChar(d: nat): (c: char)
    requires d < 10
    ensures '0' <= c <= '9'
  {
    "0123456789"[d]
  }

  /** The decimal digits of n, most significant first, without leading zeros. */
  function Digits(n: nat): (r: string)
    ensures |r| > 0
    ensures forall i :: 0 <= i < |r| ==> '0' <= r[i] <= '9'
    ensures |r| > 1 ==> r[0] != '0'
  {
    if n < 10 then [DigitChar(n)] else Digits(n / 10) + [DigitChar(n % 10)]
  }

  /** strconv.Itoa: decimal, with a leading '-' for negative numbers. */
  function Itoa(n: int): (r: string)
    ensures |r| > 0
    ensures n >= 0 ==> forall i :: 0 <= i < |r| ==> '0' <= r[i] <= '9'
    ensures n < 0 ==> r[0] == '-' && forall i :: 1 <= i < |r| ==> '0' <= r[i] <= '9'
  {
    if n < 0 then "-" + Digits(-n) else Digits(n)
  }

  /** The value of a string of decimal digits: the reading that Itoa inverts. */
  function DecimalValue(s: string): int
    requires forall i :: 0 <= i < |s| ==> '0' <= s[i] <= '9'
  {
    if s == [] then 0
    else 10 * DecimalValue(s[..|s| - 1]) + (s[|s| - 1] as int - '0' as int)
  }

  /** strconv.Atoi on the strings Itoa produces. */
  function Atoi(s: string): int
    requires |s| > 0
    requires s[0] == '-' || '0' <= s[0] <= '9'
    requires forall i :: 1 <= i < |s| ==> '0' <= s[i] <= '9'
  {
    if s[0] == '-' then -DecimalValue(s[1..]) else DecimalValue(s)
  }

  lemma {:induction false} DigitsRoundTrip(n: nat)
    ensures DecimalValue(Digits(n)) == n
  {
    var d := Digits(n);
    if n >= 10 {
      DigitsRoundTrip(n / 10);
      assert d[..|d| - 1] == Digits(n / 10);
    }
  }

  /** Atoi of a '-' followed by digits is the negated value of the digits. */
  lemma AtoiNegative(s: string, d: string, value: int)
    requires s == "-" + d && |d| > 0 && forall i :: 0 <= i < |d| ==> '0' <= d[i] <= '9'
    requires DecimalValue(d) == value
    ensures Atoi(s) == -value
  {
    assert s[1..] == d;
  }

  /** Atoi of digits alone is their value. */
  lemma AtoiDigits(d: string, value: int)
    requires |d| > 0 && forall i :: 0 <= i < |d| ==> '0' <= d[i] <= '9'
    requires DecimalValue(d) == value
    ensures Atoi(d) == value
  {
  }

  lemma NegativeRoundTrip(n: int)
    requires n < 0
    ensures Atoi(Itoa(n)) == n
  {
    DigitsRoundTrip(-n);
    AtoiNegative(Itoa(n), Digits(-n), -n);
  }

  lemma NonNegativeRoundTrip(n: int)
    requires n >= 0
    ensures Atoi(Itoa(n)) == n
  {
    DigitsRoundTrip(n);
    AtoiDigits(Itoa(n), n);
  }

  /** Reading back the decimal form of any integer gives that integer. */
  lemma ItoaRoundTrip(n: int)
    ensures Atoi(Itoa(n)) == n
  {
    if n < 0 {
      NegativeRoundTrip(n);
    } else {
      NonNegativeRoundTrip(n);
    }
  }

  /** Distinct integers have distinct decimal forms. */
  lemma ItoaInjective(m: int, n: int)
    requires Itoa(m) == Itoa(n)
    ensures m == n
  {
    ItoaRoundTrip(m);
    ItoaRoundTrip(n);
  }
}
