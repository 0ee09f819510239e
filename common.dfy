/** Vocabulary shared by both pipelines: an optional value (JavaScript's `undefined`),
    the character classes the two lexers test with regular expressions, numeral values,
    and decimal rendering of integers (used by tracebacks). */
module Common {

  datatype Option<+T> = None | Some(value: T)

  /** `text[i]` in JavaScript: the character at `i`, or `undefined` outside the text. */
  function CharAt(text: string, i: int): (r: Option<char>)
    ensures r.Some? <==> 0 <= i < |text|
    ensures r.Some? ==> r.value == text[i]
  {
    if 0 <= i < |text| then Some(text[i]) else None
  }

  /** `/[0-9]/` */
  predicate IsDigit(c: char) { '0' <= c <= '9' }

  /** `/[a-zA-Z]/` */
  predicate IsLetter(c: char) { 'a' <= c <= 'z' || 'A' <= c <= 'Z' }

  /** `/[a-zA-Z0-9_]/` */
  predicate IsIdentChar(c: char) { IsLetter(c) || IsDigit(c) || c == '_' }

  predicate AllDigits(s: string) { forall k :: 0 <= k < |s| ==> IsDigit(s[k]) }

  function DigitValue(c: char): (d: nat)
    requires IsDigit(c)
    ensures d < 10
  {
    (c as int) - ('0' as int)
  }

  function DigitChar(d: nat): (c: char)
    requires d < 10
    ensures IsDigit(c) && DigitValue(c) == d
  {
    (('0' as int) + d) as char
  }

  /** The value of a string of decimal digits, most significant first. */
  function DigitsValue(s: string): nat
    requires AllDigits(s)
  {
    if s == [] then 0 else DigitsValue(s[..|s| - 1]) * 10 + DigitValue(s[|s| - 1])
  }

  function Pow10(k: nat): (p: nat)
    ensures p >= 1
  {
    if k == 0 then 1 else 10 * Pow10(k - 1)
  }

  function CountChar(s: string, c: char): nat
  {
    if s == [] then 0 else CountChar(s[..|s| - 1], c) + (if s[|s| - 1] == c then 1 else 0)
  }

  /** What the number scanners accumulate: digits and at most one '.'. */
  predicate IsNumeral(s: string)
  {
    (forall k :: 0 <= k < |s| ==> IsDigit(s[k]) || s[k] == '.') && CountChar(s, '.') <= 1
  }

  function IndexOfDot(s: string): (k: nat)
    ensures k <= |s|
    ensures k < |s| ==> s[k] == '.'
    ensures forall j :: 0 <= j < k ==> s[j] != '.'
  {
    if s == [] then 0
    else if s[0] == '.' then 0
    else 1 + IndexOfDot(s[1..])
  }

  lemma {:induction false} CountCharSplit(s: string, t: string, c: char)
    ensures CountChar(s + t, c) == CountChar(s, c) + CountChar(t, c)
    decreases |t|
  {
    if t == [] {
      assert s + t == s;
    } else {
      assert (s + t)[..|s + t| - 1] == s + t[..|t| - 1];
      CountCharSplit(s, t[..|t| - 1], c);
    }
  }

  lemma {:induction false} CountCharAbsent(s: string, c: char)
    requires forall j :: 0 <= j < |s| ==> s[j] != c
    ensures CountChar(s, c) == 0
    decreases |s|
  {
    if s != [] {
      CountCharAbsent(s[..|s| - 1], c);
    }
  }

  /** parseFloat of a scanned numeral: the digits before the '.' plus the fraction after it. */
  function NumeralValue(s: string): real
    requires IsNumeral(s)
  {
    var k := IndexOfDot(s);
    CountCharSplit(s[..k], s[k..], '.');
    assert s == s[..k] + s[k..];
    CountCharAbsent(s[..k], '.');
    if k == |s| then DigitsValue(s) as real
    else
      assert s[k..] == [s[k]] + s[k + 1..];
      CountCharSplit([s[k]], s[k + 1..], '.');
      assert CountChar([s[k]], '.') == 1 by {
        assert [s[k]][..0] == [];
      }
      assert CountChar(s[k + 1..], '.') == 0;
      NoDotMeansDigits(s[k + 1..], s, k + 1);
      DigitsValue(s[..k]) as real + (DigitsValue(s[k + 1..]) as real) / (Pow10(|s| - k - 1) as real)
  }

  lemma {:induction false} CountCharZero(s: string, c: char)
    requires CountChar(s, c) == 0
    ensures forall j :: 0 <= j < |s| ==> s[j] != c
    decreases |s|
  {
    if s != [] {
      CountCharZero(s[..|s| - 1], c);
      assert forall j :: 0 <= j < |s| - 1 ==> s[j] == s[..|s| - 1][j];
    }
  }

  lemma NoDotMeansDigits(t: string, s: string, from: nat)
    requires from <= |s| && t == s[from..]
    requires forall j :: 0 <= j < |s| ==> IsDigit(s[j]) || s[j] == '.'
    requires CountChar(t, '.') == 0
    ensures AllDigits(t)
  {
    CountCharZero(t, '.');
    assert forall j :: 0 <= j < |t| ==> t[j] == s[from + j];
  }

  /** Decimal rendering of a natural number, as JavaScript's template strings print it. */
  function NatToString(n: nat): (s: string)
    ensures |s| >= 1 && AllDigits(s)
  {
    if n < 10 then [DigitChar(n)] else NatToString(n / 10) + [DigitChar(n % 10)]
  }

  function IntToString(n: int): string
  {
    if n < 0 then "-" + NatToString(-n) else NatToString(n)
  }

  /** NatToString is a right inverse of DigitsValue: reading back the digits gives `n`. */
  lemma {:induction false} NatToStringRoundTrip(n: nat)
    ensures DigitsValue(NatToString(n)) == n
  {
    var s := NatToString(n);
    if n >= 10 {
      NatToStringRoundTrip(n / 10);
      assert s[..|s| - 1] == NatToString(n / 10);
    }
  }
}
