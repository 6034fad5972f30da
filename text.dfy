/** The string handling the views rely on: decimal digits and `parseInt`, `String(n)`,
    en-US `toLocaleString` grouping, `padStart(2, '0')`, the regular-expression class `\s`,
    and ASCII `toLowerCase` with `includes` for substring search. */
module Text {
  import opened Types
  import opened Lists

  predicate IsDigit(c: char) {
    '0' <= c <= '9'
  }

  predicate AllDigits(s: string) {
    forall i :: 0 <= i < |s| ==> IsDigit(s[i])
  }

  function DigitValue(c: char): nat
    requires IsDigit(c)
  {
    (c as int) - ('0' as int)
  }

  function DigitChar(d: nat): (c: char)
    requires d < 10
    ensures IsDigit(c) && DigitValue(c) == d
  {
    (('0' as int) + d) as char
  }

  function Pow10(k: nat): nat {
    if k == 0 then 1 else 10 * Pow10(k - 1)
  }

  /** The value of a string of decimal digits, leading zeros ignored; 0 for the empty string. */
  function DigitsValue(s: string): nat
    requires AllDigits(s)
  {
    if s == [] then 0 else DigitsValue(s[..|s| - 1]) * 10 + DigitValue(s[|s| - 1])
  }

  /** Appending digits shifts the value of the prefix left by their count. */
  lemma {:induction false} DigitsValueAppend(a: string, b: string)
    requires AllDigits(a) && AllDigits(b)
    ensures AllDigits(a + b)
    ensures DigitsValue(a + b) == DigitsValue(a) * Pow10(|b|) + DigitsValue(b)
  {
    assert AllDigits(a + b) by {
      forall i | 0 <= i < |a + b| ensures IsDigit((a + b)[i]) {
        if i < |a| { assert (a + b)[i] == a[i]; } else { assert (a + b)[i] == b[i - |a|]; }
      }
    }
    if b == [] {
      assert a + b == a;
    } else {
      var b' := b[..|b| - 1];
      assert (a + b)[..|a + b| - 1] == a + b';
      assert (a + b)[|a + b| - 1] == b[|b| - 1];
      DigitsValueAppend(a, b');
      ShiftStep(DigitsValue(a), Pow10(|b'|), DigitsValue(b'), DigitValue(b[|b| - 1]));
    }
  }

  lemma ShiftStep(x: int, p: int, y: int, d: int)
    ensures (x * p + y) * 10 + d == x * (10 * p) + (y * 10 + d)
  {
  }

  /** `String(n)` for a non-negative integer: its decimal digits, which read back as `n`. */
  function Decimal(n: nat): (r: string)
    ensures |r| >= 1 && AllDigits(r)
    ensures DigitsValue(r) == n
  {
    if n < 10 then [DigitChar(n)]
    else
      var r := Decimal(n / 10) + [DigitChar(n % 10)];
      assert r[..|r| - 1] == Decimal(n / 10);
      r
  }

  /** `String(n)` for any integer. */
  function IntString(n: int): string {
    if n < 0 then "-" + Decimal(-n) else Decimal(n)
  }

  /** `n.toString().padStart(2, '0')` for 0 <= n < 100: two digits that read back as `n`. */
  function Pad2(n: nat): (r: string)
    requires n < 100
    ensures |r| == 2 && AllDigits(r) && DigitsValue(r) == n
  {
    var r := [DigitChar(n / 10), DigitChar(n % 10)];
    assert r[..1][..0] == [];
    assert DigitsValue(r[..1]) == n / 10;
    r
  }

  /** The last three digits of a thousands group, zero padded. */
  function Pad3(n: nat): (r: string)
    requires n < 1000
    ensures |r| == 3 && AllDigits(r) && DigitsValue(r) == n
  {
    var r := [DigitChar(n / 100), DigitChar(n / 10 % 10), DigitChar(n % 10)];
    assert r[..2] == Pad2(n / 10);
    r
  }

  predicate IsDigitOrComma(c: char) {
    IsDigit(c) || c == ','
  }

  predicate NotComma(c: char) {
    c != ','
  }

  /** `s.replace(/,/g, '')`. */
  function DropCommas(s: string): string {
    Filter(s, NotComma)
  }

  lemma DropCommasOfDigits(s: string)
    requires AllDigits(s)
    ensures DropCommas(s) == s
  {
    FilterAll(s, NotComma);
  }

  /** Removing the commas of `hi + "," + lo`, where `lo` is all digits, leaves `hi`'s digits then `lo`. */
  lemma DropCommasJoin(hi: string, lo: string)
    requires AllDigits(DropCommas(hi)) && AllDigits(lo)
    ensures DropCommas(hi + "," + lo) == DropCommas(hi) + lo
  {
    calc {
      DropCommas(hi + "," + lo);
      { FilterConcat(hi + ",", lo, NotComma); }
      DropCommas(hi + ",") + DropCommas(lo);
      { FilterConcat(hi, ",", NotComma); }
      DropCommas(hi) + DropCommas(",") + DropCommas(lo);
      { assert DropCommas(",") == []; DropCommasOfDigits(lo); }
      DropCommas(hi) + lo;
    }
  }

  /** `n.toLocaleString()` in the en-US locale for n >= 0: digits in groups of three separated by
      commas, starting with a digit. */
  function Grouped(n: nat): (r: string)
    ensures |r| >= 1 && IsDigit(r[0])
    ensures forall i :: 0 <= i < |r| ==> IsDigitOrComma(r[i])
    decreases n
  {
    if n < 1000 then Decimal(n)
    else
      var hi := Grouped(n / 1000);
      var lo := Pad3(n % 1000);
      var r := hi + "," + lo;
      assert forall i :: 0 <= i < |r| ==> IsDigitOrComma(r[i]) by {
        forall i | 0 <= i < |r| ensures IsDigitOrComma(r[i]) {
          if i < |hi| { assert r[i] == hi[i]; }
          else if i == |hi| { assert r[i] == ','; }
          else { assert r[i] == lo[i - |hi| - 1]; }
        }
      }
      r
  }

  /** Removing the grouping commas gives digits that read back as the number. */
  lemma {:induction false} GroupedReadsBack(n: nat)
    ensures AllDigits(DropCommas(Grouped(n)))
    ensures DigitsValue(DropCommas(Grouped(n))) == n
    decreases n
  {
    if n < 1000 {
      DropCommasOfDigits(Decimal(n));
    } else {
      var hi := Grouped(n / 1000);
      var lo := Pad3(n % 1000);
      assert Grouped(n) == hi + "," + lo;
      GroupedReadsBack(n / 1000);
      DropCommasJoin(hi, lo);
      DigitsValueAppend(DropCommas(hi), lo);
      assert Pow10(|lo|) == 1000 by { assert |lo| == 3; }
      ThousandsSplit(n);
    }
  }

  lemma ThousandsSplit(n: nat)
    ensures n / 1000 * 1000 + n % 1000 == n
  {
  }

  /** `n.toLocaleString()` in the en-US locale for any integer. */
  function LocaleString(n: int): string {
    if n < 0 then "-" + Grouped(-n) else Grouped(n)
  }

  /** `parseInt(s)` for a string of digits only: NaN when there are none. */
  function ParseDigits(s: string): JsNumber
    requires AllDigits(s)
  {
    if s == [] then NaN else Num(DigitsValue(s))
  }

  /** The characters the regular-expression class `\s` matches. */
  predicate IsJsWhitespace(c: char) {
    c == ' ' || c == '\t' || c == '\n' || c == '\r' || c == '\U{000B}' || c == '\U{000C}'
    || c == '\U{00A0}' || c == '\U{1680}' || ('\U{2000}' <= c <= '\U{200A}')
    || c == '\U{2028}' || c == '\U{2029}' || c == '\U{202F}' || c == '\U{205F}'
    || c == '\U{3000}' || c == '\U{FEFF}'
  }

  /** The characters `.` refuses to match in a regular expression without the `s` flag. */
  predicate IsLineTerminator(c: char) {
    c == '\n' || c == '\r' || c == '\U{2028}' || c == '\U{2029}'
  }

  /** `toLowerCase()` restricted to ASCII letters. */
  function LowerChar(c: char): char {
    if 'A' <= c <= 'Z' then ((c as int) + 32) as char else c
  }

  function Lower(s: string): (r: string)
    ensures |r| == |s|
    ensures forall i :: 0 <= i < |s| ==> r[i] == LowerChar(s[i])
  {
    seq(|s|, i requires 0 <= i < |s| => LowerChar(s[i]))
  }

  /** Two characters that are the same ASCII letter in either case, or the same character. */
  predicate SameLetterIgnoringCase(a: char, b: char) {
    || a == b
    || ('A' <= a <= 'Z' && b as int == a as int + 32)
    || ('A' <= b <= 'Z' && a as int == b as int + 32)
  }

  lemma LowerCharFolds(a: char, b: char)
    ensures LowerChar(a) == LowerChar(b) <==> SameLetterIgnoringCase(a, b)
  {
  }

  /** Lower-casing identifies exactly the strings that agree up to the case of their ASCII
      letters, and lower-cased text stays as it is. */
  lemma LowerIgnoresCase(s: string, t: string)
    ensures Lower(s) == Lower(t) <==> |s| == |t| && forall i :: 0 <= i < |s| ==> SameLetterIgnoringCase(s[i], t[i])
    ensures Lower(Lower(s)) == Lower(s)
  {
    if |s| == |t| {
      forall i | 0 <= i < |s| ensures Lower(s)[i] == Lower(t)[i] <==> SameLetterIgnoringCase(s[i], t[i]) {
        LowerCharFolds(s[i], t[i]);
      }
      if forall i :: 0 <= i < |s| ==> SameLetterIgnoringCase(s[i], t[i]) {
        assert forall i :: 0 <= i < |s| ==> Lower(s)[i] == Lower(t)[i];
      }
    }
  }

  /** `hay.includes(needle)` for strings: `needle` starts at some position of `hay`. */
  predicate Contains(hay: string, needle: string) {
    needle <= hay || (hay != [] && Contains(hay[1..], needle))
  }

  /** `parts.join(sep)`. */
  function Join(parts: seq<string>, sep: string): string {
    if parts == [] then ""
    else if |parts| == 1 then parts[0]
    else parts[0] + sep + Join(parts[1..], sep)
  }
}
