/** The text the assembler prints: the numerals of Python's `%d` and `%X`
    conversions, and splitting a line at the first occurrence of a
    separator, used to read those texts back. */
module Text {
  import opened Wrappers

  /** The digit character for d, with upper-case letters above 9 (as `%X`). */
  function DigitChar(d: nat): (c: char)
    requires d < 16
    ensures DigitValue(c) == Some(d)
  {
    if d < 10 then ('0' as int + d) as char else ('A' as int + d - 10) as char
  }

  /** The value of a digit character, if c is one of 0-9, A-F. */
  function DigitValue(c: char): Option<nat>
  {
    if '0' <= c <= '9' then Some(c as int - '0' as int)
    else if 'A' <= c <= 'F' then Some(c as int - 'A' as int + 10)
    else None
  }

  predicate IsDigit(c: char, base: nat) {
    DigitValue(c).Some? && DigitValue(c).value < base
  }

  /** s is a non-empty string of digits of the given base. */
  predicate IsNumeral(s: string, base: nat) {
    |s| >= 1 && forall i :: 0 <= i < |s| ==> IsDigit(s[i], base)
  }

  /** The digits of n, most significant first, without leading zeros:
      what `%d` (base 10) and `%X` (base 16) print for n >= 0. */
  function Digits(n: nat, base: nat): (s: string)
    requires 2 <= base <= 16
    ensures IsNumeral(s, base)
    ensures s[0] == '0' <==> n == 0
    decreases n
  {
    if n < base then [DigitChar(n)]
    else
      DivideByBase(n, base);
      Digits(n / base, base) + [DigitChar(n % base)]
  }

  /** The arithmetic facts about one digit step that the proofs here use. */
  lemma DivideByBase(n: nat, base: nat)
    requires 2 <= base <= n
    ensures 1 <= n / base < n && n % base < base
    ensures n == (n / base) * base + n % base
  {
  }

  /** The number a string of digits denotes. */
  function Value(s: string, base: nat): nat
    requires 2 <= base <= 16
    requires forall i :: 0 <= i < |s| ==> IsDigit(s[i], base)
    decreases |s|
  {
    if s == [] then 0
    else
      assert IsDigit(s[|s| - 1], base);
      Value(s[..|s| - 1], base) * base + DigitValue(s[|s| - 1]).value
  }

  lemma {:induction false} ValueOfDigits(n: nat, base: nat)
    requires 2 <= base <= 16
    ensures Value(Digits(n, base), base) == n
    decreases n
  {
    var s := Digits(n, base);
    if n >= base {
      DivideByBase(n, base);
      ValueOfDigits(n / base, base);
      assert s[..|s| - 1] == Digits(n / base, base);
    }
  }

  /** `%d`: an optional minus sign, then the decimal digits. */
  function Decimal(n: int): (s: string)
    ensures forall i :: 0 <= i < |s| ==> s[i] == '-' || IsDigit(s[i], 10)
  {
    if n < 0 then "-" + Digits(-n, 10) else Digits(n, 10)
  }

  /** `%X`: the upper-case hexadecimal digits of a non-negative number. */
  function Hex(n: nat): (s: string)
    ensures IsNumeral(s, 16)
  {
    Digits(n, 16)
  }

  /** Reads back a decimal numeral with an optional leading minus sign. */
  function ParseDecimal(s: string): Option<int>
  {
    if |s| >= 2 && s[0] == '-' && IsNumeral(s[1..], 10) then
      var v: int := Value(s[1..], 10); Some(-v)
    else if IsNumeral(s, 10) then Some(Value(s, 10))
    else None
  }

  /** Reads back a hexadecimal numeral. */
  function ParseHex(s: string): Option<nat>
  {
    if IsNumeral(s, 16) then Some(Value(s, 16)) else None
  }

  lemma DecimalRoundTrip(n: int)
    ensures ParseDecimal(Decimal(n)) == Some(n)
  {
    if n < 0 {
      ValueOfDigits(-n, 10);
      assert Decimal(n)[1..] == Digits(-n, 10);
    } else {
      ValueOfDigits(n, 10);
    }
  }

  lemma HexRoundTrip(n: nat)
    ensures ParseHex(Hex(n)) == Some(n)
  {
    ValueOfDigits(n, 16);
  }

  /** Distinct numbers print differently. */
  lemma DecimalInjective(m: int, n: int)
    requires Decimal(m) == Decimal(n)
    ensures m == n
  {
    DecimalRoundTrip(m);
    DecimalRoundTrip(n);
  }

  /** The text before and after the first occurrence of sep in s, if any. */
  function SplitAt(s: string, sep: char): (r: Option<(string, string)>)
    ensures r.None? <==> sep !in s
    ensures r.Some? ==> s == r.value.0 + [sep] + r.value.1 && sep !in r.value.0
  {
    if s == [] then None
    else if s[0] == sep then Some(([], s[1..]))
    else match SplitAt(s[1..], sep)
      case None => None
      case Some(p) => Some(([s[0]] + p.0, p.1))
  }

  /** Splitting a joined text at a separator absent from its first part gives the two parts back. */
  lemma {:induction false} SplitAtJoin(before: string, sep: char, after: string)
    requires sep !in before
    ensures SplitAt(before + [sep] + after, sep) == Some((before, after))
  {
    var s := before + [sep] + after;
    if before != [] {
      assert s[1..] == before[1..] + [sep] + after;
      SplitAtJoin(before[1..], sep, after);
      assert [before[0]] + before[1..] == before;
    }
  }
}
