/** Printing integers (_itoa in printf.c) and parsing them back (string_to_uint in shell.c). */
module Numbers {
  import opened Words

  // ---------------------------------------------------------------------------------------------
  // Digits
  // ---------------------------------------------------------------------------------------------

  function DigitChar(d: nat, uppercase: bool): char
    requires d < 16
  {
    (if uppercase then "0123456789ABCDEF" else "0123456789abcdef")[d]
  }

  /** The digits of one case of letters. */
  predicate IsDigit(c: char, uppercase: bool) {
    '0' <= c <= '9' || (if uppercase then 'A' <= c <= 'F' else 'a' <= c <= 'f')
  }

  /** The value of a digit to a reader who knows one case of letters; other characters count as 0. */
  function DigitValue(c: char, uppercase: bool): nat {
    if !IsDigit(c, uppercase) then 0
    else if c <= '9' then (c - '0') as nat
    else if uppercase then (c - 'A') as nat + 10
    else (c - 'a') as nat + 10
  }

  predicate IsDecimal(c: char) {
    '0' <= c <= '9'
  }

  lemma QuotientBounds(u: nat, base: nat, q: nat, r: nat)
    requires base >= 2 && u == q * base + r && r < base
    ensures q <= u && (u > 0 ==> q < u) && (q == 0 <==> u < base)
  {
    assert q * base >= q * 2 by { assert q * (base - 2) >= 0; }
    assert q >= 1 ==> q * base >= base by { assert q >= 1 ==> (q - 1) * base >= 0; }
  }

  function Quotient(u: nat, base: nat): (q: nat)
    requires base >= 2
    ensures q <= u && (u > 0 ==> q < u) && (q == 0 <==> u < base)
  {
    QuotientBounds(u, base, u / base, u % base);
    u / base
  }

  function Remainder(u: nat, base: nat): (r: nat)
    requires base >= 2
    ensures r < base && (u < base ==> r == u)
  {
    u % base
  }

  lemma Division(u: nat, base: nat)
    requires base >= 2
    ensures u == Quotient(u, base) * base + Remainder(u, base)
  {
  }

  /** The numeral of u, most significant digit first. */
  function Digits(u: nat, base: nat, uppercase: bool): string
    requires 2 <= base <= 16
  {
    if u < base then [DigitChar(u, uppercase)]
    else Digits(Quotient(u, base), base, uppercase) + [DigitChar(Remainder(u, base), uppercase)]
  }

  /** The number that a string of digits denotes. */
  function ValueOf(s: string, base: nat, uppercase: bool): nat {
    if s == [] then 0 else ValueOf(s[..|s| - 1], base, uppercase) * base + DigitValue(s[|s| - 1], uppercase)
  }

  lemma ValueOfAppend(s: string, c: char, base: nat, uppercase: bool)
    ensures ValueOf(s + [c], base, uppercase) == ValueOf(s, base, uppercase) * base + DigitValue(c, uppercase)
  {
    assert (s + [c])[..|s|] == s;
  }

  lemma DigitCharValue(d: nat, uppercase: bool)
    requires d < 16
    ensures DigitValue(DigitChar(d, uppercase), uppercase) == d && IsDigit(DigitChar(d, uppercase), uppercase)
    ensures d < 10 ==> IsDecimal(DigitChar(d, uppercase))
    ensures DigitChar(d, uppercase) == '0' <==> d == 0
  {
  }

  /** The numeral of u denotes u, in every base, to a reader who knows only its case of letters. */
  lemma {:induction false} DigitsDenote(u: nat, base: nat, uppercase: bool)
    requires 2 <= base <= 16
    ensures ValueOf(Digits(u, base, uppercase), base, uppercase) == u
    ensures forall c :: c in Digits(u, base, uppercase) ==> IsDigit(c, uppercase)
  {
    hide Quotient, Remainder, DigitChar, DigitValue, IsDigit;
    if u < base {
      DigitCharValue(u, uppercase);
      ValueOfAppend([], DigitChar(u, uppercase), base, uppercase);
      assert [] + [DigitChar(u, uppercase)] == [DigitChar(u, uppercase)];
    } else {
      Division(u, base);
      DigitCharValue(Remainder(u, base), uppercase);
      DigitsDenote(Quotient(u, base), base, uppercase);
      var init, last := Digits(Quotient(u, base), base, uppercase), DigitChar(Remainder(u, base), uppercase);
      ValueOfAppend(init, last, base, uppercase);
    }
  }

  /** A numeral starts with 0 only when it is the numeral of 0. */
  lemma {:induction false} NoLeadingZero(u: nat, base: nat, uppercase: bool)
    requires 2 <= base <= 16
    ensures |Digits(u, base, uppercase)| > 0
    ensures Digits(u, base, uppercase)[0] == '0' <==> u == 0
  {
    hide Quotient, Remainder;
    if u < base {
      DigitCharValue(u, uppercase);
    } else {
      NoLeadingZero(Quotient(u, base), base, uppercase);
    }
  }

  function Pow(base: nat, k: nat): nat {
    if k == 0 then 1 else base * Pow(base, k - 1)
  }

  lemma MulStep(base: nat, a: nat, b: nat)
    requires a <= b
    ensures base * a <= base * b && base * a == a * base
  {
    assert base * (b - a) >= 0;
  }

  lemma DivLess(u: nat, base: nat, p: nat)
    requires base >= 2
    ensures Quotient(u, base) < p <==> u < base * p
  {
    hide Quotient, Remainder;
    var q, r := Quotient(u, base), Remainder(u, base);
    Division(u, base);
    if q < p {
      MulStep(base, q + 1, p);
      assert (q + 1) * base == q * base + base;
    } else {
      MulStep(base, p, q);
    }
  }

  lemma PowPositive(base: nat, k: nat)
    requires base > 0
    ensures Pow(base, k) > 0
  {
  }

  /** A numeral has at most k digits exactly when the number is below base^k. */
  lemma {:induction false} DigitsLength(u: nat, base: nat, uppercase: bool, k: nat)
    requires 2 <= base <= 16 && k > 0
    ensures |Digits(u, base, uppercase)| <= k <==> u < Pow(base, k)
    decreases k
  {
    hide Quotient, Remainder;
    DivLess(u, base, Pow(base, k - 1));
    if k == 1 {
      assert Pow(base, 1) == base * Pow(base, 0) == base;
      if u >= base {
        NoLeadingZero(Quotient(u, base), base, uppercase);
      }
    } else if u < base {
      PowPositive(base, k - 1);
    } else {
      DigitsLength(Quotient(u, base), base, uppercase, k - 1);
    }
  }

  // ---------------------------------------------------------------------------------------------
  // Printing
  // ---------------------------------------------------------------------------------------------

  predicate Int32(value: int) {
    -0x8000_0000 <= value < 0x8000_0000
  }

  /** What _itoa is to write: base-10 signed numbers with their sign, all others as 32-bit words.
      `-value` is taken modulo 2^32, so that the most negative value keeps its magnitude 2^31. */
  function Printed(value: int, base: nat, uppercase: bool, isSigned: bool): string
    requires 2 <= base <= 16
  {
    if isSigned && base == 10 && value < 0 then "-" + Digits(-value % WORD, base, uppercase)
    else Digits(value % WORD, base, uppercase)
  }

  /** The digits of u from the least significant on, none for 0. */
  function Extracted(u: nat, base: nat, uppercase: bool): string
    requires 2 <= base <= 16
  {
    if u == 0 then [] else [DigitChar(Remainder(u, base), uppercase)] + Extracted(Quotient(u, base), base, uppercase)
  }

  function Reversed(s: string): (r: string)
    ensures |r| == |s| && forall i :: 0 <= i < |s| ==> r[i] == s[|s| - 1 - i]
  {
    seq(|s|, i requires 0 <= i < |s| => s[|s| - 1 - i])
  }

  lemma ReversedAppend(s: string, c: char)
    ensures Reversed(s + [c]) == [c] + Reversed(s)
  {
  }

  lemma {:induction false} ReversedExtracted(u: nat, base: nat, uppercase: bool)
    requires 2 <= base <= 16 && u > 0
    ensures Reversed(Extracted(u, base, uppercase)) == Digits(u, base, uppercase)
  {
    hide Quotient, Remainder, DigitChar;
    var c := DigitChar(Remainder(u, base), uppercase);
    var rest := Extracted(Quotient(u, base), base, uppercase);
    assert Reversed([c] + rest) == Reversed(rest) + [c];
    if u < base {
      assert Extracted(0, base, uppercase) == [];
    } else {
      ReversedExtracted(Quotient(u, base), base, uppercase);
    }
  }

  /** The loop at the end of _itoa: two pointers that meet. */
  method ReverseInPlace(a: array<char>, n: nat)
    requires 0 < n <= a.Length
    modifies a
    ensures a[..n] == Reversed(old(a[..n])) && a[n..] == old(a[n..])
  {
    var low, high := 0, n - 1;
    while low < high
      invariant 0 <= low && low + high == n - 1 && high <= n - 1 && low <= high + 1
      invariant forall i :: 0 <= i < low || high < i < n ==> a[i] == old(a[n - 1 - i])
      invariant forall i :: low <= i <= high || n <= i < a.Length ==> a[i] == old(a[i])
      decreases high - low
    {
      a[low], a[high] := a[high], a[low];
      low := low + 1;
      high := high - 1;
    }
  }

  lemma DigitsOfZero(base: nat, uppercase: bool)
    requires 2 <= base <= 16
    ensures Digits(0, base, uppercase) == ['0']
  {
    hide Quotient, Remainder;
  }

  lemma ExtractedStep(rest: nat, base: nat, uppercase: bool)
    requires 2 <= base <= 16
    ensures rest == 0 ==> Extracted(rest, base, uppercase) == []
    ensures rest > 0 ==>
      Extracted(rest, base, uppercase)
      == [DigitChar(Remainder(rest, base), uppercase)] + Extracted(Quotient(rest, base), base, uppercase)
  {
    hide Quotient, Remainder, DigitChar;
  }

  /** The digit-extraction loop of _itoa. */
  method ExtractDigits(buffer: array<char>, u: nat, base: nat, uppercase: bool) returns (n: nat)
    requires 2 <= base <= 16 && u > 0 && |Extracted(u, base, uppercase)| <= buffer.Length
    modifies buffer
    ensures n <= buffer.Length && buffer[..n] == Extracted(u, base, uppercase)
    ensures forall i :: n <= i < buffer.Length ==> buffer[i] == old(buffer[i])
  {
    hide DigitChar, Digits, Extracted, Quotient, Remainder;
    ghost var all := Extracted(u, base, uppercase);
    n := 0;
    var rest: nat := u;
    while rest > 0
      invariant n <= |all| && all == buffer[..n] + Extracted(rest, base, uppercase)
      invariant forall i :: n <= i < buffer.Length ==> buffer[i] == old(buffer[i])
      decreases rest
    {
      ghost var before := buffer[..n];
      ExtractedStep(rest, base, uppercase);
      buffer[n] := DigitChar(Remainder(rest, base), uppercase);
      assert buffer[..n + 1] == before + [DigitChar(Remainder(rest, base), uppercase)];
      rest := Quotient(rest, base);
      n := n + 1;
    }
    ExtractedStep(0, base, uppercase);
  }

  /** The digits of a word, in reverse order; 0 has one. */
  method WriteDigits(buffer: array<char>, u: nat, base: nat, uppercase: bool) returns (n: nat)
    requires 2 <= base <= 16 && |Digits(u, base, uppercase)| < buffer.Length
    modifies buffer
    ensures 0 < n == |Digits(u, base, uppercase)|
    ensures Reversed(buffer[..n]) == Digits(u, base, uppercase)
    ensures forall i :: n <= i < buffer.Length ==> buffer[i] == old(buffer[i])
  {
    hide Digits, Extracted;
    NoLeadingZero(u, base, uppercase);
    if u == 0 {
      buffer[0] := '0';
      n := 1;
      assert Reversed(buffer[..1]) == ['0'];
      DigitsOfZero(base, uppercase);
    } else {
      ReversedExtracted(u, base, uppercase);
      assert |Reversed(Extracted(u, base, uppercase))| == |Extracted(u, base, uppercase)|;
      n := ExtractDigits(buffer, u, base, uppercase);
    }
  }

  /** The digits and the sign, in reverse order. */
  method WriteReversed(buffer: array<char>, value: int, base: nat, uppercase: bool, isSigned: bool) returns (n: nat)
    requires 2 <= base <= 16 && Int32(value)
    requires |Printed(value, base, uppercase, isSigned)| < buffer.Length
    modifies buffer
    ensures 0 < n < buffer.Length && Reversed(buffer[..n]) == Printed(value, base, uppercase, isSigned)
    ensures forall i :: n <= i < buffer.Length ==> buffer[i] == old(buffer[i])
  {
    hide Digits, Reversed;
    var negative := isSigned && base == 10 && value < 0;
    var uvalue := if negative then -value % WORD else value % WORD;
    n := WriteDigits(buffer, uvalue, base, uppercase);
    if negative {
      ghost var digits := buffer[..n];
      buffer[n] := '-';
      n := n + 1;
      assert buffer[..n] == digits + ['-'];
      ReversedAppend(digits, '-');
    }
  }

  /** _itoa: the buffer holds the printed form and its terminator, and nothing after it changes. */
  method Itoa(buffer: array<char>, value: int, base: nat, uppercase: bool, isSigned: bool) returns (length: nat)
    requires 2 <= base <= 16 && Int32(value)
    requires |Printed(value, base, uppercase, isSigned)| < buffer.Length
    modifies buffer
    ensures length == |Printed(value, base, uppercase, isSigned)|
    ensures buffer[..length] == Printed(value, base, uppercase, isSigned) && buffer[length] == '\0'
    ensures buffer[length + 1..] == old(buffer[length + 1..])
  {
    hide Printed, Reversed;
    length := WriteReversed(buffer, value, base, uppercase, isSigned);
    buffer[length] := '\0';
    ghost var rest := buffer[length..];
    assert rest[0] == '\0' && rest[1..] == old(buffer[length + 1..]);
    ReverseInPlace(buffer, length);
    assert buffer[length..] == rest && buffer[length + 1..] == rest[1..];
  }

  lemma PowersOfTen()
    ensures Pow(10, 10) == 10_000_000_000
  {
    assert Pow(10, 2) == 100;
    assert Pow(10, 4) == 10_000;
    assert Pow(10, 6) == 1_000_000;
    assert Pow(10, 8) == 100_000_000;
  }

  lemma PowersOfSixteen()
    ensures Pow(16, 8) == WORD
  {
    assert Pow(16, 2) == 0x100;
    assert Pow(16, 4) == 0x1_0000;
    assert Pow(16, 6) == 0x100_0000;
  }

  /** What the caller of _itoa needs to know to size its buffer: ten digits and a sign. */
  lemma PrintedLength(value: int, base: nat, uppercase: bool, isSigned: bool)
    requires Int32(value) && (base == 10 || base == 16)
    ensures |Printed(value, base, uppercase, isSigned)| <=
      if isSigned && base == 10 && value < 0 then 11 else if base == 10 then 10 else 8
  {
    var u := if isSigned && base == 10 && value < 0 then -value % WORD else value % WORD;
    if base == 10 {
      PowersOfTen();
      DigitsLength(u, 10, uppercase, 10);
    } else {
      PowersOfSixteen();
      DigitsLength(u, 16, uppercase, 8);
    }
  }

  /** The most negative value prints as its true magnitude. */
  lemma MostNegative(uppercase: bool)
    ensures Printed(-0x8000_0000, 10, uppercase, true) == "-" + Digits(0x8000_0000, 10, uppercase)
  {
  }

  // ---------------------------------------------------------------------------------------------
  // Parsing
  // ---------------------------------------------------------------------------------------------

  /** The longest prefix of decimal digits. */
  function LeadingDigits(s: string): string {
    if s == [] || !IsDecimal(s[0]) then [] else [s[0]] + LeadingDigits(s[1..])
  }

  lemma {:induction false} LeadingDigitsIsPrefix(s: string, n: nat)
    requires n <= |s| && (forall i :: 0 <= i < n ==> IsDecimal(s[i])) && (n < |s| ==> !IsDecimal(s[n]))
    ensures LeadingDigits(s) == s[..n]
  {
    if n > 0 {
      LeadingDigitsIsPrefix(s[1..], n - 1);
      assert s[..n] == [s[0]] + s[1..][..n - 1];
    }
  }

  lemma ModStep(a: nat, d: nat)
    ensures (a % WORD * 10 + d) % WORD == (a * 10 + d) % WORD
  {
    assert WORD == 0x1_0000_0000;
  }

  /** string_to_uint: the number written by the leading digits, modulo 2^32. The end of the
      sequence stands for the terminating NUL. */
  method StringToUint(str: string) returns (result: nat)
    ensures result == ValueOf(LeadingDigits(str), 10, false) % WORD
  {
    result := 0;
    var i := 0;
    while i < |str| && '0' <= str[i] <= '9'
      invariant i <= |str| && forall j :: 0 <= j < i ==> IsDecimal(str[j])
      invariant result == ValueOf(str[..i], 10, false) % WORD
    {
      ModStep(ValueOf(str[..i], 10, false), DigitValue(str[i], false));
      assert str[..i + 1][..i] == str[..i];
      result := (result * 10 + (str[i] - '0') as nat) % WORD;
      i := i + 1;
    }
    LeadingDigitsIsPrefix(str, i);
  }

  lemma DecimalDigits(u: nat, uppercase: bool)
    ensures forall i :: 0 <= i < |Digits(u, 10, uppercase)| ==> IsDecimal(Digits(u, 10, uppercase)[i])
  {
    hide Quotient, Remainder;
    DigitCharValue(Remainder(u, 10), uppercase);
    if u < 10 {
      DigitCharValue(u, uppercase);
    } else {
      DecimalDigits(Quotient(u, 10), uppercase);
    }
  }

  /** The case of letters makes no difference in base 10. */
  lemma {:induction false} CaseOfDecimal(u: nat, uppercase: bool)
    ensures Digits(u, 10, uppercase) == Digits(u, 10, false)
  {
    hide Quotient, Remainder;
    if u >= 10 {
      CaseOfDecimal(Quotient(u, 10), uppercase);
    }
  }

  /** What string_to_uint reads back from what _itoa printed: every 32-bit word, whatever non-digit
      follows it. */
  lemma PrintThenParse(v: nat, uppercase: bool, rest: string)
    requires v < WORD && (rest != [] ==> !IsDecimal(rest[0]))
    ensures ValueOf(LeadingDigits(Printed(v, 10, uppercase, false) + rest), 10, false) % WORD == v
  {
    hide Digits, ValueOf, LeadingDigits;
    var s := Digits(v, 10, uppercase);
    DecimalDigits(v, uppercase);
    LeadingDigitsIsPrefix(s + rest, |s|);
    assert (s + rest)[..|s|] == s;
    CaseOfDecimal(v, uppercase);
    DigitsDenote(v, 10, false);
  }

  lemma PrintedWord(v: nat, value: int)
    requires v < WORD && (value == v || value == v - WORD)
    ensures Printed(value, 10, false, false) == Printed(v, 10, false, false)
  {
    hide Digits;
    assert WORD == 0x1_0000_0000;
  }

  /** Printing, then parsing, a buffer in memory. */
  method PrintParse(buffer: array<char>, v: nat) returns (result: nat)
    requires v < WORD && buffer.Length >= 11
    modifies buffer
    ensures result == v
  {
    var value := if v < 0x8000_0000 then v else v - WORD;
    PrintedWord(v, value);
    PrintedLength(value, 10, false, false);
    var length := Itoa(buffer, value, 10, false, false);
    result := StringToUint(buffer[..length + 1]);
    PrintThenParse(v, false, ['\0']);
    assert buffer[..length + 1] == buffer[..length] + ['\0'];
  }

  /** Base-16 output has the letters of its case only, and decodes to the same word. */
  lemma HexDecodes(v: nat, uppercase: bool)
    requires v < WORD
    ensures var s := Printed(v, 16, uppercase, false);
      && ValueOf(s, 16, uppercase) == v
      && forall c :: c in s ==>
           '0' <= c <= '9' || (uppercase && 'A' <= c <= 'F') || (!uppercase && 'a' <= c <= 'f')
  {
    hide Digits, ValueOf;
    DigitsDenote(v, 16, uppercase);
    assert forall c :: c in Printed(v, 16, uppercase, false) ==> IsDigit(c, uppercase);
  }

  /** 255 in either case. */
  lemma HexOf255()
    ensures Printed(255, 16, true, false) == "FF" && Printed(255, 16, false, false) == "ff"
  {
    assert Digits(15, 16, true) == "F" && Digits(15, 16, false) == "f";
  }

  /** Signed decimal output is the sign and the magnitude. */
  lemma SignedDecodes(value: int, uppercase: bool)
    requires Int32(value)
    ensures var s := Printed(value, 10, uppercase, true);
      if value < 0 then s[0] == '-' && ValueOf(s[1..], 10, uppercase) == -value
      else ValueOf(s, 10, uppercase) == value
  {
    hide Digits, ValueOf;
    assert WORD == 0x1_0000_0000;
    if value < 0 {
      DigitsDenote(-value, 10, uppercase);
      assert Printed(value, 10, uppercase, true)[1..] == Digits(-value, 10, uppercase);
    } else {
      DigitsDenote(value, 10, uppercase);
    }
  }
}
