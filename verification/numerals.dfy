/**
 * Numbers in topics and checksums: what sprintf prints for "%u" and "%x", and what sscanf stores
 * for the same directives into a 32-bit variable that was zero before.
 */
module Numerals {
  import opened Basics

  function DigitChar(d: nat): char
    requires d < 16
  {
    if d < 10 then ('0' as nat + d) as char else ('a' as nat + (d - 10)) as char
  }

  /** The value of a digit character, 16 when it is none. */
  function DigitValue(c: char): nat {
    if '0' <= c <= '9' then c as nat - '0' as nat
    else if 'a' <= c <= 'f' then c as nat - 'a' as nat + 10
    else if 'A' <= c <= 'F' then c as nat - 'A' as nat + 10
    else 16
  }

  predicate IsDigit(c: char, base: nat) {
    DigitValue(c) < base
  }

  predicate IsSpace(c: char) {
    c == ' ' || '\t' <= c <= '\r'
  }

  predicate IsBase(base: nat) {
    base == 10 || base == 16
  }

  function Print(n: nat, base: nat): string
    requires IsBase(base)
  {
    if n < base then [DigitChar(n)] else Print(n / base, base) + [DigitChar(n % base)]
  }

  /** How many leading characters are digits. */
  function DigitRun(s: string, base: nat): (r: nat)
    ensures r <= |s|
    ensures forall k :: 0 <= k < r ==> IsDigit(s[k], base)
    ensures r < |s| ==> !IsDigit(s[r], base)
  {
    if s == "" || !IsDigit(s[0], base) then 0 else 1 + DigitRun(s[1..], base)
  }

  function Value(digits: string, base: nat): nat {
    if digits == "" then 0
    else Value(digits[..|digits| - 1], base) * base + DigitValue(digits[|digits| - 1])
  }

  function SkipSpaces(s: string): string {
    if s != "" && IsSpace(s[0]) then SkipSpaces(s[1..]) else s
  }

  /** A number too large for 32 bits saturates, a minus sign negates modulo 2^32; no digits leave the variable zero. */
  function Convert(digits: string, negative: bool, base: nat): (r: nat)
    ensures r < UINT32
  {
    var v := Value(digits, base);
    if v >= UINT32 then UINT32 - 1 else if negative then (UINT32 - v) % UINT32 else v
  }

  /** sscanf(s, "%u", &v) for base 10 and sscanf(s, "%x", &v) for base 16. */
  function Scan(s: string, base: nat): (r: nat)
    ensures r < UINT32
  {
    var text := SkipSpaces(s);
    var signed := text != "" && (text[0] == '-' || text[0] == '+');
    var body := if signed then text[1..] else text;
    var number := if base == 16 && |body| >= 2 && body[0] == '0' && body[1] in "xX" then body[2..] else body;
    Convert(number[..DigitRun(number, base)], signed && text[0] == '-', base)
  }

  lemma DigitsRoundTrip(d: nat)
    requires d < 16
    ensures DigitValue(DigitChar(d)) == d
    ensures IsNumeral(DigitChar(d))
  {}

  /** Characters that scanning does not skip or take for a sign, a hexadecimal prefix or a topic separator. */
  predicate IsNumeral(c: char) {
    !IsSpace(c) && c != '-' && c != '+' && c != 'x' && c != 'X' && c != '/'
  }

  /** What is printed is a non-empty string of digits whose value is the number. */
  lemma {:induction false} PrintMeansValue(n: nat, base: nat)
    requires IsBase(base)
    ensures Print(n, base) != ""
    ensures forall c :: c in Print(n, base) ==> IsDigit(c, base) && IsNumeral(c)
    ensures Value(Print(n, base), base) == n
  {
    hide DigitValue, DigitChar, IsNumeral;
    DigitsRoundTrip(n % base);
    var s := Print(n, base);
    if n < base {
      assert s[..0] == "";
    } else {
      PrintMeansValue(n / base, base);
      assert s[..|s| - 1] == Print(n / base, base);
      if base == 10 { assert n / 10 * 10 + n % 10 == n; } else { assert n / 16 * 16 + n % 16 == n; }
    }
  }

  function Pow10(k: nat): nat {
    if k == 0 then 1 else 10 * Pow10(k - 1)
  }

  lemma {:induction false} PrintLength(n: nat, k: nat)
    requires 0 < k && n < Pow10(k)
    ensures |Print(n, 10)| <= k
  {
    if n >= 10 {
      assert k > 1;
      PrintLength(n / 10, k - 1);
    }
  }

  /** A 32-bit number prints in at most ten decimal digits. */
  lemma PrintFitsTen(n: nat)
    requires n < UINT32
    ensures 1 <= |Print(n, 10)| <= 10
  {
    assert Pow10(5) == 100000;
    assert Pow10(10) == 10000000000;
    PrintLength(n, 10);
  }

  lemma {:induction false} DigitRunOfDigits(digits: string, rest: string, base: nat)
    requires forall c :: c in digits ==> IsDigit(c, base)
    requires rest != "" ==> !IsDigit(rest[0], base)
    ensures DigitRun(digits + rest, base) == |digits|
  {
    if digits == "" {
      assert digits + rest == rest;
    } else {
      assert (digits + rest)[0] in digits;
      assert (digits + rest)[1..] == digits[1..] + rest;
      DigitRunOfDigits(digits[1..], rest, base);
    }
  }

  /** Text that starts with a digit and does not look like a hexadecimal prefix is scanned from its first character. */
  lemma ScanPlain(s: string, base: nat)
    requires s != "" && !IsSpace(s[0]) && s[0] !in "-+"
    requires |s| >= 2 ==> s[1] !in "xX"
    ensures Scan(s, base) == Convert(s[..DigitRun(s, base)], false, base)
  {}

  /** Scanning a printed number gives it back, whatever non-digit text follows. */
  lemma ScanPrinted(n: nat, rest: string, base: nat)
    requires IsBase(base) && n < UINT32
    requires rest != "" ==> !IsDigit(rest[0], base) && rest[0] !in "xX"
    ensures Scan(Print(n, base) + rest, base) == n
  {
    hide Print, Scan, Convert;
    PrintMeansValue(n, base);
    var digits := Print(n, base);
    var s := digits + rest;
    assert s[0] == digits[0] && digits[0] in digits;
    if |digits| >= 2 {
      assert s[1] == digits[1] && digits[1] in digits;
    } else if |s| >= 2 {
      assert s[1] == rest[0];
    }
    ScanPlain(s, base);
    DigitRunOfDigits(digits, rest, base);
    assert s[..|digits|] == digits;
    ConvertSmall(digits, base);
  }

  lemma ConvertSmall(digits: string, base: nat)
    ensures Value(digits, base) < UINT32 ==> Convert(digits, false, base) == Value(digits, base)
  {}

  // ---- What else scanning takes --------------------------------------------------------------------------

  /** The digits and their values, letters in either case. */
  lemma DigitsSpelledOut(c: char)
    ensures forall d :: 0 <= d < 16 ==> DigitChar(d) == "0123456789abcdef"[d]
    ensures forall d :: 0 <= d < 16 ==>
              DigitValue("0123456789abcdef"[d]) == d && DigitValue("0123456789ABCDEF"[d]) == d
    ensures c !in "0123456789abcdef" && c !in "ABCDEF" ==> DigitValue(c) == 16
  {
    if '0' <= c <= '9' {
      assert c == "0123456789abcdef"[c as nat - 48];
    } else if 'a' <= c <= 'f' {
      assert c == "0123456789abcdef"[c as nat - 97 + 10];
    } else if 'A' <= c <= 'F' {
      assert c == "ABCDEF"[c as nat - 65];
    }
  }

  /** The most significant digit comes first: one more digit goes behind the others. */
  lemma PrintedInOrder(n: nat, d: nat, base: nat)
    requires IsBase(base) && d < base
    ensures Print(d, base) == ["0123456789abcdef"[d]]
    ensures n > 0 ==> Print(n * base + d, base) == Print(n, base) + ["0123456789abcdef"[d]]
  {
    DigitsSpelledOut('0');
    hide DigitChar, DigitValue;
    LastDigit(n, d, base);
  }

  lemma LastDigit(n: nat, d: nat, base: nat)
    requires IsBase(base) && d < base
    ensures (n * base + d) / base == n && (n * base + d) % base == d && (n > 0 ==> n * base + d >= base)
  {
    if base == 10 {
      assert n * base == n * 10;
    } else {
      assert n * base == n * 16;
    }
  }

  /** White space in front is skipped. */
  lemma ScanSkipsSpace(c: char, s: string, base: nat)
    requires c in " \t\n\r" || c as nat == 11 || c as nat == 12
    ensures Scan([c] + s, base) == Scan(s, base)
  {
    hide Convert, DigitRun;
    var text := [c] + s;
    assert text[0] == c && text[1..] == s;
    assert SkipSpaces(text) == SkipSpaces(s);
  }

  /** A signed number: a minus sign negates modulo 2^32, and what does not fit saturates, signed or not. */
  lemma ScanSigned(n: nat, sign: char, base: nat)
    requires IsBase(base) && sign in "+-"
    ensures Scan([sign] + Print(n, base), base) ==
            if n >= 0x1_0000_0000 then 0xFFFF_FFFF
            else if sign == '-' && n > 0 then 0x1_0000_0000 - n
            else n
  {
    hide Print, DigitRun, Convert, Value, IsDigit, IsNumeral;
    PrintMeansValue(n, base);
    var body := Print(n, base);
    var s := [sign] + body;
    assert s[0] == sign && s[1..] == body && body[0] in body;
    NumeralIsPlain(body);
    DigitRunOfDigits(body, "", base);
    assert body + "" == body && body[..|body|] == body;
    ConvertSigned(body, sign == '-', base);
  }

  lemma NumeralIsPlain(body: string)
    requires forall c :: c in body ==> IsNumeral(c)
    ensures |body| >= 2 ==> body[1] != 'x' && body[1] != 'X'
  {
    if |body| >= 2 { assert body[1] in body; }
  }

  lemma ConvertSigned(digits: string, negative: bool, base: nat)
    ensures var v := Value(digits, base);
            Convert(digits, negative, base) ==
            if v >= 0x1_0000_0000 then 0xFFFF_FFFF else if negative && v > 0 then 0x1_0000_0000 - v else v
  {}

  /** ... and so does an unsigned one. */
  lemma ScanSaturates(n: nat, base: nat)
    requires IsBase(base) && n >= 0x1_0000_0000
    ensures Scan(Print(n, base), base) == 0xFFFF_FFFF
  {
    hide Print, Scan;
    PrintMeansValue(n, base);
    var s := Print(n, base);
    assert s[0] in s;
    if |s| >= 2 { assert s[1] in s; }
    ScanPlain(s, base);
    DigitRunOfDigits(s, "", base);
    assert s + "" == s && s[..|s|] == s;
  }

  /** A hexadecimal number may carry its prefix. */
  lemma ScanHexPrefix(n: nat, x: char)
    requires n < 0x1_0000_0000 && x in "xX"
    ensures Scan(['0', x] + Print(n, 16), 16) == n
  {
    hide Print, DigitRun;
    PrintMeansValue(n, 16);
    var digits := Print(n, 16);
    var s := ['0', x] + digits;
    assert s[2..] == digits;
    DigitRunOfDigits(digits, "", 16);
    assert digits + "" == digits && digits[..|digits|] == digits;
    ConvertSmall(digits, 16);
  }

  /** Where no digit comes first the variable keeps its 0. */
  lemma ScanNothing(s: string)
    requires s != "" ==> s[0] !in "0123456789+- \t\n\r" && s[0] as nat != 11 && s[0] as nat != 12
    ensures Scan(s, 10) == 0
  {
    if s != "" {
      DigitsSpelledOut(s[0]);
      assert !IsDigit(s[0], 10);
    }
  }
}
