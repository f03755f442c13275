/** Numbers as text: what the stream inserters print and what strtoul reads. */
module Numerals {
  import opened Results

  // ---- digits ---------------------------------------------------------------------

  /** The value of a digit character in any base up to 16; 16 for every other character. */
  function DigitValue(c: char): nat {
    if '0' <= c <= '9' then (c - '0') as nat
    else if 'a' <= c <= 'f' then (c - 'a') as nat + 10
    else if 'A' <= c <= 'F' then (c - 'A') as nat + 10
    else 16
  }

  function DigitChar(d: nat): (c: char)
    requires d < 16
    ensures c == "0123456789abcdef"[d]
    ensures DigitValue(c) == d && (c == '0' <==> d == 0) && c != 'x' && c != 'X'
  {
    if d < 10 then '0' + d as char else 'a' + (d - 10) as char
  }

  predicate AllDigits(s: string, base: nat) { forall c | c in s :: DigitValue(c) < base }

  /** The shortest text of n. */
  function Digits(n: nat, base: nat): string
    requires 2 <= base <= 16
  {
    if n < base then [DigitChar(n)] else Digits(n / base, base) + [DigitChar(n % base)]
  }

  function Value(s: string, base: nat): nat {
    if s == "" then 0 else Value(s[..|s| - 1], base) * base + DigitValue(s[|s| - 1])
  }

  function Power(base: nat, e: nat): nat { if e == 0 then 1 else base * Power(base, e - 1) }

  function Zeros(k: nat): string { seq(k, _ => '0') }

  /** setw and setfill('0'). */
  function Pad(s: string, width: nat): string {
    if |s| < width then Zeros(width - |s|) + s else s
  }

  function ToHexString(n: nat, width: nat, showBase: bool): string {
    (if showBase then "0x" else "") + Pad(Digits(n, 16), width)
  }

  // ---- reading --------------------------------------------------------------------

  const ULONG_RANGE := 0x1_0000_0000_0000_0000

  predicate IsBlank(c: char) { c == ' ' || '\t' <= c <= '\r' }

  function SkipBlanks(s: string): string {
    if s != "" && IsBlank(s[0]) then SkipBlanks(s[1..]) else s
  }

  /** How many leading characters are digits. */
  function DigitRun(s: string, base: nat): (k: nat)
    ensures k <= |s|
  {
    if s != "" && DigitValue(s[0]) < base then 1 + DigitRun(s[1..], base) else 0
  }

  predicate HasHexPrefix(s: string) {
    |s| > 2 && s[0] == '0' && (s[1] == 'x' || s[1] == 'X') && DigitValue(s[2]) < 16
  }

  /** A number and what follows it. */
  datatype Reading = NoNumber | Reading(negative: bool, magnitude: nat, rest: string)

  /** The longest number at the front; base 0 takes the base from the prefix. */
  function Read(text: string, base: nat): Reading {
    var s := SkipBlanks(text);
    var signed := s != "" && (s[0] == '+' || s[0] == '-');
    var t := if signed then s[1..] else s;
    var hex := (base == 0 || base == 16) && HasHexPrefix(t);
    var b := if hex then 16 else if base != 0 then base else if t != "" && t[0] == '0' then 8 else 10;
    var u := if hex then t[2..] else t;
    var k := DigitRun(u, b);
    if k == 0 then NoNumber else Reading(signed && s[0] == '-', Value(u[..k], b), u[k..])
  }

  /** std::stoul: the rest of the text is ignored, a minus sign wraps around. */
  function Stoul(text: string, base: nat): Result<nat> {
    match Read(text, base)
    case NoNumber => Threw
    case Reading(negative, magnitude, _) =>
      if magnitude >= ULONG_RANGE then Threw
      else Ok(if negative then (ULONG_RANGE - magnitude) % ULONG_RANGE else magnitude)
  }

  // ---- round trips ------------------------------------------------------------------

  lemma ValueAppend(s: string, c: char, base: nat)
    ensures Value(s + [c], base) == Value(s, base) * base + DigitValue(c)
  {
    assert (s + [c])[..|s|] == s;
  }

  lemma QuotientAndRest(n: nat, base: nat)
    requires base > 0
    ensures n / base * base + n % base == n && 0 <= n % base < base
    ensures n >= base ==> n / base > 0
    ensures n >= base >= 2 ==> n / base < n
  {
  }

  lemma {:induction false} DigitsAreDigits(n: nat, base: nat)
    requires 2 <= base <= 16
    ensures Digits(n, base) != "" && AllDigits(Digits(n, base), base)
    ensures Digits(n, base)[0] == '0' <==> n == 0
    ensures Value(Digits(n, base), base) == n
  {
    if n < base {
      assert Digits(n, base) == "" + [DigitChar(n)];
      ValueAppend("", DigitChar(n), base);
      assert Value("", base) * base == 0;
    } else {
      QuotientAndRest(n, base);
      DigitsAreDigits(n / base, base);
      AppendDigit(Digits(n / base, base), n / base, n % base, base);
    }
  }

  lemma AppendDigit(s: string, q: nat, r: nat, base: nat)
    requires r < base <= 16 && s != "" && AllDigits(s, base) && Value(s, base) == q && s[0] != '0'
    ensures var t := s + [DigitChar(r)]; AllDigits(t, base) && t[0] != '0' && Value(t, base) == q * base + r
  {
    ValueAppend(s, DigitChar(r), base);
  }

  /** Enough digits, and no more than it takes. */
  lemma {:induction false} DigitsAreFew(n: nat, base: nat)
    requires 2 <= base <= 16
    ensures n < Power(base, |Digits(n, base)|)
    ensures n >= base ==> Power(base, |Digits(n, base)| - 1) <= n
  {
    if n < base {
      PowerStep(base, 0);
    } else {
      QuotientAndRest(n, base);
      DigitsAreFew(n / base, base);
      DigitsAreFewStep(n, base, |Digits(n / base, base)|);
    }
  }

  lemma DigitsAreFewStep(n: nat, base: nat, k: nat)
    requires base >= 2 && n >= base && k > 0 && n / base < Power(base, k)
    requires if n / base >= base then Power(base, k - 1) <= n / base else k == 1
    ensures Power(base, k) <= n < Power(base, k + 1)
  {
    PowerStep(base, k);
    Scale(n, base, Power(base, k));
    PowerStep(base, 0);
    if n / base >= base {
      PowerStep(base, k - 1);
      Scale(n, base, Power(base, k - 1));
    }
  }

  lemma PowerStep(base: nat, k: nat)
    ensures Power(base, k + 1) == base * Power(base, k)
    ensures k == 0 ==> Power(base, k) == 1 && Power(base, 1) == base
  {
  }

  lemma Scale(n: nat, base: nat, p: nat)
    requires base > 0
    ensures n / base < p ==> n < base * p
    ensures p <= n / base ==> base * p <= n
  {
    if n / base < p {
      assert (n / base + 1) * base <= p * base;
    } else {
      assert base * p <= base * (n / base);
    }
  }

  lemma {:induction false} LeadingZeros(k: nat, s: string, base: nat)
    ensures Value(Zeros(k) + s, base) == Value(s, base)
    decreases |s|, k
  {
    if s == "" && k == 0 {
    } else if s == "" {
      assert (Zeros(k) + "")[..k - 1] == Zeros(k - 1) + "";
      LeadingZeros(k - 1, "", base);
    } else {
      assert (Zeros(k) + s)[..k + |s| - 1] == Zeros(k) + s[..|s| - 1];
      LeadingZeros(k, s[..|s| - 1], base);
    }
  }

  lemma {:induction false} DigitRunStops(s: string, rest: string, base: nat)
    requires AllDigits(s, base)
    requires rest != "" ==> DigitValue(rest[0]) >= base
    ensures DigitRun(s + rest, base) == |s|
  {
    if s == "" {
      assert s + rest == rest;
    } else {
      assert (s + rest)[1..] == s[1..] + rest;
      assert s[0] in s;
      DigitRunStops(s[1..], rest, base);
    }
  }

  /** Digits followed by something else are read in base 16 as they stand. */
  lemma ReadHexDigits(s: string, rest: string)
    requires s != "" && AllDigits(s, 16)
    requires rest != "" ==> DigitValue(rest[0]) >= 16 && rest[0] != 'x' && rest[0] != 'X'
    ensures Read(s + rest, 16) == Reading(false, Value(s, 16), rest)
  {
    var t := s + rest;
    DigitRunStops(s, rest, 16);
    assert t[..|s|] == s && t[|s|..] == rest;
    assert s[0] in s && t[0] == s[0];
    assert !HasHexPrefix(t) by {
      assert |s| > 1 ==> s[1] in s && t[1] == s[1];
      assert |s| == 1 && rest != "" ==> t[1] == rest[0];
    }
    assert SkipBlanks(t) == t;
  }

  lemma PaddedDigits(n: nat, width: nat)
    ensures var s := Pad(Digits(n, 16), width);
            s != "" && AllDigits(s, 16) && Value(s, 16) == n &&
            |s| == if |Digits(n, 16)| < width then width else |Digits(n, 16)|
  {
    DigitsAreDigits(n, 16);
    if |Digits(n, 16)| < width {
      LeadingZeros(width - |Digits(n, 16)|, Digits(n, 16), 16);
    }
  }

  /** Printing in hexadecimal and reading again, without the base prefix as base 16 and with it as base 0. */
  lemma HexRoundTrip(n: nat, width: nat)
    requires n < ULONG_RANGE
    ensures |ToHexString(n, width, false)| == if |Digits(n, 16)| < width then width else |Digits(n, 16)|
    ensures Stoul(ToHexString(n, width, false), 16) == Ok(n)
    ensures Stoul(ToHexString(n, width, true), 0) == Ok(n)
    ensures ToHexString(n, width, true) == "0x" + ToHexString(n, width, false)
  {
    var s := Pad(Digits(n, 16), width);
    PaddedDigits(n, width);
    assert s + "" == s && ToHexString(n, width, false) == s;
    ReadHexDigits(s, "");
    ReadPrefixed(s);
    assert ToHexString(n, width, true) == "0x" + s;
  }

  lemma ReadPrefixed(s: string)
    requires s != "" && AllDigits(s, 16)
    ensures Read("0x" + s, 0) == Reading(false, Value(s, 16), "")
  {
    var t := "0x" + s;
    assert t[0] == '0' && t[1] == 'x' && t[2] == s[0] && t[2..] == s;
    assert s[0] in s && HasHexPrefix(t);
    assert s + "" == s;
    DigitRunStops(s, "", 16);
    assert s[..|s|] == s && s[|s|..] == "";
  }

  lemma ReadDecimal(s: string)
    requires s != "" && AllDigits(s, 10) && s[0] != '0'
    ensures Read(s, 0) == Reading(false, Value(s, 10), "")
  {
    assert s[0] in s;
    assert s + "" == s;
    DigitRunStops(s, "", 10);
    assert s[..|s|] == s && s[|s|..] == "";
  }

  /** A leading zero makes it octal. */
  lemma ReadOctal(s: string)
    requires s != "" && AllDigits(s, 8) && s[0] == '0'
    ensures Read(s, 0) == Reading(false, Value(s, 8), "")
  {
    assert |s| > 1 ==> s[1] in s;
    assert s + "" == s;
    DigitRunStops(s, "", 8);
    assert s[..|s|] == s && s[|s|..] == "";
  }

  /** Printing in decimal and reading with the base taken from the text. */
  lemma DecimalRoundTrip(n: nat)
    ensures Read(Digits(n, 10), 0) == Reading(false, n, "")
  {
    DigitsAreDigits(n, 10);
    if n == 0 {
      ReadOctal("0");
      ValueAppend("", '0', 8);
      assert "" + ['0'] == "0";
    } else {
      ReadDecimal(Digits(n, 10));
    }
  }

  // ---- what stoul reads -----------------------------------------------------------------

  /** The digits of each base, and the blanks. */
  lemma DigitValues(c: char)
    ensures DigitValue(c) < 8 <==> c in "01234567"
    ensures DigitValue(c) < 10 <==> c in "0123456789"
    ensures DigitValue(c) < 16 <==> c in "0123456789abcdefABCDEF"
    ensures IsBlank(c) <==> c as int == 32 || 9 <= c as int <= 13
  {
  }

  lemma {:induction false} BlanksAreSkipped(blanks: string, s: string)
    requires forall c | c in blanks :: IsBlank(c)
    requires s != "" ==> !IsBlank(s[0])
    ensures SkipBlanks(blanks + s) == s
  {
    if blanks == "" {
      assert blanks + s == s;
    } else {
      assert blanks[0] in blanks && (blanks + s)[1..] == blanks[1..] + s;
      BlanksAreSkipped(blanks[1..], s);
    }
  }

  /**
   * A base prefix; without one base 0 makes a leading zero octal and anything else decimal. A zero in front of
   * an x and a hexadecimal digit is no number but a prefix.
   */
  predicate TellsBase(prefix: string, s: string, rest: string, base: nat, b: nat) {
    if prefix == "0x" || prefix == "0X" then (base == 0 || base == 16) && b == 16
    else
      && prefix == "" && s != ""
      && !(s == "0" && |rest| >= 2 && (rest[0] == 'x' || rest[0] == 'X') && DigitValue(rest[1]) < 16)
      && (if base == 0 then b == (if s[0] == '0' then 8 else 10) else b == base == 16)
  }

  lemma NoPrefix(s: string, rest: string, b: nat)
    requires s != "" && AllDigits(s, b) && b <= 16
    requires !(s == "0" && |rest| >= 2 && (rest[0] == 'x' || rest[0] == 'X') && DigitValue(rest[1]) < 16)
    ensures !HasHexPrefix(s + rest)
  {
    if |s| > 1 {
      assert s[1] in s && (s + rest)[1] == s[1];
    } else {
      assert s == [s[0]] && forall i | 0 <= i < |rest| :: (s + rest)[i + 1] == rest[i];
    }
  }

  lemma ReadUnsigned(prefix: string, s: string, rest: string, base: nat, b: nat, t: string)
    requires t == prefix + (s + rest) && s != "" && AllDigits(s, b) && TellsBase(prefix, s, rest, base, b)
    requires rest != "" ==> DigitValue(rest[0]) >= b
    ensures t[0] != '-' && t[0] != '+' && !IsBlank(t[0])
    ensures var hex := (base == 0 || base == 16) && HasHexPrefix(t);
            && b == (if hex then 16 else if base != 0 then base else if t[0] == '0' then 8 else 10)
            && (if hex then t[2..] else t) == s + rest
            && DigitRun(s + rest, b) == |s|
  {
    assert s[0] in s && (s + rest)[0] == s[0];
    DigitRunStops(s, rest, b);
    if prefix == "" {
      assert t == s + rest;
      NoPrefix(s, rest, b);
    } else {
      assert t[0] == '0' && t[1] == prefix[1] && t[2] == s[0] && t[2..] == s + rest;
    }
  }

  lemma SignIsRead(sign: string, t: string)
    requires sign in ["", "+", "-"] && t != "" && t[0] != '-' && t[0] != '+' && !IsBlank(t[0])
    ensures var u := sign + t;
            && u != "" && !IsBlank(u[0])
            && (u[0] == '+' || u[0] == '-' <==> sign != "") && (u[0] == '-' <==> sign == "-")
            && (if u[0] == '+' || u[0] == '-' then u[1..] else u) == t
  {
    if sign == "" {
      assert sign + t == t;
    } else {
      assert (sign + t)[1..] == t;
    }
  }

  lemma NumberIsRead(text: string, sign: string, prefix: string, s: string, rest: string, base: nat, b: nat)
    requires sign in ["", "+", "-"] && SkipBlanks(text) == sign + (prefix + (s + rest))
    requires s != "" && AllDigits(s, b) && TellsBase(prefix, s, rest, base, b)
    requires rest != "" ==> DigitValue(rest[0]) >= b
    ensures Read(text, base) == Reading(sign == "-", Value(s, b), rest)
  {
    ReadUnsigned(prefix, s, rest, base, b, prefix + (s + rest));
    SignIsRead(sign, prefix + (s + rest));
    assert (s + rest)[..|s|] == s && (s + rest)[|s|..] == rest;
  }

  lemma StoulOfReading(text: string, base: nat, negative: bool, n: nat, rest: string)
    requires Read(text, base) == Reading(negative, n, rest)
    ensures Stoul(text, base) ==
            if n >= 0x1_0000_0000_0000_0000 then Threw
            else Ok(if negative && n > 0 then 0x1_0000_0000_0000_0000 - n else n)
  {
  }

  /**
   * All that stoul accepts: blanks, a sign, a base prefix, digits, and a rest that is ignored. What is out of
   * range throws, and a minus sign wraps around.
   */
  lemma {:induction false} StoulReads(blanks: string, sign: string, prefix: string, s: string, rest: string,
                                      base: nat, b: nat, n: nat)
    requires (forall c | c in blanks :: IsBlank(c)) && sign in ["", "+", "-"]
    requires s != "" && AllDigits(s, b) && Value(s, b) == n && TellsBase(prefix, s, rest, base, b)
    requires rest != "" ==> DigitValue(rest[0]) >= b
    ensures Stoul(blanks + (sign + (prefix + (s + rest))), base) ==
            if n >= 0x1_0000_0000_0000_0000 then Threw
            else Ok(if sign == "-" && n > 0 then 0x1_0000_0000_0000_0000 - n else n)
  {
    var t := prefix + (s + rest);
    ReadUnsigned(prefix, s, rest, base, b, t);
    SignIsRead(sign, t);
    BlanksAreSkipped(blanks, sign + t);
    NumberIsRead(blanks + (sign + t), sign, prefix, s, rest, base, b);
    StoulOfReading(blanks + (sign + t), base, sign == "-", n, rest);
  }

  /** Without a digit behind blanks and sign stoul throws. */
  lemma StoulRejects(blanks: string, sign: string, rest: string, base: nat)
    requires (forall c | c in blanks :: IsBlank(c)) && sign in ["", "+", "-"] && (base == 0 || base == 16)
    requires rest != "" ==> DigitValue(rest[0]) >= (if base == 0 then 10 else 16)
    requires sign == "" && rest != "" ==> !IsBlank(rest[0]) && rest[0] != '+' && rest[0] != '-'
    ensures Stoul(blanks + (sign + rest), base).Threw?
  {
    BlanksAreSkipped(blanks, sign + rest);
    assert sign != "" ==> (sign + rest)[1..] == rest && (sign + rest)[0] == sign[0];
    assert sign == "" ==> sign + rest == rest;
  }
}
