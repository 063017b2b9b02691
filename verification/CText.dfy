/** The pieces of the C library's text conversions that the driver relies on. */
module CText {
  import opened Common

  /** The text up to the first null character, which is what the C string functions see of it. */
  function CutAtNul(s: string): string {
    if s == [] || s[0] == '\0' then [] else [s[0]] + CutAtNul(s[1..])
  }

  function UpperDigit(d: nat): char
    requires d < 16
  {
    if d < 10 then ('0' as int + d) as char else ('A' as int + d - 10) as char
  }

  function LowerDigit(d: nat): char
    requires d < 16
  {
    if d < 10 then ('0' as int + d) as char else ('a' as int + d - 10) as char
  }

  function DigitValue(c: char): Option<nat> {
    if '0' <= c <= '9' then Some(c as int - '0' as int)
    else if 'A' <= c <= 'F' then Some(c as int - 'A' as int + 10)
    else if 'a' <= c <= 'f' then Some(c as int - 'a' as int + 10)
    else None
  }

  predicate IsHexDigit(c: char) {
    DigitValue(c).Some?
  }

  function ToUpper(c: char): char {
    if 'a' <= c <= 'z' then (c as int - 32) as char else c
  }

  function ToLower(c: char): char {
    if 'A' <= c <= 'Z' then (c as int + 32) as char else c
  }

  function UpperCase(s: string): string {
    seq(|s|, i requires 0 <= i < |s| => ToUpper(s[i]))
  }

  function LowerCase(s: string): string {
    seq(|s|, i requires 0 <= i < |s| => ToLower(s[i]))
  }

  lemma DigitsConvert(d: nat, c: char)
    requires d < 16
    ensures DigitValue(UpperDigit(d)) == Some(d) && DigitValue(LowerDigit(d)) == Some(d)
    ensures IsHexDigit(c) ==>
              DigitValue(c).value < 16 &&
              UpperDigit(DigitValue(c).value) == ToUpper(c) && LowerDigit(DigitValue(c).value) == ToLower(c)
  {
  }

  lemma DigitsAre(d: nat)
    requires d < 16
    ensures UpperDigit(d) == "0123456789ABCDEF"[d] && LowerDigit(d) == "0123456789abcdef"[d]
  {
  }

  /** The hexadecimal digits of an unsigned number, as `%X` prints them. */
  function HexText(v: nat): string {
    if v < 16 then [UpperDigit(v)] else HexText(v / 16) + [UpperDigit(v % 16)]
  }

  /** What `%2X` prints for an int: the 32-bit pattern, padded with a space to two characters. */
  function FormatX2(v: int): string {
    var digits := HexText(v % 0x1_0000_0000);
    if |digits| < 2 then " " + digits else digits
  }

  /** A character of type char, which is signed on the target, as the int it is promoted to. */
  function SignedChar(c: char): int {
    var b := c as int % 256;
    if b < 128 then b else b - 256
  }

  predicate IsSpace(c: char) {
    c == ' ' || 9 <= c as int <= 13
  }

  function SkipSpaces(s: string): string {
    if s != [] && IsSpace(s[0]) then SkipSpaces(s[1..]) else s
  }

  /** The value of the longest run of hexadecimal digits at the start of `s`. */
  function DigitRun(s: string, acc: nat): nat {
    if s == [] || !IsHexDigit(s[0]) then acc else DigitRun(s[1..], 16 * acc + DigitValue(s[0]).value)
  }

  function Unsigned(s: string): nat {
    if |s| >= 3 && s[0] == '0' && s[1] in "xX" && IsHexDigit(s[2]) then DigitRun(s[2..], 0) else DigitRun(s, 0)
  }

  /**
   `strtol(s, NULL, 16)`: leading white space, an optional sign and an optional `0x` are skipped,
   conversion stops at the first other character.  The driver passes at most two characters, so the
   result never leaves the range of a long.
   */
  function StrTol16(s: string): int {
    var t := SkipSpaces(s);
    if t != [] && t[0] == '-' then 0 - Unsigned(t[1..])
    else if t != [] && t[0] == '+' then Unsigned(t[1..])
    else Unsigned(t)
  }

  /** Conversion of an integer to an unsigned 8-bit one. */
  function ToByte(v: int): Byte {
    v % 256
  }

  /** The byte that a two-character buffer is converted to. */
  function PairByte(hi: char, lo: char): Byte {
    ToByte(StrTol16([hi, lo]))
  }

  lemma PairOfDigits(hi: char, lo: char)
    requires IsHexDigit(hi) && IsHexDigit(lo)
    ensures PairByte(hi, lo) == 16 * DigitValue(hi).value + DigitValue(lo).value
  {
    var s := [hi, lo];
    assert s[1..] == [lo] && s[1..][1..] == [];
    assert DigitRun(s, 0) == DigitRun(s[1..], DigitValue(hi).value);
    assert DigitRun([lo], DigitValue(hi).value) == DigitRun([lo][1..], 16 * DigitValue(hi).value + DigitValue(lo).value);
  }

  /** A digit that `%2X` has padded with a space reads back as its value. */
  lemma PaddedDigit(lo: char)
    requires IsHexDigit(lo)
    ensures PairByte(' ', lo) == DigitValue(lo).value
  {
    var s := [' ', lo];
    assert s[1..] == [lo];
    assert [lo][1..] == [];
    assert SkipSpaces(s) == SkipSpaces([lo]) == [lo];
    assert DigitRun([lo], 0) == DigitRun([], DigitValue(lo).value);
  }

  lemma DigitRunPair(s: string)
    requires |s| <= 2
    ensures DigitRun(s, 0) ==
            if s == [] || !IsHexDigit(s[0]) then 0
            else if |s| == 1 || !IsHexDigit(s[1]) then DigitValue(s[0]).value
            else 16 * DigitValue(s[0]).value + DigitValue(s[1]).value
  {
    if s != [] && IsHexDigit(s[0]) {
      var d := DigitValue(s[0]).value;
      assert DigitRun(s, 0) == DigitRun(s[1..], d);
      if |s| == 2 && IsHexDigit(s[1]) {
        assert s[1..][0] == s[1] && s[1..][1..] == [];
        assert DigitRun(s[1..], d) == DigitRun([], 16 * d + DigitValue(s[1]).value);
      }
    }
  }

  /** What is converted once white space is skipped: at most two characters. */
  lemma SignedRun(t: string)
    requires |t| <= 2
    ensures var u := if t != [] && (t[0] == '-' || t[0] == '+') then DigitRun(t[1..], 0) else DigitRun(t, 0);
            (if t != [] && t[0] == '-' then 0 - Unsigned(t[1..]) else if t != [] && t[0] == '+' then Unsigned(t[1..]) else Unsigned(t))
            == if t != [] && t[0] == '-' then 0 - u else u
  {
    hide DigitRun;
  }

  lemma StrTolPair(hi: char, lo: char)
    ensures StrTol16([hi, lo]) ==
            if IsHexDigit(hi) then
              if IsHexDigit(lo) then 16 * DigitValue(hi).value + DigitValue(lo).value else DigitValue(hi).value
            else if !IsHexDigit(lo) then 0
            else if hi == '-' then 0 - DigitValue(lo).value
            else if hi == '+' || IsSpace(hi) then DigitValue(lo).value
            else 0
  {
    var s := [hi, lo];
    assert s[1..] == [lo] && [lo][1..] == [];
    DigitRunPair(s);
    DigitRunPair([lo]);
    DigitRunPair([]);
    SkipSpacesPair(hi, lo);
    SignedRun(SkipSpaces(s));
    hide DigitRun, SkipSpaces, Unsigned;
  }

  /** The byte for any two characters: a number, one digit before another character, or one digit after a blank or a sign. */
  lemma PairByteIs(hi: char, lo: char)
    ensures PairByte(hi, lo) ==
            if IsHexDigit(hi) then
              if IsHexDigit(lo) then 16 * DigitValue(hi).value + DigitValue(lo).value else DigitValue(hi).value
            else if !IsHexDigit(lo) then 0
            else if hi == '-' then (256 - DigitValue(lo).value) % 256
            else if hi == '+' || hi == ' ' || 9 <= hi as int <= 13 then DigitValue(lo).value
            else 0
  {
    StrTolPair(hi, lo);
    hide StrTol16;
  }

  lemma SkipSpacesPair(hi: char, lo: char)
    ensures SkipSpaces([hi, lo]) == if !IsSpace(hi) then [hi, lo] else if IsSpace(lo) then [] else [lo]
  {
    assert [hi, lo][1..] == [lo] && [lo][1..] == [];
    assert SkipSpaces([lo]) == if IsSpace(lo) then [] else [lo];
  }

  lemma HexTextByte(b: Byte)
    ensures HexText(b) == if b < 16 then [UpperDigit(b)] else [UpperDigit(b / 16), UpperDigit(b % 16)]
  {
    if b >= 16 {
      assert HexText(b / 16) == [UpperDigit(b / 16)];
    }
  }

  lemma FormatX2Is(b: Byte)
    ensures FormatX2(b) == if b < 16 then [' ', UpperDigit(b)] else [UpperDigit(b / 16), UpperDigit(b % 16)]
  {
    HexTextByte(b);
    hide HexText, UpperDigit;
  }

  /** `%2X` of a number below 256 has two characters, which read back as the number. */
  lemma FormatX2Small(b: Byte)
    ensures var t := FormatX2(b); |t| == 2 && PairByte(t[0], t[1]) == b
  {
    FormatX2Is(b);
    hide FormatX2, PairByte;
    if b < 16 {
      DigitsConvert(b, '0');
      PaddedDigit(UpperDigit(b));
    } else {
      var hi, lo := b / 16, b % 16;
      DigitsConvert(hi, '0');
      DigitsConvert(lo, '0');
      PairOfDigits(UpperDigit(hi), UpperDigit(lo));
    }
  }

  /** `%2X` of a negative char has eight characters, the first six of them `F`. */
  lemma FormatX2Negative(b: Byte)
    requires 128 <= b
    ensures var t := FormatX2(b - 256);
            |t| == 8 && (forall i :: 0 <= i < 6 ==> t[i] == 'F') && PairByte(t[6], t[7]) == b
  {
    var hi, lo := b / 16, b % 16;
    HexTextFs(6);
    assert (b - 256) % 0x1_0000_0000 == 16 * (16 * Fs(6) + hi) + lo;
    HexTextSnoc(Fs(6), hi);
    HexTextSnoc(16 * Fs(6) + hi, lo);
    DigitsConvert(hi, '0');
    DigitsConvert(lo, '0');
    PairOfDigits(UpperDigit(hi), UpperDigit(lo));
  }

  /** The number whose hexadecimal digits are `n` times `F`. */
  function Fs(n: nat): nat {
    if n == 0 then 0 else 16 * Fs(n - 1) + 15
  }

  lemma HexTextSnoc(v: nat, d: nat)
    requires v > 0 && d < 16
    ensures HexText(16 * v + d) == HexText(v) + [UpperDigit(d)]
  {
  }

  lemma {:induction false} HexTextFs(n: nat)
    requires n > 0
    ensures |HexText(Fs(n))| == n && forall i :: 0 <= i < n ==> HexText(Fs(n))[i] == 'F'
  {
    if n > 1 {
      HexTextFs(n - 1);
      HexTextSnoc(Fs(n - 1), 15);
    }
  }

  predicate IsDecimalDigit(c: char) {
    '0' <= c <= '9'
  }

  /** The decimal digits of a number, as `%d` prints them. */
  function Decimal(n: nat): (s: string)
    ensures |s| > 0 && forall i :: 0 <= i < |s| ==> IsDecimalDigit(s[i])
  {
    var digit := ('0' as int + n % 10) as char;
    if n < 10 then [digit] else Decimal(n / 10) + [digit]
  }

  lemma DecimalTwo(n: nat)
    requires n < 100
    ensures Decimal(n) == if n < 10 then ["0123456789"[n]] else ["0123456789"[n / 10], "0123456789"[n % 10]]
  {
    assert n >= 10 ==> Decimal(n / 10) == ["0123456789"[n / 10]];
  }

  /** The value of the longest run of decimal digits at the start of `s`. */
  function DecimalRun(s: string, acc: nat): nat {
    if s == [] || !IsDecimalDigit(s[0]) then acc else DecimalRun(s[1..], 10 * acc + (s[0] as int - '0' as int))
  }

  /**
   `atoi(s)`: leading white space and an optional sign, then digits up to the first other character;
   0 if there is none.  The result is not defined in C when it does not fit into an int.
   */
  function Atoi(s: string): int {
    var t := SkipSpaces(s);
    if t != [] && t[0] == '-' then 0 - DecimalRun(t[1..], 0)
    else if t != [] && t[0] == '+' then DecimalRun(t[1..], 0)
    else DecimalRun(t, 0)
  }

  /** Each further digit at the end of a run counts for ten times as much. */
  lemma {:induction false} DecimalRunSnoc(s: string, c: char, acc: nat)
    requires (forall i :: 0 <= i < |s| ==> IsDecimalDigit(s[i])) && IsDecimalDigit(c)
    ensures DecimalRun(s + [c], acc) == 10 * DecimalRun(s, acc) + (c as int - '0' as int)
  {
    if s == [] {
      assert s + [c] == [c];
      assert DecimalRun([c], acc) == DecimalRun([c][1..], 10 * acc + (c as int - '0' as int));
    } else {
      assert (s + [c])[1..] == s[1..] + [c];
      DecimalRunSnoc(s[1..], c, 10 * acc + (s[0] as int - '0' as int));
    }
  }

  lemma {:induction false} DecimalRunOf(n: nat)
    ensures DecimalRun(Decimal(n), 0) == n
  {
    var digit := ('0' as int + n % 10) as char;
    if n < 10 {
      assert DecimalRun([digit], 0) == DecimalRun([digit][1..], n);
    } else {
      DecimalRunOf(n / 10);
      DecimalRunSnoc(Decimal(n / 10), digit, 0);
    }
  }

  lemma AtoiDecimal(n: nat)
    ensures Atoi(Decimal(n)) == n
  {
    DecimalRunOf(n);
    hide Decimal, DecimalRun, Atoi;
    AtoiOfDigits(Decimal(n));
  }

  lemma {:induction false} DecimalRunStops(s: string, rest: string, acc: nat)
    requires forall i :: 0 <= i < |s| ==> IsDecimalDigit(s[i])
    requires rest != [] ==> !IsDecimalDigit(rest[0])
    ensures DecimalRun(s + rest, acc) == DecimalRun(s, acc)
  {
    if s == [] {
      assert s + rest == rest;
    } else {
      assert (s + rest)[1..] == s[1..] + rest;
      DecimalRunStops(s[1..], rest, 10 * acc + (s[0] as int - '0' as int));
    }
  }

  lemma AtoiOfDigits(s: string)
    requires s != [] && IsDecimalDigit(s[0])
    ensures Atoi(s) == DecimalRun(s, 0) && Atoi("+" + s) == DecimalRun(s, 0) && Atoi("-" + s) == 0 - DecimalRun(s, 0)
  {
    hide DecimalRun;
    assert ("+" + s)[1..] == s && ("-" + s)[1..] == s;
  }

  lemma RunOfNumber(n: nat, rest: string)
    requires rest != [] ==> !IsDecimalDigit(rest[0])
    ensures var s := Decimal(n) + rest; s != [] && IsDecimalDigit(s[0]) && DecimalRun(s, 0) == n
  {
    DecimalRunOf(n);
    DecimalRunStops(Decimal(n), rest, 0);
    hide DecimalRun;
    assert (Decimal(n) + rest)[0] == Decimal(n)[0];
  }

  /** `atoi` of a decimal number with or without a sign, whatever follows it. */
  lemma AtoiSigned(n: nat, rest: string)
    requires rest != [] ==> !IsDecimalDigit(rest[0])
    ensures Atoi(Decimal(n) + rest) == n && Atoi("+" + (Decimal(n) + rest)) == n && Atoi("-" + (Decimal(n) + rest)) == 0 - n
  {
    hide Decimal, DecimalRun, Atoi;
    RunOfNumber(n, rest);
    AtoiOfDigits(Decimal(n) + rest);
  }

  /** White space before a number does not count. */
  lemma AtoiSkips(c: char, s: string)
    requires IsSpace(c)
    ensures Atoi([c] + s) == Atoi(s)
  {
    assert ([c] + s)[1..] == s;
  }
}
