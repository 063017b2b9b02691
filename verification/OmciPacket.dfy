/** OMCI requests: the hexadecimal text that arrives, the bytes that are sent, and the log line. */
module OmciPacket {
  import opened Common
  import opened CText
  import opened HexLog

  const MAX_OMCI_MSG_LENGTH := 44

  function MsgLength(text: string): nat {
    if |text| / 2 > MAX_OMCI_MSG_LENGTH then MAX_OMCI_MSG_LENGTH else |text| / 2
  }

  /** The bytes that are sent: byte `j` comes from characters `2 * j` and `2 * j + 1`. */
  function Decoded(text: string): seq<Byte> {
    seq(MsgLength(text), j requires 0 <= j < MsgLength(text) => PairByte(text[2 * j], text[2 * j + 1]))
  }

  /** The decoding loop, whose first index steps twice in each round. */
  method Decode(text: string) returns (arraySend: array<Byte>)
    ensures fresh(arraySend) && arraySend[..] == Decoded(text)
    ensures arraySend.Length <= 44 && 2 * arraySend.Length <= |text| && (arraySend.Length == 44 || |text| < 2 * arraySend.Length + 2)
  {
    var len := MsgLength(text);
    arraySend := new Byte[len](_ => 0);
    var idx1, idx2 := 0, 0;
    while idx1 < len * 2
      invariant idx1 == 2 * idx2 && idx2 <= len
      invariant forall j :: 0 <= j < idx2 ==> arraySend[j] == PairByte(text[2 * j], text[2 * j + 1])
    {
      var hi := text[idx1];
      idx1 := idx1 + 1;
      var lo := text[idx1];
      arraySend[idx2] := ToByte(StrTol16([hi, lo]));
      idx1, idx2 := idx1 + 1, idx2 + 1;
    }
  }

  predicate AllHex(s: string) {
    forall i :: 0 <= i < |s| ==> IsHexDigit(s[i])
  }

  lemma LowerCaseDigit(c: char)
    ensures IsHexDigit(ToLower(c)) <==> IsHexDigit(c)
    ensures IsHexDigit(c) ==> DigitValue(ToLower(c)) == DigitValue(c) == DigitValue(ToUpper(c)) && IsHexDigit(ToUpper(c))
  {
  }

  lemma LowerDigitsOnly(b: Byte, hi: char, lo: char)
    ensures LowerDigit(b / 16) == ToLower(hi) && LowerDigit(b % 16) == ToLower(lo) ==> IsHexDigit(hi) && IsHexDigit(lo)
    ensures IsHexDigit(hi) && IsHexDigit(lo) && b == 16 * DigitValue(hi).value + DigitValue(lo).value ==>
              LowerDigit(b / 16) == ToLower(hi) && LowerDigit(b % 16) == ToLower(lo)
  {
    DigitsConvert(b / 16, hi);
    DigitsConvert(b % 16, lo);
    LowerCaseDigit(hi);
    LowerCaseDigit(lo);
  }

  lemma LowerPairIff(hi: char, lo: char)
    ensures var b := PairByte(hi, lo);
            IsHexDigit(hi) && IsHexDigit(lo) <==> LowerDigit(b / 16) == ToLower(hi) && LowerDigit(b % 16) == ToLower(lo)
  {
    LowerDigitsOnly(PairByte(hi, lo), hi, lo);
    if IsHexDigit(hi) && IsHexDigit(lo) {
      PairOfDigits(hi, lo);
    }
  }

  /** The characters of the text that are decoded. */
  function Used(text: string): string {
    text[..2 * MsgLength(text)]
  }

  lemma SameIffPairs(s: string, t: string)
    requires |s| == |t| && |s| % 2 == 0
    ensures s == t <==> forall j :: 0 <= 2 * j < |s| ==> s[2 * j] == t[2 * j] && s[2 * j + 1] == t[2 * j + 1]
  {
    if forall j :: 0 <= 2 * j < |s| ==> s[2 * j] == t[2 * j] && s[2 * j + 1] == t[2 * j + 1] {
      forall k | 0 <= k < |s|
        ensures s[k] == t[k]
      {
        assert s[2 * (k / 2)] == t[2 * (k / 2)];
        assert k == 2 * (k / 2) || k == 2 * (k / 2) + 1;
      }
    }
  }

  lemma HexIffPairs(s: string)
    requires |s| % 2 == 0
    ensures AllHex(s) <==> forall j :: 0 <= 2 * j < |s| ==> IsHexDigit(s[2 * j]) && IsHexDigit(s[2 * j + 1])
  {
    if forall j :: 0 <= 2 * j < |s| ==> IsHexDigit(s[2 * j]) && IsHexDigit(s[2 * j + 1]) {
      forall k | 0 <= k < |s|
        ensures IsHexDigit(s[k])
      {
        assert IsHexDigit(s[2 * (k / 2)]);
        assert k == 2 * (k / 2) || k == 2 * (k / 2) + 1;
      }
    }
  }

  lemma PrintedIff(bytes: seq<Byte>, used: string)
    requires |used| == 2 * |bytes|
    requires forall j :: 0 <= j < |bytes| ==>
               (IsHexDigit(used[2 * j]) && IsHexDigit(used[2 * j + 1]) <==>
                LowerDigit(bytes[j] / 16) == ToLower(used[2 * j]) && LowerDigit(bytes[j] % 16) == ToLower(used[2 * j + 1]))
    ensures LowerHex(bytes) == LowerCase(used) <==> AllHex(used)
  {
    var printed, lower := LowerHex(bytes), LowerCase(used);
    SameIffPairs(printed, lower);
    HexIffPairs(used);
    forall j | 0 <= 2 * j < |used|
      ensures IsHexDigit(used[2 * j]) && IsHexDigit(used[2 * j + 1]) <==>
              printed[2 * j] == lower[2 * j] && printed[2 * j + 1] == lower[2 * j + 1]
    {
      assert 0 <= j < |bytes|;
    }
  }

  /** Printing the decoded bytes gives the decoded characters in lower case, if and only if they are all digits. */
  lemma PrintUndoesDecodeIff(text: string)
    ensures LowerHex(Decoded(text)) == LowerCase(Used(text)) <==> AllHex(Used(text))
  {
    var bytes, used := Decoded(text), Used(text);
    forall j | 0 <= j < |bytes|
      ensures IsHexDigit(used[2 * j]) && IsHexDigit(used[2 * j + 1]) <==>
              LowerDigit(bytes[j] / 16) == ToLower(used[2 * j]) && LowerDigit(bytes[j] % 16) == ToLower(used[2 * j + 1])
    {
      LowerPairIff(text[2 * j], text[2 * j + 1]);
    }
    PrintedIff(bytes, used);
  }

  lemma PairOfByte(b: Byte, hi: char, lo: char)
    requires hi == LowerDigit(b / 16) && lo == LowerDigit(b % 16)
    ensures PairByte(hi, lo) == b && PairByte(ToUpper(hi), ToUpper(lo)) == b
  {
    DigitsConvert(b / 16, hi);
    DigitsConvert(b % 16, lo);
    PairOfDigits(hi, lo);
    LowerCaseDigit(hi);
    LowerCaseDigit(lo);
    PairOfDigits(ToUpper(hi), ToUpper(lo));
  }

  /** A text that holds the digits of the bytes of `msg`, in either case, is decoded to `msg`. */
  lemma DecodedIs(text: string, msg: seq<Byte>)
    requires |text| == 2 * |msg|
    requires forall j :: 0 <= j < |msg| ==> PairByte(text[2 * j], text[2 * j + 1]) == msg[j]
    ensures Decoded(text) == msg[..if |msg| > MAX_OMCI_MSG_LENGTH then MAX_OMCI_MSG_LENGTH else |msg|]
  {
  }

  lemma DecodedUpper(text: string, msg: seq<Byte>)
    requires |text| == 2 * |msg|
    requires forall j :: 0 <= j < |msg| ==> text[2 * j] == LowerDigit(msg[j] / 16) && text[2 * j + 1] == LowerDigit(msg[j] % 16)
    ensures Decoded(UpperCase(text)) == msg[..if |msg| > MAX_OMCI_MSG_LENGTH then MAX_OMCI_MSG_LENGTH else |msg|]
  {
    var upper := UpperCase(text);
    forall j | 0 <= j < |msg|
      ensures PairByte(upper[2 * j], upper[2 * j + 1]) == msg[j]
    {
      PairOfByte(msg[j], text[2 * j], text[2 * j + 1]);
    }
    DecodedIs(upper, msg);
  }

  lemma DecodedLower(msg: seq<Byte>)
    ensures var n := if |msg| > MAX_OMCI_MSG_LENGTH then MAX_OMCI_MSG_LENGTH else |msg|;
            Decoded(LowerHex(msg)) == msg[..n] && Decoded(UpperCase(LowerHex(msg))) == msg[..n]
  {
    var text := LowerHex(msg);
    forall j | 0 <= j < |msg|
      ensures PairByte(text[2 * j], text[2 * j + 1]) == msg[j]
    {
      PairOfByte(msg[j], text[2 * j], text[2 * j + 1]);
    }
    hide Decoded, LowerHex, UpperCase, PairByte;
    DecodedIs(text, msg);
    DecodedUpper(text, msg);
  }

  /** Decoding undoes printing, in either case of the digits, up to the length of an OMCI message. */
  lemma DecodeUndoesPrint(msg: seq<Byte>)
    ensures |msg| <= 44 ==> Decoded(LowerHex(msg)) == msg && Decoded(UpperCase(LowerHex(msg))) == msg
    ensures |msg| > 44 ==> Decoded(LowerHex(msg)) == msg[..44] && Decoded(UpperCase(LowerHex(msg))) == msg[..44]
  {
    hide Decoded, LowerHex, UpperCase;
    DecodedLower(msg);
    assert msg[..|msg|] == msg;
  }

  /** The header of the log line. */
  function Header(len: nat): string {
    "After converting " + Decimal(len) + " bytes to hex "
  }

  lemma HeaderFits(len: nat)
    requires len <= MAX_OMCI_MSG_LENGTH
    ensures NoNul(Header(len)) && |Header(len)| <= 33
  {
    assert len < 10 || |Decimal(len / 10)| == 1;
  }

  /**
   The log line of a request is never truncated.  Its digits are the decoded characters in lower
   case, if and only if those characters are hexadecimal digits.
   */
  lemma RequestLogged(text: string)
    ensures var h := Header(MsgLength(text));
            && NoNul(h)
            && Logged(h, Decoded(text)) == h + LowerHex(Decoded(text))
            && (Logged(h, Decoded(text)) == h + LowerCase(Used(text)) <==> AllHex(Used(text)))
  {
    var h := Header(MsgLength(text));
    HeaderFits(MsgLength(text));
    PrintUndoesDecodeIff(text);
    assert (h + LowerHex(Decoded(text)))[|h|..] == LowerHex(Decoded(text));
    assert (h + LowerCase(Used(text)))[|h|..] == LowerCase(Used(text));
  }

  /** The OMCI branch of the packet handler: decode, log, and hand over to BAL. */
  method SendOmci(text: string) returns (sent: seq<Byte>, logLine: string)
    ensures sent == Decoded(text)
    ensures |sent| <= 44 && 2 * |sent| <= |text| && (|sent| == 44 || |text| < 2 * |sent| + 2)
    ensures logLine == "After converting " + Decimal(|sent|) + " bytes to hex " + LowerHex(sent)
  {
    var arraySend := Decode(text);
    HeaderFits(arraySend.Length);
    RequestLogged(text);
    var tempBuf := HexLog2(Header(arraySend.Length), arraySend[..]);
    sent, logLine := arraySend[..], CutAtNul(tempBuf[..]);
  }
}
