/**
 ONU serial numbers: the texts in which a discovery message carries them, and how activation reads
 the texts back.
 */
module SerialNumbers {
  import opened Common
  import opened CText

  type FourBytes = s: seq<Byte> | |s| == 4 witness [0, 0, 0, 0]

  datatype Serial = Serial(vendorId: FourBytes, vendorSpecific: FourBytes)

  const ZERO_SERIAL := Serial([0, 0, 0, 0], [0, 0, 0, 0])

  function ByteChar(b: Byte): char {
    b as char
  }

  /** The vendor text: `%c` for each byte.  As a C string it ends at the first zero byte. */
  function VendorText(s: Serial): string {
    CutAtNul([ByteChar(s.vendorId[0]), ByteChar(s.vendorId[1]), ByteChar(s.vendorId[2]), ByteChar(s.vendorId[3])])
  }

  /** The vendor-specific text: `%1X` for each half byte. */
  function SpecificText(s: Serial): string {
    var b := s.vendorSpecific;
    [UpperDigit(b[0] / 16), UpperDigit(b[0] % 16), UpperDigit(b[1] / 16), UpperDigit(b[1] % 16),
     UpperDigit(b[2] / 16), UpperDigit(b[2] % 16), UpperDigit(b[3] / 16), UpperDigit(b[3] % 16)]
  }

  /** Character `i` of a C string, whose last readable character is the terminating null. */
  function CharAt(text: string, i: nat): char
    requires i <= |text|
  {
    if i < |text| then text[i] else '\0'
  }

  /** The first four characters of the vendor text, each printed with `%2X`. */
  function VendorHex(vendorText: string): string
    requires |vendorText| >= 3
  {
    FormatX2(SignedChar(CharAt(vendorText, 0))) + FormatX2(SignedChar(CharAt(vendorText, 1)))
    + FormatX2(SignedChar(CharAt(vendorText, 2))) + FormatX2(SignedChar(CharAt(vendorText, 3)))
  }

  /** The size of the buffer that `VendorHex` is printed into. */
  const VENDOR_BUFFER := 20

  /**
   When activation's memory accesses stay within the two texts and the print buffer.  It reads four
   characters of the vendor text and eight of the other one; terminating nulls may be among them.
   */
  predicate Readable(vendorText: string, specificText: string) {
    |vendorText| >= 3 && |VendorHex(vendorText)| < VENDOR_BUFFER && |specificText| >= 7
  }

  lemma FormatX2Length(c: char)
    ensures |FormatX2(SignedChar(c))| == if c as int % 256 < 128 then 2 else 8
  {
    var b := c as int % 256;
    if b < 128 {
      FormatX2Small(b);
    } else {
      FormatX2Negative(b);
    }
  }

  /** Activation's accesses are in bounds if and only if the texts are long enough and at most one vendor character is negative. */
  lemma ReadableIff(vendorText: string, specificText: string)
    ensures Readable(vendorText, specificText) <==>
            && |vendorText| >= 3 && |specificText| >= 7
            && forall i, j :: 0 <= i < j < 4 ==> CharAt(vendorText, i) as int % 256 < 128 || CharAt(vendorText, j) as int % 256 < 128
  {
    if |vendorText| >= 3 {
      FormatX2Length(CharAt(vendorText, 0));
      FormatX2Length(CharAt(vendorText, 1));
      FormatX2Length(CharAt(vendorText, 2));
      FormatX2Length(CharAt(vendorText, 3));
    }
  }

  lemma VendorHexLength(vendorText: string)
    requires |vendorText| >= 3
    ensures |VendorHex(vendorText)| >= 8
  {
    FormatX2Length(CharAt(vendorText, 0));
    FormatX2Length(CharAt(vendorText, 1));
    FormatX2Length(CharAt(vendorText, 2));
    FormatX2Length(CharAt(vendorText, 3));
  }

  /** The four bytes that the first eight characters of `text` are converted to, pair by pair. */
  function ParsePairs(text: string): FourBytes
    requires |text| >= 8
  {
    [PairByte(text[0], text[1]), PairByte(text[2], text[3]), PairByte(text[4], text[5]), PairByte(text[6], text[7])]
  }

  /** The serial number that activation reads from the two texts. */
  function ParseSerial(vendorText: string, specificText: string): Serial
    requires Readable(vendorText, specificText)
  {
    VendorHexLength(vendorText);
    Serial(ParsePairs(VendorHex(vendorText)), ParsePairs(specificText + ['\0']))
  }

  lemma SpecificRoundTrip(s: Serial)
    ensures |SpecificText(s)| == 8 && ParsePairs(SpecificText(s) + ['\0']) == s.vendorSpecific
  {
    var t, b := SpecificText(s), s.vendorSpecific;
    forall i | 0 <= i < 4
      ensures PairByte(UpperDigit(b[i] / 16), UpperDigit(b[i] % 16)) == b[i]
    {
      DigitsConvert(b[i] / 16, '0');
      DigitsConvert(b[i] % 16, '0');
      PairOfDigits(UpperDigit(b[i] / 16), UpperDigit(b[i] % 16));
    }
  }

  lemma CutFour(a: char, b: char, c: char, d: char)
    ensures CutAtNul([a, b, c, d]) ==
            if a == '\0' then [] else if b == '\0' then [a] else if c == '\0' then [a, b]
            else if d == '\0' then [a, b, c] else [a, b, c, d]
  {
    assert [a, b, c, d][1..] == [b, c, d];
    assert [b, c, d][1..] == [c, d];
    assert [c, d][1..] == [d];
    assert CutAtNul([c, d]) == if c == '\0' then [] else [c] + CutAtNul([d]);
    assert CutAtNul([d]) == if d == '\0' then [] else [d];
  }

  /** Vendor bytes that survive printing and parsing. */
  predicate Faithful(v: FourBytes) {
    (forall i :: 0 <= i < 3 ==> 1 <= v[i] < 128) && (v[3] < 128 || v[3] == 255)
  }

  /** The vendor text is read back in full unless one of the first three bytes is zero. */
  lemma VendorTextChars(s: Serial)
    ensures |VendorText(s)| >= 3 <==> s.vendorId[0] != 0 && s.vendorId[1] != 0 && s.vendorId[2] != 0
    ensures |VendorText(s)| >= 3 ==> forall i :: 0 <= i < 4 ==> CharAt(VendorText(s), i) == ByteChar(s.vendorId[i])
  {
    var v := s.vendorId;
    CutFour(ByteChar(v[0]), ByteChar(v[1]), ByteChar(v[2]), ByteChar(v[3]));
  }

  lemma SignedOfByte(b: Byte)
    ensures SignedChar(ByteChar(b)) == if b < 128 then b else b - 256
  {
  }

  /** `%2X` of a byte taken as a signed char. */
  lemma PrintedByte(b: Byte)
    ensures var t := FormatX2(SignedChar(ByteChar(b)));
            if b < 128 then |t| == 2 && PairByte(t[0], t[1]) == b
            else |t| == 8 && (forall i :: 0 <= i < 6 ==> t[i] == 'F') && PairByte(t[6], t[7]) == b
  {
    SignedOfByte(b);
    if b < 128 {
      FormatX2Small(b);
    } else {
      FormatX2Negative(b);
    }
  }

  lemma PairFF()
    ensures PairByte('F', 'F') == 255
  {
    PairOfDigits('F', 'F');
  }

  /**
   Round trip, exactly: activation reads within its buffers and recovers the printed serial number
   if and only if the first three vendor bytes are in 1..127 and the last one is below 128 or is 255.
   Bytes below 16, which `%2X` pads with a space, are among them.
   */
  lemma RoundTripIff(s: Serial)
    ensures Faithful(s.vendorId) <==>
            Readable(VendorText(s), SpecificText(s)) && ParseSerial(VendorText(s), SpecificText(s)) == s
  {
    hide VendorText, VendorHex, SpecificText, ParsePairs;
    SpecificRoundTrip(s);
    VendorTextChars(s);
    if |VendorText(s)| >= 3 {
      VendorRoundTrip(s.vendorId, VendorText(s));
    }
  }

  const UNFAITHFUL := Serial([65, 66, 67, 200], [0, 0, 0, 1])

  /** A serial number that comes back wrong: its vendor bytes are printed as 414243FFFFFFC8 and read as 41, 42, 43, FF. */
  lemma LastByteLost()
    ensures var s := UNFAITHFUL;
            && Readable(VendorText(s), SpecificText(s))
            && ParseSerial(VendorText(s), SpecificText(s)) == Serial([65, 66, 67, 255], [0, 0, 0, 1])
  {
    var s := UNFAITHFUL;
    SpecificRoundTrip(s);
    VendorTextChars(s);
    PrintedByte(65);
    PrintedByte(66);
    PrintedByte(67);
    PrintedByte(200);
    PairFF();
  }

  lemma VendorRoundTrip(v: FourBytes, text: string)
    requires |text| >= 3 && forall i :: 0 <= i < 4 ==> CharAt(text, i) == ByteChar(v[i])
    ensures |VendorHex(text)| >= 8
    ensures v[0] < 128 && v[1] < 128 && v[2] < 128 && (v[3] < 128 || v[3] == 255) <==>
            |VendorHex(text)| < VENDOR_BUFFER && ParsePairs(VendorHex(text)) == v
  {
    hide FormatX2, SignedChar, PairByte, ByteChar, CharAt;
    PrintedByte(v[0]);
    PrintedByte(v[1]);
    PrintedByte(v[2]);
    PrintedByte(v[3]);
    PairFF();
  }
}
