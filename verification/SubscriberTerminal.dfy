/** Configuring a subscriber terminal (ONU) and reading the configuration back. */
module SubscriberTerminal {
  import opened Common
  import opened CText
  import opened SerialNumbers

  datatype Key = Key(subTermId: nat, intfId: nat)

  datatype Cfg = Cfg(serial: Serial, adminState: nat)

  /** BAL as a store of terminal configurations. */
  class Bal {
    var store: map<Key, Cfg>

    constructor ()
      ensures store == map[]
    {
      store := map[];
    }
  }

  lemma PairAt(text: string, k: nat)
    requires |text| >= 8 && k < 4
    ensures ParsePairs(text)[k] == PairByte(text[2 * k], text[2 * k + 1])
  {
  }

  /** The four bytes in the first eight characters of `text`, converted pair by pair. */
  method ConvertPairs(text: string) returns (bytes: array<Byte>)
    requires |text| >= 8
    ensures fresh(bytes) && bytes[..] == ParsePairs(text)
  {
    hide StrTol16, ToByte, ParsePairs;
    bytes := new Byte[4](_ => 0);
    var idx := 0;
    while idx < 2 * bytes.Length
      invariant 0 <= idx <= 8 && idx % 2 == 0 && bytes.Length == 4
      invariant forall k :: 0 <= k < idx / 2 ==> bytes[k] == ParsePairs(text)[k]
    {
      var twoDigits := text[idx..idx + 2];
      assert twoDigits == [text[idx], text[idx + 1]];
      PairAt(text, idx / 2);
      bytes[idx / 2] := ToByte(StrTol16(twoDigits));
      idx := idx + 2;
    }
  }

  predicate AllZero(s: Serial) {
    forall i :: 0 <= i < 4 ==> s.vendorId[i] == 0 && s.vendorSpecific[i] == 0
  }

  lemma ZeroIff(s: Serial)
    ensures s == ZERO_SERIAL <==> AllZero(s)
  {
    if AllZero(s) {
      assert s.vendorId == [0, 0, 0, 0] && s.vendorSpecific == [0, 0, 0, 0];
    }
  }

  /** A terminal whose vendor text does not begin with a null character is never skipped. */
  lemma NotSkipped(vendorText: string, specificText: string)
    requires Readable(vendorText, specificText) && vendorText[0] as int % 256 != 0
    ensures ParseSerial(vendorText, specificText).vendorId[0] != 0
  {
    var b: Byte := vendorText[0] as int % 256;
    assert SignedChar(vendorText[0]) == SignedChar(ByteChar(b));
    PrintedByte(b);
    FirstVendorByte(vendorText, specificText);
    PairFF();
  }

  lemma FirstVendorByte(vendorText: string, specificText: string)
    requires Readable(vendorText, specificText)
    ensures var t := FormatX2(SignedChar(vendorText[0]));
            |t| >= 2 && ParseSerial(vendorText, specificText).vendorId[0] == PairByte(t[0], t[1])
  {
    FormatX2Length(vendorText[0]);
    hide FormatX2, SignedChar, PairByte;
  }

  /**
   The set handler: prints the vendor text in hexadecimal, converts both texts, and passes the
   terminal on to BAL unless its serial number is all zero.
   */
  method CfgSet(bal: Bal, key: Key, vendorText: string, specificText: string, adminState: nat) returns (sent: bool)
    requires Readable(vendorText, specificText)
    modifies bal
    ensures sent <==> !AllZero(ParseSerial(vendorText, specificText))
    ensures bal.store == if sent then old(bal.store)[key := Cfg(ParseSerial(vendorText, specificText), adminState)] else old(bal.store)
  {
    hide AllZero, VendorHex, ParsePairs;
    VendorHexLength(vendorText);
    var vendorId := ConvertPairs(VendorHex(vendorText));
    var vendorSpecific := ConvertPairs(specificText + ['\0']);
    var serial := Serial(vendorId[..], vendorSpecific[..]);
    var skipOnu := serial == ZERO_SERIAL;
    if !skipOnu {
      bal.store := bal.store[key := Cfg(serial, adminState)];
    }
    sent := !skipOnu;
    ZeroIff(serial);
  }

  /** What the get handler reports: the vendor text, the vendor-specific text and the admin state. */
  datatype Report = Report(vendorText: string, specificText: string, adminState: nat)

  function ReportOf(cfg: Cfg): Report {
    Report(VendorText(cfg.serial), SpecificText(cfg.serial), cfg.adminState)
  }

  method CfgGet(bal: Bal, key: Key) returns (report: Option<Report>)
    ensures report == if key in bal.store then Some(ReportOf(bal.store[key])) else None
  {
    if key !in bal.store {
      return None;
    }
    var cfg := bal.store[key];
    report := Some(Report(VendorText(cfg.serial), SpecificText(cfg.serial), cfg.adminState));
  }

  /** The first four characters are not null, and below 128. */
  predicate PlainVendor(vendorText: string) {
    |vendorText| >= 4 && forall i :: 0 <= i < 4 ==> 1 <= vendorText[i] as int < 128
  }

  lemma PlainIsReadable(vendorText: string, specificText: string)
    requires PlainVendor(vendorText) && |specificText| >= 7
    ensures Readable(vendorText, specificText)
  {
    FormatX2Length(vendorText[0]);
    FormatX2Length(vendorText[1]);
    FormatX2Length(vendorText[2]);
    FormatX2Length(vendorText[3]);
  }

  /** Setting four plain vendor characters stores exactly their codes. */
  lemma PlainVendorStored(vendorText: string, specificText: string)
    requires PlainVendor(vendorText) && |specificText| >= 7
    ensures Readable(vendorText, specificText)
    ensures var v := ParseSerial(vendorText, specificText).vendorId;
            Faithful(v) && v[3] != 0 && forall i :: 0 <= i < 4 ==> ByteChar(v[i]) == vendorText[i]
  {
    PlainIsReadable(vendorText, specificText);
    var v: FourBytes := [vendorText[0] as int, vendorText[1] as int, vendorText[2] as int, vendorText[3] as int];
    VendorRoundTrip(v, vendorText);
  }

  /** What a set stores, byte by byte. */
  lemma StoredBytes(vendorText: string, specificText: string)
    requires PlainVendor(vendorText) && |specificText| >= 8
    ensures Readable(vendorText, specificText)
    ensures var s := ParseSerial(vendorText, specificText);
            && (forall i :: 0 <= i < 4 ==> s.vendorId[i] == vendorText[i] as int)
            && (forall i :: 0 <= i < 4 && IsHexDigit(specificText[2 * i]) && IsHexDigit(specificText[2 * i + 1]) ==>
                  s.vendorSpecific[i] == 16 * DigitValue(specificText[2 * i]).value + DigitValue(specificText[2 * i + 1]).value)
  {
    PlainVendorStored(vendorText, specificText);
    var s := ParseSerial(vendorText, specificText);
    forall i | 0 <= i < 4
      ensures s.vendorId[i] == vendorText[i] as int
    {
      assert ByteChar(s.vendorId[i]) == vendorText[i];
    }
    forall i | 0 <= i < 4 && IsHexDigit(specificText[2 * i]) && IsHexDigit(specificText[2 * i + 1])
      ensures s.vendorSpecific[i] == 16 * DigitValue(specificText[2 * i]).value + DigitValue(specificText[2 * i + 1]).value
    {
      StoredPair(specificText, i);
    }
  }

  lemma StoredPair(specificText: string, i: nat)
    requires |specificText| >= 8 && i < 4 && IsHexDigit(specificText[2 * i]) && IsHexDigit(specificText[2 * i + 1])
    ensures ParsePairs(specificText + ['\0'])[i] == 16 * DigitValue(specificText[2 * i]).value + DigitValue(specificText[2 * i + 1]).value
  {
    PairAt(specificText + ['\0'], i);
    hide ParsePairs, PairByte, IsHexDigit, DigitValue;
    PairOfDigits(specificText[2 * i], specificText[2 * i + 1]);
  }

  lemma UpperCaseDigit(c: char)
    ensures IsHexDigit(ToUpper(c)) ==> IsHexDigit(c)
  {
  }

  /** The hexadecimal digits of a pair come back in upper case if and only if both characters are digits. */
  lemma PairTextIff(hi: char, lo: char)
    ensures var b := PairByte(hi, lo);
            IsHexDigit(hi) && IsHexDigit(lo) <==> UpperDigit(b / 16) == ToUpper(hi) && UpperDigit(b % 16) == ToUpper(lo)
  {
    var b := PairByte(hi, lo);
    if IsHexDigit(hi) && IsHexDigit(lo) {
      DigitsConvert(0, hi);
      DigitsConvert(0, lo);
      PairOfDigits(hi, lo);
    } else {
      DigitsConvert(b / 16, hi);
      DigitsConvert(b % 16, lo);
      UpperCaseDigit(hi);
      UpperCaseDigit(lo);
    }
  }

  /**
   Set, then get.  Four plain vendor characters are returned as they were set; the terminal is not
   skipped.  The eight vendor-specific characters are returned in upper case if and only if all of
   them are hexadecimal digits.
   */
  lemma SetThenGet(vendorText: string, specificText: string, adminState: nat)
    requires PlainVendor(vendorText) && |specificText| >= 8
    ensures Readable(vendorText, specificText)
    ensures ParseSerial(vendorText, specificText) != ZERO_SERIAL
    ensures var report := ReportOf(Cfg(ParseSerial(vendorText, specificText), adminState));
            && report.vendorText == vendorText[..4]
            && (report.specificText == UpperCase(specificText[..8]) <==> forall i :: 0 <= i < 8 ==> IsHexDigit(specificText[i]))
  {
    PlainVendorStored(vendorText, specificText);
    var s := ParseSerial(vendorText, specificText);
    CutFour(vendorText[0], vendorText[1], vendorText[2], vendorText[3]);
    assert vendorText[..4] == [vendorText[0], vendorText[1], vendorText[2], vendorText[3]];
    SpecificBack(s, specificText);
  }

  lemma SpecificBack(s: Serial, text: string)
    requires |text| >= 8 && s.vendorSpecific == ParsePairs(text + ['\0'])
    ensures SpecificText(s) == UpperCase(text[..8]) <==> forall i :: 0 <= i < 8 ==> IsHexDigit(text[i])
  {
    PairTextIff(text[0], text[1]);
    PairTextIff(text[2], text[3]);
    PairTextIff(text[4], text[5]);
    PairTextIff(text[6], text[7]);
    SameByPairs(SpecificText(s), UpperCase(text[..8]), text);
  }

  lemma SameByPairs(t: string, u: string, text: string)
    requires |t| == |u| == 8 <= |text|
    requires forall i :: 0 <= i < 8 ==> u[i] == ToUpper(text[i])
    requires IsHexDigit(text[0]) && IsHexDigit(text[1]) <==> t[0] == ToUpper(text[0]) && t[1] == ToUpper(text[1])
    requires IsHexDigit(text[2]) && IsHexDigit(text[3]) <==> t[2] == ToUpper(text[2]) && t[3] == ToUpper(text[3])
    requires IsHexDigit(text[4]) && IsHexDigit(text[5]) <==> t[4] == ToUpper(text[4]) && t[5] == ToUpper(text[5])
    requires IsHexDigit(text[6]) && IsHexDigit(text[7]) <==> t[6] == ToUpper(text[6]) && t[7] == ToUpper(text[7])
    ensures t == u <==> forall i :: 0 <= i < 8 ==> IsHexDigit(text[i])
  {
    if forall i :: 0 <= i < 8 ==> IsHexDigit(text[i]) {
      assert t[0] == u[0] && t[1] == u[1] && t[2] == u[2] && t[3] == u[3] && t[4] == u[4] && t[5] == u[5] && t[6] == u[6] && t[7] == u[7];
      assert t == u;
    }
  }

  /** Setting what a get has reported changes nothing, whatever the vendor-specific characters were. */
  lemma SetGetTwice(vendorText: string, specificText: string, adminState: nat)
    requires PlainVendor(vendorText) && |specificText| >= 7
    ensures Readable(vendorText, specificText)
    ensures var cfg := Cfg(ParseSerial(vendorText, specificText), adminState);
            var report := ReportOf(cfg);
            && Readable(report.vendorText, report.specificText)
            && Cfg(ParseSerial(report.vendorText, report.specificText), report.adminState) == cfg
  {
    PlainVendorStored(vendorText, specificText);
    RoundTripIff(ParseSerial(vendorText, specificText));
  }

  /** What a get reports after a set of the two texts: the vendor text, and the other one in upper case exactly if it has digits only. */
  ghost predicate Returned(report: Option<Report>, vendorText: string, specificText: string, adminState: nat)
    requires |vendorText| >= 4 && |specificText| >= 8
  {
    && report.Some? && report.value.vendorText == vendorText[..4] && report.value.adminState == adminState
    && (report.value.specificText == UpperCase(specificText[..8]) <==> forall i :: 0 <= i < 8 ==> IsHexDigit(specificText[i]))
  }

  /**
   Set, then get, through BAL's store: the terminal is stored, its four plain vendor characters and
   its admin state come back, and the vendor-specific characters come back in upper case if and only
   if all of them are hexadecimal digits.  No other terminal is affected.
   */
  method SetAndGet(bal: Bal, key: Key, vendorText: string, specificText: string, adminState: nat)
    returns (sent: bool, report: Option<Report>)
    requires PlainVendor(vendorText) && |specificText| >= 8
    modifies bal
    ensures sent && Returned(report, vendorText, specificText, adminState)
    ensures && Readable(vendorText, specificText)
            && bal.store == old(bal.store)[key := Cfg(ParseSerial(vendorText, specificText), adminState)]
            && report == Some(ReportOf(bal.store[key]))
  {
    SetThenGet(vendorText, specificText, adminState);
    ZeroIff(ParseSerial(vendorText, specificText));
    sent := CfgSet(bal, key, vendorText, specificText, adminState);
    report := CfgGet(bal, key);
  }

  /** A set of what a get reports about a stored serial number leaves it alone if and only if its vendor bytes survive printing. */
  lemma SetBackIff(cfg: Cfg)
    requires Readable(VendorText(cfg.serial), SpecificText(cfg.serial))
    ensures ParseSerial(VendorText(cfg.serial), SpecificText(cfg.serial)) != ZERO_SERIAL
    ensures ParseSerial(VendorText(cfg.serial), SpecificText(cfg.serial)) == cfg.serial <==> Faithful(cfg.serial.vendorId)
  {
    RoundTripIff(cfg.serial);
    VendorTextChars(cfg.serial);
    PrintedByte(cfg.serial.vendorId[0]);
    PairFF();
  }

  /** Get, then set what was reported: BAL's store stays as it is if and only if the stored vendor bytes survive printing. */
  method GetAndSetBack(bal: Bal, key: Key) returns (sent: bool)
    requires key in bal.store && Readable(VendorText(bal.store[key].serial), SpecificText(bal.store[key].serial))
    modifies bal
    ensures sent
    ensures bal.store == old(bal.store) <==> Faithful(old(bal.store)[key].serial.vendorId)
    ensures key in bal.store && bal.store - {key} == old(bal.store) - {key}
  {
    hide Readable, ParseSerial, Faithful;
    var report := CfgGet(bal, key);
    SetBackIff(bal.store[key]);
    ZeroIff(ParseSerial(VendorText(bal.store[key].serial), SpecificText(bal.store[key].serial)));
    sent := CfgSet(bal, key, report.value.vendorText, report.value.specificText, report.value.adminState);
  }

  /** Setting and getting what a get has reported. */
  method SetReported(bal: Bal, key: Key, report: Report) returns (again: Option<Report>)
    requires key in bal.store && report == ReportOf(bal.store[key])
    requires Faithful(bal.store[key].serial.vendorId) && Readable(report.vendorText, report.specificText)
    modifies bal
    ensures bal.store == old(bal.store) && again == Some(report)
  {
    SetBackIff(bal.store[key]);
    ZeroIff(ParseSerial(VendorText(bal.store[key].serial), SpecificText(bal.store[key].serial)));
    var sent := CfgSet(bal, key, report.vendorText, report.specificText, report.adminState);
    again := CfgGet(bal, key);
  }

  /** Two rounds of set and get: the second leaves the store as the first did, and reports the same. */
  method SetAndGetTwice(bal: Bal, key: Key, vendorText: string, specificText: string, adminState: nat)
    returns (first: Option<Report>, second: Option<Report>)
    requires PlainVendor(vendorText) && |specificText| >= 8
    modifies bal
    ensures Returned(first, vendorText, specificText, adminState) && second == first
    ensures && Readable(vendorText, specificText)
            && bal.store == old(bal.store)[key := Cfg(ParseSerial(vendorText, specificText), adminState)]
  {
    var sent;
    sent, first := SetAndGet(bal, key, vendorText, specificText, adminState);
    SetGetTwice(vendorText, specificText, adminState);
    PlainVendorStored(vendorText, specificText);
    second := SetReported(bal, key, first.value);
  }
}
