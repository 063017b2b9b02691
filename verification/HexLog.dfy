/** The log line with a hexadecimal dump of a packet. */
module HexLog {
  import opened Common
  import opened CText

  const SYSLOG_MAX_SIZE := 1024

  /** Two lower-case digits for each byte, as `%02x` prints them. */
  function LowerHex(data: seq<Byte>): (text: string)
    ensures |text| == 2 * |data|
    ensures forall i :: 0 <= i < |data| ==> text[2 * i] == LowerDigit(data[i] / 16) && text[2 * i + 1] == LowerDigit(data[i] % 16)
  {
    if data == [] then []
    else
      var last := data[|data| - 1];
      LowerHex(data[..|data| - 1]) + [LowerDigit(last / 16), LowerDigit(last % 16)]
  }

  /** A C string's characters are not null. */
  predicate NoNul(s: string) {
    '\0' !in s
  }

  lemma LowerHexNoNul(data: seq<Byte>)
    ensures NoNul(LowerHex(data))
  {
    var t := LowerHex(data);
    forall k | 0 <= k < |t|
      ensures t[k] != '\0'
    {
      var i := k / 2;
      DigitsConvert(data[i] / 16, '0');
      DigitsConvert(data[i] % 16, '0');
      assert k == 2 * i || k == 2 * i + 1;
    }
  }

  /** The C string at the start of a buffer. */
  function Contents(buf: array<char>): string
    reads buf
  {
    CutAtNul(buf[..])
  }

  /**
   `snprintf(buf + at, size, "%s", text)`: writes as much of the text as fits into `size` characters
   together with a terminating null, and returns the length of the whole text.
   */
  method Snprintf(buf: array<char>, at: nat, size: nat, text: string) returns (n: nat)
    requires at + size <= buf.Length
    modifies buf
    ensures n == |text|
    ensures forall i :: 0 <= i < at ==> buf[i] == old(buf[i])
    ensures size > 0 ==> var m := if |text| < size then |text| else size - 1;
              (forall i :: 0 <= i < m ==> buf[at + i] == text[i]) && buf[at + m] == '\0'
    ensures size == 0 ==> buf[..] == old(buf[..])
  {
    n := |text|;
    if size > 0 {
      var m := if |text| < size then |text| else size - 1;
      forall i | 0 <= i < m {
        buf[at + i] := text[i];
      }
      buf[at + m] := '\0';
    }
  }

  /** What ends up in the log: the header and the dump, cut to what fits into the buffer. */
  function Logged(header: string, data: seq<Byte>): string {
    if |header| < SYSLOG_MAX_SIZE - 1 then Cut(header + LowerHex(data), SYSLOG_MAX_SIZE - 1)
    else header[..SYSLOG_MAX_SIZE - 2]
  }

  function Cut(s: string, n: nat): string {
    if |s| <= n then s else s[..n]
  }

  lemma {:induction false} CutAtNulFinds(s: string, n: nat)
    requires n < |s| && s[n] == '\0' && NoNul(s[..n])
    ensures CutAtNul(s) == s[..n]
  {
    if n > 0 {
      assert s[0] == s[..n][0];
      assert s[1..][..n - 1] == s[..n][1..];
      CutAtNulFinds(s[1..], n - 1);
      assert s[..n] == [s[0]] + s[1..][..n - 1];
    } else {
      assert s[..0] == [];
    }
  }

  /** How many characters the buffer shows when the printing index is `idx`. */
  function Shown(header: string, idx: nat): nat {
    if |header| >= SYSLOG_MAX_SIZE - 1 then SYSLOG_MAX_SIZE - 2
    else if idx < SYSLOG_MAX_SIZE then idx
    else SYSLOG_MAX_SIZE - 1
  }

  lemma ShownIsLogged(header: string, data: seq<Byte>, idx: nat, buf: seq<char>)
    requires NoNul(header) && |buf| == SYSLOG_MAX_SIZE && |header| <= idx
    requires idx == |header| + 2 * |data| || (SYSLOG_MAX_SIZE <= idx <= |header| + 2 * |data|)
    requires Shown(header, idx) <= |header| + 2 * |data| && buf[Shown(header, idx)] == '\0'
    requires forall i :: 0 <= i < Shown(header, idx) ==> buf[i] == (header + LowerHex(data))[i]
    ensures CutAtNul(buf) == Logged(header, data)
  {
    var all, n := header + LowerHex(data), Shown(header, idx);
    LowerHexNoNul(data);
    assert buf[..n] == all[..n];
    assert NoNul(all);
    CutAtNulFinds(buf, n);
    if |header| >= SYSLOG_MAX_SIZE - 1 {
      assert all[..n] == header[..n];
    }
  }

  /**
   The dump loop.  Its index may overshoot the buffer by one, but no write does, and the buffer ends
   up with a null-terminated string: the first 1023 characters of the header and the dump.
   */
  method HexLog2(header: string, data: seq<Byte>) returns (tempBuf: array<char>)
    requires NoNul(header)
    ensures fresh(tempBuf) && tempBuf.Length == 1024
    ensures Contents(tempBuf) == Logged(header, data)
    ensures |header| <= 1022 && |header| + 2 * |data| <= 1023 ==> Contents(tempBuf) == header + LowerHex(data)
    ensures |header| <= 1022 && |header| + 2 * |data| > 1023 ==> Contents(tempBuf) == (header + LowerHex(data))[..1023]
    ensures |header| > 1022 ==> Contents(tempBuf) == header[..1022]
  {
    tempBuf := new char[SYSLOG_MAX_SIZE](_ => ' ');
    var idx := Snprintf(tempBuf, 0, SYSLOG_MAX_SIZE - 1, header);
    var len, inpPtr := |data|, 0;
    ghost var all := header + LowerHex(data);
    while len > 0 && idx < SYSLOG_MAX_SIZE
      invariant 0 <= len && inpPtr + len == |data|
      invariant idx == |header| + 2 * inpPtr
      invariant inpPtr > 0 ==> idx <= SYSLOG_MAX_SIZE + 1
      invariant tempBuf[Shown(header, idx)] == '\0'
      invariant forall i :: 0 <= i < Shown(header, idx) ==> tempBuf[i] == all[i]
    {
      var digits := [LowerDigit(data[inpPtr] / 16), LowerDigit(data[inpPtr] % 16)];
      assert digits[0] == all[idx] && digits[1] == all[idx + 1];
      var n := Snprintf(tempBuf, idx, SYSLOG_MAX_SIZE - idx, digits);
      inpPtr := inpPtr + 1;
      idx := idx + n;
      len := len - 1;
    }
    ShownIsLogged(header, data, idx, tempBuf[..]);
  }
}
