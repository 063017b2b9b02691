/** The bitmap of present SFP modules, computed from a list of port numbers. */
module SfpPresence {
  import opened Common
  import opened CText

  function TokenLength(text: string): (n: nat)
    ensures n <= |text|
    ensures forall i :: 0 <= i < n ==> text[i] != ' '
    ensures n < |text| ==> text[n] == ' '
  {
    if text == [] || text[0] == ' ' then 0 else 1 + TokenLength(text[1..])
  }

  function SkipDelimiters(text: string): (rest: string)
    ensures |rest| <= |text| && (rest != [] ==> rest[0] != ' ')
  {
    if text != [] && text[0] == ' ' then SkipDelimiters(text[1..]) else text
  }

  /** `strtok(text, " ")`: the next token, and what follows it. */
  function StrTok(text: string): (r: Option<(string, string)>)
    ensures r.Some? ==> |r.value.1| < |text|
  {
    var t := SkipDelimiters(text);
    if t == [] then None else Some((t[..TokenLength(t)], t[TokenLength(t)..]))
  }

  /** The space-separated tokens of a text. */
  function Tokens(text: string): seq<string>
    decreases |text|
  {
    match StrTok(text)
    case None => []
    case Some((token, rest)) => [token] + Tokens(rest)
  }

  /** `1 << k`. */
  function Mask(k: bv5): bv32 {
    (1 as bv32) << k
  }

  predicate MaskBit(bitmap: bv32, k: bv5) {
    bitmap & Mask(k) != 0
  }

  /** The number of a port as a shift distance. */
  function Shift(port: nat): bv5
    requires port < 32
  {
    port as bv5
  }

  /** Bit number `port`, counted from the lowest. */
  predicate Bit(bitmap: bv32, port: nat)
    requires port < 32
  {
    (bitmap >> (port as bv5)) & 1 == 1
  }

  lemma BitIsMasked(bitmap: bv32, k: bv5)
    ensures MaskBit(bitmap, k) <==> (bitmap >> k) & 1 == 1
  {
  }

  lemma MasksMeet(j: bv5, k: bv5)
    ensures Mask(j) & Mask(k) == (if j == k then Mask(j) else 0) && Mask(j) != 0
  {
  }

  lemma OrMeets(b: bv32, m: bv32, n: bv32)
    ensures (b | m) & n == (b & n) | (m & n)
  {
  }

  lemma OrNonZero(x: bv32, y: bv32, z: bv32)
    requires z == x | y
    ensures z != 0 <==> x != 0 || y != 0
  {
  }

  lemma SetMask(bitmap: bv32, j: bv5, k: bv5)
    ensures MaskBit(bitmap | Mask(j), k) <==> MaskBit(bitmap, k) || j == k
  {
    MasksMeet(j, k);
    OrMeets(bitmap, Mask(j), Mask(k));
    OrNonZero(bitmap & Mask(k), Mask(j) & Mask(k), (bitmap | Mask(j)) & Mask(k));
  }

  lemma ShiftBack(port: nat)
    requires port < 32
    ensures Shift(port) as nat == port
  {
  }

  lemma ShiftsDiffer(j: nat, k: nat)
    requires j < 32 && k < 32
    ensures Shift(j) == Shift(k) <==> j == k
  {
    ShiftBack(j);
    ShiftBack(k);
  }

  /** The bitmap with bit `port` set. */
  function Marked(bitmap: bv32, port: nat): bv32
    requires port < 32
  {
    bitmap | Mask(Shift(port))
  }

  lemma SetBit(bitmap: bv32, j: nat, k: nat)
    requires j < 32 && k < 32
    ensures Bit(Marked(bitmap, j), k) <==> Bit(bitmap, k) || j == k
  {
    SetMask(bitmap, Shift(j), Shift(k));
    ShiftsDiffer(j, k);
    BitIsMasked(bitmap, Shift(k));
    BitIsMasked(Marked(bitmap, j), Shift(k));
    hide MaskBit, Mask;
  }

  ghost predicate Listed(tokens: seq<string>, k: nat) {
    exists i :: 0 <= i < |tokens| && Atoi(tokens[i]) == k
  }

  /** Every token converts to the number of one of the 32 ports; otherwise the shift is not defined in C. */
  ghost predicate PortsOnly(tokens: seq<string>) {
    forall i :: 0 <= i < |tokens| ==> 0 <= Atoi(tokens[i]) < 32
  }

  /** Exactly the listed ports are shown as present. */
  ghost predicate Shows(bitmap: bv32, tokens: seq<string>) {
    forall k :: 0 <= k < 32 ==> (Bit(bitmap, k) <==> Listed(tokens, k))
  }

  lemma TokensUnfold(text: string)
    ensures StrTok(text) == None ==> Tokens(text) == []
    ensures StrTok(text).Some? ==> Tokens(text) == [StrTok(text).value.0] + Tokens(StrTok(text).value.1)
  {
  }

  lemma NothingShown()
    ensures Shows(0, [])
  {
  }

  /** The token loop. */
  method PresenceBitmap(text: string) returns (bitmap: bv32)
    requires PortsOnly(Tokens(text))
    ensures Shows(bitmap, Tokens(text))
  {
    bitmap := 0;
    var next := StrTok(text);
    ghost var done: seq<string>, rest := [], Tokens(text);
    TokensUnfold(text);
    NothingShown();
    while next.Some?
      invariant rest == if next.Some? then [next.value.0] + Tokens(next.value.1) else []
      invariant Tokens(text) == done + rest
      invariant Shows(bitmap, done)
      decreases |rest|
    {
      var (field, following) := next.value;
      assert Tokens(text)[|done|] == field;
      bitmap := MarkPort(bitmap, field, done);
      next := StrTok(following);
      TokensUnfold(following);
      done, rest := done + [field], rest[1..];
    }
    assert done + [] == done;
  }

  method MarkPort(before: bv32, field: string, ghost done: seq<string>) returns (bitmap: bv32)
    requires 0 <= Atoi(field) < 32 && Shows(before, done)
    ensures Shows(bitmap, done + [field])
  {
    bitmap := Marked(before, Atoi(field));
    MarkedShows(before, field, done);
  }

  lemma MarkedShows(before: bv32, field: string, done: seq<string>)
    requires 0 <= Atoi(field) < 32 && Shows(before, done)
    ensures Shows(Marked(before, Atoi(field)), done + [field])
  {
    forall k | 0 <= k < 32
      ensures Bit(Marked(before, Atoi(field)), k) <==> Listed(done + [field], k)
    {
      SetBit(before, Atoi(field), k);
      ListedSnoc(done, field, k);
    }
  }

  lemma ListedSnoc(tokens: seq<string>, field: string, k: nat)
    ensures Listed(tokens + [field], k) <==> Listed(tokens, k) || Atoi(field) == k
  {
    var all := tokens + [field];
    assert all[|tokens|] == field;
    if Listed(tokens, k) {
      var i :| 0 <= i < |tokens| && Atoi(tokens[i]) == k;
      assert all[i] == tokens[i];
    }
  }

  /** The list as it is read: each port number followed by a space. */
  function PortList(ports: seq<nat>): string {
    if ports == [] then "" else Decimal(ports[0]) + " " + PortList(ports[1..])
  }

  lemma {:induction false} TokenLengthOf(token: string, rest: string)
    requires forall i :: 0 <= i < |token| ==> token[i] != ' '
    requires rest != [] && rest[0] == ' '
    ensures TokenLength(token + rest) == |token|
  {
    if token == [] {
      assert token + rest == rest;
    } else {
      assert (token + rest)[1..] == token[1..] + rest;
      TokenLengthOf(token[1..], rest);
    }
  }

  lemma {:induction false} TokensOfList(ports: seq<nat>)
    ensures |Tokens(PortList(ports))| == |ports|
    ensures forall i :: 0 <= i < |ports| ==> Atoi(Tokens(PortList(ports))[i]) == ports[i]
    ensures Tokens(" " + PortList(ports)) == Tokens(PortList(ports))
  {
    var text := PortList(ports);
    assert (" " + text)[1..] == text;
    if ports != [] {
      var token, rest := Decimal(ports[0]), " " + PortList(ports[1..]);
      assert text == token + rest;
      TokenLengthOf(token, rest);
      assert text[..|token|] == token && text[|token|..] == rest;
      TokensOfList(ports[1..]);
      AtoiDecimal(ports[0]);
    }
  }

  lemma {:induction false} TokenLengthWord(word: string)
    requires forall i :: 0 <= i < |word| ==> word[i] != ' '
    ensures TokenLength(word) == |word|
  {
    if word != [] {
      TokenLengthWord(word[1..]);
    }
  }

  /** A text without spaces is one token, unless it is empty. */
  lemma TokensOfWord(word: string)
    requires forall i :: 0 <= i < |word| ==> word[i] != ' '
    ensures Tokens(word) == if word == [] then [] else [word]
  {
    TokenLengthWord(word);
    if word != [] {
      TokensFirst(word);
      assert word[|word|..] == [] && word[..|word|] == word;
    }
  }

  lemma {:induction false} FirstToken(a: string, b: string)
    ensures TokenLength(a + " " + b) == TokenLength(a)
  {
    var text := a + " " + b;
    if a == [] {
      assert text[0] == ' ' && TokenLength(text) == 0;
    } else if a[0] == ' ' {
      assert text[0] == ' ' && TokenLength(text) == 0;
    } else {
      assert text[0] == a[0] && text[1..] == a[1..] + " " + b;
      FirstToken(a[1..], b);
    }
  }

  /** A text that starts with a token. */
  lemma TokensFirst(text: string)
    requires text != [] && text[0] != ' '
    ensures var n := TokenLength(text); n > 0 && Tokens(text) == [text[..n]] + Tokens(text[n..])
  {
  }

  /** A text that starts with a space. */
  lemma TokensSkip(text: string)
    requires text != [] && text[0] == ' '
    ensures Tokens(text) == Tokens(text[1..])
  {
    assert SkipDelimiters(text) == SkipDelimiters(text[1..]);
  }

  /** A space ends a token; more spaces make no difference.  Together with TokensOfWord this fixes all tokens. */
  lemma {:induction false} TokensSplit(a: string, b: string)
    ensures Tokens(a + " " + b) == Tokens(a) + Tokens(b)
    decreases |a|
  {
    hide Tokens, TokenLength;
    var text := a + " " + b;
    if a == [] {
      TokensOfWord(a);
      TokensSkip(text);
      assert text[1..] == b;
    } else if a[0] == ' ' {
      TokensSkip(text);
      TokensSkip(a);
      assert text[1..] == a[1..] + " " + b;
      TokensSplit(a[1..], b);
    } else {
      var n := TokenLength(a);
      TokensFirst(a);
      TokensFirst(text);
      FirstToken(a, b);
      assert text[..n] == a[..n] && text[n..] == a[n..] + " " + b;
      TokensSplit(a[n..], b);
    }
  }

  /**
   From the list of ports to the bitmap: for any list of ports below 32, in any order and with
   duplicates, the bitmap that shows its tokens has bit `k` set if and only if `k` is in the list.
   */
  lemma ListedPorts(ports: seq<nat>, bitmap: bv32)
    requires forall i :: 0 <= i < |ports| ==> ports[i] < 32
    ensures PortsOnly(Tokens(PortList(ports)))
    ensures Shows(bitmap, Tokens(PortList(ports))) <==> forall k :: 0 <= k < 32 ==> (Bit(bitmap, k) <==> k in ports)
  {
    TokensOfList(ports);
    var tokens := Tokens(PortList(ports));
    forall k: nat
      ensures Listed(tokens, k) <==> k in ports
    {
      if k in ports {
        var i :| 0 <= i < |ports| && ports[i] == k;
        assert Atoi(tokens[i]) == k;
      }
    }
  }
}
