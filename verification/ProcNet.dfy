/** The decoder for the ten-column socket tables under /proc/net, and the kernel's way of printing
    them. Addresses are kept as bytes in network order. */
module ProcNet {
  import opened Text
  import opened FlowKeys

  datatype Address = Ip4(v4: V4) | Ip6(v6: V6)

  datatype Endpoint = Endpoint(address: Address, port: int)

  /** `state` is the raw hexadecimal column. */
  datatype RawConnection = RawConnection(
    protocol: string, local: Endpoint, remote: Endpoint, state: string, uid: int, inode: int)

  /** `NotARecord` is the source's null, `Malformed` an exception: the file reader drops both. */
  datatype Outcome = Record(connection: RawConnection) | NotARecord | Malformed

  // ---------- hexadecimal numbers ----------

  predicate IsHex(c: char) { '0' <= c <= '9' || 'A' <= c <= 'F' || 'a' <= c <= 'f' }

  predicate AllHex(s: string) { forall i :: 0 <= i < |s| ==> IsHex(s[i]) }

  function HexDigit(d: nat): (c: char)
    requires d < 16
    ensures IsHex(c) && HexDigitValue(c) == d && c != '+'
  {
    if d < 10 then '0' + d as char else 'A' + (d - 10) as char
  }

  function HexDigitValue(c: char): (d: nat)
    requires IsHex(c)
    ensures d < 16
  {
    if c <= '9' then (c - '0') as nat else if c <= 'F' then (c - 'A') as nat + 10 else (c - 'a') as nat + 10
  }

  function HexValue(s: string): nat
    requires AllHex(s)
  {
    if s == "" then 0 else 16 * HexValue(s[..|s| - 1]) + HexDigitValue(s[|s| - 1])
  }

  /** Fixed-width printing, keeping the low digits. */
  function Hex(n: nat, width: nat): (s: string)
    ensures |s| == width && AllHex(s)
    ensures forall i :: 0 <= i < width ==> s[i] != '+' && s[i] != ' ' && s[i] != ':' && !IsBlank(s[i])
  {
    if width == 0 then "" else Hex(n / 16, width - 1) + [HexDigit(n % 16)]
  }

  function Pow16(width: nat): nat { if width == 0 then 1 else 16 * Pow16(width - 1) }

  lemma {:induction false} HexRoundTrip(n: nat, width: nat)
    requires n < Pow16(width)
    ensures HexValue(Hex(n, width)) == n
  {
    if width > 0 {
      HexRoundTrip(n / 16, width - 1);
      var s := Hex(n, width);
      assert s[..width - 1] == Hex(n / 16, width - 1);
    }
  }

  /** Digits mean the same in either case. */
  lemma {:induction false} HexInEitherCase(s: string)
    requires AllHex(s)
    ensures AllHex(Upper(s)) && HexValue(Upper(s)) == HexValue(s)
  {
    if s != "" {
      var n := |s| - 1;
      HexInEitherCase(s[..n]);
      assert Upper(s)[..n] == Upper(s[..n]);
    }
  }

  /** Convert.ToUInt32(s, 16): a plus sign and a 0x prefix may come first; digits that do not fit in
      32 bits are an error. */
  function ToUInt32(s: string): Option<nat>
  {
    var unsigned := if s != "" && s[0] == '+' then s[1..] else s;
    var prefixed := |unsigned| >= 2 && unsigned[0] == '0' && (unsigned[1] == 'x' || unsigned[1] == 'X');
    var digits := if prefixed then unsigned[2..] else unsigned;
    if digits == "" || !AllHex(digits) || HexValue(digits) >= 0x1_0000_0000 then None else Some(HexValue(digits))
  }

  /** Convert.ToInt32(s, 16): the same 32 bits as a signed number. */
  function ToInt32(s: string): Option<int>
  {
    var n := ToUInt32(s);
    if n.None? then None else Some(if n.value < 0x8000_0000 then n.value else n.value - 0x1_0000_0000)
  }

  lemma PrintedHexIsRead(n: nat, width: nat)
    requires 0 < width <= 8 && n < Pow16(width)
    ensures ToUInt32(Hex(n, width)) == Some(n)
  {
    HexRoundTrip(n, width);
    PowersBelow32Bits(width);
    var s := Hex(n, width);
    assert s[0] != '+' && (width > 1 ==> IsHex(s[1]) && s[1] != 'x' && s[1] != 'X');
  }

  lemma PowersBelow32Bits(width: nat)
    requires width <= 8
    ensures Pow16(4) == 0x1_0000 && Pow16(8) == 0x1_0000_0000 && Pow16(width) <= 0x1_0000_0000
  {}

  // ---------- addresses ----------

  function ParseHexIPv4(hex: string): Option<Address>
  {
    if |hex| != 8 then Some(Ip4(ZERO4))
    else
      var word := ToUInt32(hex);
      if word.None? then None else Some(Ip4(BytesOf32(word.value)))
  }

  function WordAt(hex: string, k: nat): Option<nat>
    requires 8 * k + 8 <= |hex|
  {
    ToUInt32(hex[8 * k..8 * k + 8])
  }

  predicate WordsReadable(hex: string, n: nat)
    requires 8 * n <= |hex|
  {
    forall k :: 0 <= k < n ==> WordAt(hex, k).Some?
  }

  /** Each word gives four bytes, least significant first. */
  function WordBytes(hex: string, n: nat): (bytes: seq<Byte>)
    requires 8 * n <= |hex| && WordsReadable(hex, n)
    ensures |bytes| == 4 * n
  {
    if n == 0 then [] else WordBytes(hex, n - 1) + BytesOf32(WordAt(hex, n - 1).value)
  }

  /** A mapped IPv6 address is reported as the IPv4 address inside. */
  function Normal(a: V6): Address { if IsMapped(a) then Ip4(Last4(a)) else Ip6(a) }

  function Address6(hex: string): Option<Address>
  {
    if |hex| != 32 then Some(Ip6(ZERO6)) else if !WordsReadable(hex, 4) then None else Some(Normal(WordBytes(hex, 4)))
  }

  /** `bytes` holds the four bytes of `word` from index `at` on. */
  method StoreWord(bytes: array<Byte>, at: nat, word: nat)
    requires at + 4 <= bytes.Length
    modifies bytes
    ensures bytes[..] == old(bytes[..at]) + BytesOf32(word) + old(bytes[at + 4..])
  {
    bytes[at] := word % 256;
    bytes[at + 1] := word / 256 % 256;
    bytes[at + 2] := word / 256 / 256 % 256;
    bytes[at + 3] := word / 256 / 256 / 256 % 256;
  }

  method FillBytes(hex: string, bytes: array<Byte>) returns (ok: bool)
    requires |hex| == 32 && bytes.Length == 16
    modifies bytes
    ensures ok == WordsReadable(hex, 4)
    ensures ok ==> bytes[..] == WordBytes(hex, 4)
  {
    for i := 0 to 4
      invariant WordsReadable(hex, i) && bytes[..4 * i] == WordBytes(hex, i)
    {
      var word := WordAt(hex, i);
      if word.None? { return false; }
      StoreWord(bytes, 4 * i, word.value);
      assert bytes[..4 * (i + 1)] == WordBytes(hex, i) + BytesOf32(word.value);
    }
    assert bytes[..16] == bytes[..];
    return true;
  }

  method ParseHexIPv6(hex: string) returns (address: Option<Address>)
    ensures address == Address6(hex)
  {
    if |hex| != 32 { return Some(Ip6(ZERO6)); }
    var bytes := new Byte[16](_ => 0);
    var ok := FillBytes(hex, bytes);
    if !ok { return None; }
    if IsMapped(bytes[..]) { return Some(Ip4(bytes[12..])); }
    return Some(Ip6(bytes[..]));
  }

  function ParseHexAddress(text: string, isIpv6: bool): Option<Endpoint>
  {
    var colon := IndexOf(text, ':');
    if colon == |text| then Some(Endpoint(Ip4(ZERO4), 0))
    else
      var port := ToInt32(text[colon + 1..]);
      var address := if isIpv6 then Address6(text[..colon]) else ParseHexIPv4(text[..colon]);
      if port.None? || address.None? then None else Some(Endpoint(address.value, port.value))
  }

  /** Addresses of another length, and endpoints without a port, read as unspecified ones. */
  lemma OddLengths(text: string, isIpv6: bool)
    ensures |text| != 8 ==> ParseHexIPv4(text) == Some(Ip4([0, 0, 0, 0]))
    ensures |text| != 32 ==> Address6(text) == Some(Ip6([0, 0, 0, 0, 0, 0, 0, 0, 0, 0, 0, 0, 0, 0, 0, 0]))
    ensures ':' !in text ==> ParseHexAddress(text, isIpv6) == Some(Endpoint(Ip4([0, 0, 0, 0]), 0))
  {}

  // ---------- lines and files ----------

  function Tokens(line: string): seq<string> { NonEmpty(Split(line, ' ')) }

  /** int.TryParse and long.TryParse, which also allow blanks around the number. */
  function NumberOr(text: string, low: int, high: int): int
  {
    var n := TryParse(Trim(text), low, high);
    if n.Some? then n.value else -1
  }

  const INT_MAX := 0x7fff_ffff
  const LONG_MAX := 0x7fff_ffff_ffff_ffff

  function Uid(text: string): int { NumberOr(text, -INT_MAX - 1, INT_MAX) }

  function Inode(text: string): int { NumberOr(text, -LONG_MAX - 1, LONG_MAX) }

  function ParseFields(fields: seq<string>, protocol: string, isIpv6: bool): Outcome
  {
    if |fields| < 10 then NotARecord
    else
      var local, remote := ParseHexAddress(fields[1], isIpv6), ParseHexAddress(fields[2], isIpv6);
      if local.None? || remote.None? then Malformed
      else Record(RawConnection(protocol, local.value, remote.value, fields[3], Uid(fields[7]), Inode(fields[9])))
  }

  function ParseStandardLine(line: string, protocol: string, isIpv6: bool): Outcome
  {
    var trimmed := Trim(line);
    if trimmed == "" then NotARecord else ParseFields(Tokens(trimmed), protocol, isIpv6)
  }

  /** The records among some lines, in order. */
  function Records(lines: seq<string>, protocol: string, isIpv6: bool): seq<RawConnection>
  {
    if lines == [] then []
    else
      var last := ParseStandardLine(lines[|lines| - 1], protocol, isIpv6);
      Records(lines[..|lines| - 1], protocol, isIpv6) + if last.Record? then [last.connection] else []
  }

  /** The first line is the heading. */
  method ParseStandard(lines: seq<string>, protocol: string, isIpv6: bool) returns (connections: seq<RawConnection>)
    ensures connections == if lines == [] then [] else Records(lines[1..], protocol, isIpv6)
  {
    connections := [];
    if lines == [] { return; }
    ghost var rows := lines[1..];
    for i := 1 to |lines|
      invariant connections == Records(rows[..i - 1], protocol, isIpv6)
    {
      assert rows[..i][..i - 1] == rows[..i - 1] && rows[..i][i - 1] == lines[i];
      var outcome := ParseStandardLine(lines[i], protocol, isIpv6);
      if outcome.Record? { connections := connections + [outcome.connection]; }
    }
    assert rows[..|lines| - 1] == rows;
  }

  // ---------- what the kernel prints ----------

  datatype Socket = Socket(local: Address, localPort: U16, remote: Address, remotePort: U16,
                           state: string, uid: nat, inode: nat)

  /** The columns the decoder ignores, and any further ones at the end. */
  datatype Other = Other(
    slot: string, queues: string, timer: string, retransmits: string, timeout: string, more: seq<string>)

  predicate Word(s: string) { s != "" && forall i :: 0 <= i < |s| ==> !IsBlank(s[i]) }

  predicate PlainOther(o: Other) {
    && Word(o.slot) && Word(o.queues) && Word(o.timer) && Word(o.retransmits) && Word(o.timeout)
    && forall i :: 0 <= i < |o.more| ==> Word(o.more[i])
  }

  predicate Printable(s: Socket, isIpv6: bool) {
    s.local.Ip6? == s.remote.Ip6? == isIpv6 && Word(s.state)
  }

  function PrintWord(a: V4): (s: string)
    ensures |s| == 8 && AllHex(s)
  {
    Hex(From32(a), 8)
  }

  function PrintAddress(a: Address): (s: string)
    ensures AllHex(s)
  {
    if a.Ip4? then PrintWord(a.v4)
    else PrintWord(a.v6[..4]) + PrintWord(a.v6[4..8]) + PrintWord(a.v6[8..12]) + PrintWord(a.v6[12..])
  }

  function PrintEndpoint(a: Address, port: U16): string { PrintAddress(a) + ":" + Hex(port, 4) }

  function TenColumns(slot: string, local: string, remote: string, state: string, queues: string, timer: string,
                      retransmits: string, uid: string, timeout: string, inode: string): (columns: seq<string>)
    ensures |columns| == 10 && columns[1] == local && columns[2] == remote && columns[3] == state
    ensures columns[7] == uid && columns[9] == inode
    ensures (Word(slot) && Word(local) && Word(remote) && Word(state) && Word(queues) && Word(timer)
             && Word(retransmits) && Word(uid) && Word(timeout) && Word(inode)) ==> Words(columns)
  {
    [slot, local, remote, state, queues, timer, retransmits, uid, timeout, inode]
  }

  function Columns(s: Socket, o: Other): seq<string>
  {
    TenColumns(o.slot, PrintEndpoint(s.local, s.localPort), PrintEndpoint(s.remote, s.remotePort), s.state,
               o.queues, o.timer, o.retransmits, NatToString(s.uid), o.timeout, NatToString(s.inode)) + o.more
  }

  /** Columns set apart by one space and `gaps` more. */
  function Padded(columns: seq<string>, gaps: seq<nat>): string
    requires |columns| > 0 && |gaps| == |columns|
  {
    columns[0] + if |columns| == 1 then "" else Spaces(1 + gaps[0]) + Padded(columns[1..], gaps[1..])
  }

  function PrintLine(columns: seq<string>, before: nat, gaps: seq<nat>, after: nat): string
    requires |columns| > 0 && |gaps| == |columns|
  {
    Spaces(before) + Padded(columns, gaps) + Spaces(after)
  }

  // ---------- reading what the kernel printed ----------

  predicate Words(columns: seq<string>) { forall i :: 0 <= i < |columns| ==> Word(columns[i]) }

  lemma {:induction false} SpacesGiveNoToken(n: nat, rest: string)
    ensures Tokens(Spaces(n) + rest) == Tokens(rest)
  {
    if n == 0 {
      assert Spaces(0) + rest == rest;
    } else {
      var s := Spaces(n) + rest;
      assert s[0] == ' ' && s[1..] == Spaces(n - 1) + rest;
      assert s[..0] == "";
      assert Split(s, ' ') == [""] + Split(s[1..], ' ');
      assert Split(s, ' ')[1..] == Split(s[1..], ' ');
      SpacesGiveNoToken(n - 1, rest);
    }
  }

  lemma FirstToken(word: string, rest: string)
    requires Word(word)
    ensures Tokens(word + (" " + rest)) == [word] + Tokens(rest) && Tokens(word) == [word]
  {
    assert ' ' !in word;
    var s := word + (" " + rest);
    assert s == word + [' '] + rest && s[|word|] == ' ';
    var i := IndexOf(s, ' ');
    assert s == s[..i] + [' '] + s[i + 1..];
    FirstCutUnique(word, rest, s[..i], s[i + 1..], ' ');
    assert Split(s, ' ')[1..] == Split(rest, ' ');
    assert IndexOf(word, ' ') == |word|;
    assert Split(word, ' ') == [word] && [word][1..] == [];
    assert NonEmpty([word]) == [word] + NonEmpty([]);
  }

  lemma {:induction false} PaddedTokens(columns: seq<string>, gaps: seq<nat>)
    requires |columns| > 0 && |gaps| == |columns| && Words(columns)
    ensures Tokens(Padded(columns, gaps)) == columns
    decreases |columns|
  {
    if |columns| == 1 {
      FirstToken(columns[0], "");
      assert columns[0] + "" == columns[0];
    } else {
      var rest := Padded(columns[1..], gaps[1..]);
      assert Spaces(1 + gaps[0]) == " " + Spaces(gaps[0]);
      assert Padded(columns, gaps) == columns[0] + (" " + (Spaces(gaps[0]) + rest));
      FirstToken(columns[0], Spaces(gaps[0]) + rest);
      SpacesGiveNoToken(gaps[0], rest);
      PaddedTokens(columns[1..], gaps[1..]);
    }
  }

  lemma {:induction false} PaddedEnds(columns: seq<string>, gaps: seq<nat>)
    requires |columns| > 0 && |gaps| == |columns| && Words(columns)
    ensures var s := Padded(columns, gaps); s != "" && !IsBlank(s[0]) && !IsBlank(s[|s| - 1])
    decreases |columns|
  {
    assert Word(columns[0]);
    if |columns| > 1 {
      PaddedEnds(columns[1..], gaps[1..]);
    }
  }

  lemma {:induction false} TrimEndSpaces(s: string, n: nat)
    requires s != "" && !IsBlank(s[|s| - 1])
    ensures TrimEnd(s + Spaces(n)) == s
  {
    if n == 0 {
      assert s + Spaces(0) == s;
    } else {
      assert (s + Spaces(n))[..|s| + n - 1] == s + Spaces(n - 1);
      TrimEndSpaces(s, n - 1);
    }
  }

  lemma {:induction false} TrimStartSpaces(s: string, n: nat)
    requires s != "" && !IsBlank(s[0])
    ensures TrimStart(Spaces(n) + s) == s
  {
    if n == 0 {
      assert Spaces(0) + s == s;
    } else {
      assert (Spaces(n) + s)[1..] == Spaces(n - 1) + s;
      TrimStartSpaces(s, n - 1);
    }
  }

  /** However a line is padded, its columns are found. */
  lemma LineTokens(columns: seq<string>, before: nat, gaps: seq<nat>, after: nat)
    requires |columns| > 0 && |gaps| == |columns| && Words(columns)
    ensures var trimmed := Trim(PrintLine(columns, before, gaps, after)); trimmed != "" && Tokens(trimmed) == columns
  {
    var s := Padded(columns, gaps);
    PaddedEnds(columns, gaps);
    PaddedTokens(columns, gaps);
    assert PrintLine(columns, before, gaps, after) == Spaces(before) + (s + Spaces(after));
    TrimStartSpaces(s + Spaces(after), before);
    TrimEndSpaces(s, after);
  }

  lemma WordRoundTrip(a: V4)
    ensures ToUInt32(PrintWord(a)) == Some(From32(a)) && BytesOf32(From32(a)) == a
  {
    PowersBelow32Bits(8);
    PrintedHexIsRead(From32(a), 8);
    var n3 := a[3] as nat;
    var n2 := a[2] as nat + 256 * n3;
    var n1 := a[1] as nat + 256 * n2;
    assert From32(a) / 256 == n1 && n1 / 256 == n2 && n2 / 256 == n3;
  }

  lemma IPv4RoundTrip(a: V4)
    ensures ParseHexIPv4(PrintAddress(Ip4(a))) == Some(Ip4(a))
  {
    WordRoundTrip(a);
  }

  lemma WordStep(hex: string, i: nat, a: V4)
    requires 8 * i + 8 <= |hex| && WordsReadable(hex, i) && hex[8 * i..8 * i + 8] == PrintWord(a)
    ensures WordsReadable(hex, i + 1) && WordBytes(hex, i + 1) == WordBytes(hex, i) + a
  {
    WordRoundTrip(a);
    assert WordAt(hex, i) == Some(From32(a));
  }

  lemma FourParts(w: string, x: string, y: string, z: string)
    requires |w| == |x| == |y| == |z| == 8
    ensures var s := w + x + y + z; |s| == 32 && s[0..8] == w && s[8..16] == x && s[16..24] == y && s[24..32] == z
  {}

  lemma WordsRoundTrip(hex: string, w: V4, x: V4, y: V4, z: V4)
    requires |hex| == 32 && hex[0..8] == PrintWord(w) && hex[8..16] == PrintWord(x)
    requires hex[16..24] == PrintWord(y) && hex[24..32] == PrintWord(z)
    ensures WordsReadable(hex, 4) && WordBytes(hex, 4) == w + x + y + z
  {
    assert WordsReadable(hex, 0) && WordBytes(hex, 0) == [];
    WordStep(hex, 0, w);
    var one := WordBytes(hex, 1);
    WordStep(hex, 1, x);
    var two := WordBytes(hex, 2);
    WordStep(hex, 2, y);
    var three := WordBytes(hex, 3);
    WordStep(hex, 3, z);
    assert [] + w == w && one == w && two == one + x && three == two + y;
  }

  lemma SixteenBytes(a: V6)
    ensures a == a[..4] + a[4..8] + a[8..12] + a[12..]
  {}

  lemma IPv6RoundTrip(a: V6)
    ensures Address6(PrintAddress(Ip6(a))) == Some(Normal(a))
  {
    FourParts(PrintWord(a[..4]), PrintWord(a[4..8]), PrintWord(a[8..12]), PrintWord(a[12..]));
    WordsRoundTrip(PrintAddress(Ip6(a)), a[..4], a[4..8], a[8..12], a[12..]);
    SixteenBytes(a);
  }

  /** An IPv4 peer of an IPv6 socket looks the same as in the IPv4 table. */
  lemma MappedReadsAsIPv4(a: V4)
    ensures Address6(PrintAddress(Ip6(Mapped(a)))) == ParseHexIPv4(PrintAddress(Ip4(a)))
  {
    IPv6RoundTrip(Mapped(a));
    IPv4RoundTrip(a);
    MappedRoundTrip(a, ZERO6);
  }

  /** How an address looks after the round trip. */
  function Seen(a: Address): Address { if a.Ip4? then a else Normal(a.v6) }

  lemma CutAtColon(hex: string, digits: string)
    requires AllHex(hex) && AllHex(digits)
    ensures var text := hex + ":" + digits;
            && Word(text) && |hex| < |text| && IndexOf(text, ':') == |hex|
            && text[..|hex|] == hex && text[|hex| + 1..] == digits
  {
    var text := hex + ":" + digits;
    assert text[|hex|] == ':';
    assert forall i :: 0 <= i < |hex| ==> text[i] == hex[i] && IsHex(hex[i]);
    assert forall i :: |hex| < i < |text| ==> text[i] == digits[i - |hex| - 1] && IsHex(text[i]);
    assert text[..|hex|] == hex && ':' !in hex;
    var colon := IndexOf(text, ':');
    assert text == text[..colon] + [':'] + text[colon + 1..];
    FirstCutUnique(hex, digits, text[..colon], text[colon + 1..], ':');
  }

  lemma EndpointRoundTrip(a: Address, port: U16)
    ensures ParseHexAddress(PrintEndpoint(a, port), a.Ip6?) == Some(Endpoint(Seen(a), port))
    ensures Word(PrintEndpoint(a, port))
  {
    CutAtColon(PrintAddress(a), Hex(port, 4));
    PowersBelow32Bits(4);
    PrintedHexIsRead(port, 4);
    assert ToInt32(Hex(port, 4)) == Some(port);
    if a.Ip4? { IPv4RoundTrip(a.v4); } else { IPv6RoundTrip(a.v6); }
  }

  /** A number that fits its type comes back; any larger one is taken for unknown. */
  lemma NumberRoundTrip(n: nat, low: int, high: int)
    requires low <= 0
    ensures NumberOr(NatToString(n), low, high) == (if n <= high then n else -1) && Word(NatToString(n))
  {
    var s := NatToString(n);
    assert forall i :: 0 <= i < |s| ==> IsDigit(s[i]);
    TrimPlain(s);
    NatRoundTrip(n);
    assert s[0] != '-' && s[0] != '+';
  }

  /** What the decoder should make of a printed socket. */
  function Expected(s: Socket, protocol: string): RawConnection
  {
    RawConnection(protocol, Endpoint(Seen(s.local), s.localPort), Endpoint(Seen(s.remote), s.remotePort), s.state,
                  if s.uid <= INT_MAX then s.uid else -1, if s.inode <= LONG_MAX then s.inode else -1)
  }

  /** The address itself, or the IPv4 address inside a mapped one. */
  predicate ReadsAs(seen: Address, a: Address)
  {
    match a
    case Ip4(_) => seen == a
    case Ip6(v6) => seen == if v6[..12] == [0, 0, 0, 0, 0, 0, 0, 0, 0, 0, 255, 255] then Ip4(v6[12..]) else a
  }

  /** The record says what the socket is, column by column; numbers too large for their types are unknown. */
  predicate ReadBack(c: RawConnection, s: Socket, protocol: string)
  {
    && c.protocol == protocol && c.state == s.state
    && ReadsAs(c.local.address, s.local) && c.local.port == s.localPort
    && ReadsAs(c.remote.address, s.remote) && c.remote.port == s.remotePort
    && c.uid == (if s.uid <= 2_147_483_647 then s.uid else -1)
    && c.inode == (if s.inode <= 9_223_372_036_854_775_807 then s.inode else -1)
  }

  lemma ExpectedIsReadBack(s: Socket, protocol: string)
    ensures ReadBack(Expected(s, protocol), s, protocol)
  {}

  lemma WordsConcat(a: seq<string>, b: seq<string>)
    requires Words(a) && Words(b)
    ensures Words(a + b)
  {}

  lemma ColumnsAreWords(s: Socket, o: Other, isIpv6: bool)
    requires Printable(s, isIpv6) && PlainOther(o)
    ensures Words(Columns(s, o))
    ensures ParseHexAddress(Columns(s, o)[1], isIpv6) == Some(Endpoint(Seen(s.local), s.localPort))
    ensures ParseHexAddress(Columns(s, o)[2], isIpv6) == Some(Endpoint(Seen(s.remote), s.remotePort))
    ensures Uid(Columns(s, o)[7]) == Expected(s, "").uid && Inode(Columns(s, o)[9]) == Expected(s, "").inode
  {
    var local, remote := PrintEndpoint(s.local, s.localPort), PrintEndpoint(s.remote, s.remotePort);
    EndpointRoundTrip(s.local, s.localPort);
    EndpointRoundTrip(s.remote, s.remotePort);
    NumberRoundTrip(s.uid, -INT_MAX - 1, INT_MAX);
    NumberRoundTrip(s.inode, -LONG_MAX - 1, LONG_MAX);
    WordsConcat(TenColumns(o.slot, local, remote, s.state, o.queues, o.timer, o.retransmits,
                           NatToString(s.uid), o.timeout, NatToString(s.inode)), o.more);
  }

  lemma FieldsRoundTrip(fields: seq<string>, s: Socket, protocol: string, isIpv6: bool)
    requires |fields| >= 10 && fields[3] == s.state
    requires ParseHexAddress(fields[1], isIpv6) == Some(Endpoint(Seen(s.local), s.localPort))
    requires ParseHexAddress(fields[2], isIpv6) == Some(Endpoint(Seen(s.remote), s.remotePort))
    requires Uid(fields[7]) == Expected(s, protocol).uid && Inode(fields[9]) == Expected(s, protocol).inode
    ensures ParseFields(fields, protocol, isIpv6) == Record(Expected(s, protocol))
  {}

  /** One line of a table: a socket, the ignored columns, and the padding. */
  datatype Printed = Printed(socket: Socket, other: Other, before: nat, gaps: seq<nat>, after: nat)

  predicate WellPrinted(p: Printed, isIpv6: bool) {
    Printable(p.socket, isIpv6) && PlainOther(p.other) && |p.gaps| == 10 + |p.other.more|
  }

  function LineText(p: Printed): string
    requires |p.gaps| == 10 + |p.other.more|
  {
    PrintLine(Columns(p.socket, p.other), p.before, p.gaps, p.after)
  }

  /** Printing a socket with any padding and decoding the line gives the socket back, uid and inode as
      far as they fit. */
  lemma LineRoundTrip(p: Printed, protocol: string, isIpv6: bool)
    requires WellPrinted(p, isIpv6)
    ensures ParseStandardLine(LineText(p), protocol, isIpv6) == Record(Expected(p.socket, protocol))
    ensures ReadBack(ParseStandardLine(LineText(p), protocol, isIpv6).connection, p.socket, protocol)
  {
    ExpectedIsReadBack(p.socket, protocol);
    ColumnsAreWords(p.socket, p.other, isIpv6);
    var columns := Columns(p.socket, p.other);
    LineTokens(columns, p.before, p.gaps, p.after);
    FieldsRoundTrip(columns, p.socket, protocol, isIpv6);
  }

  /** The uid and the inode survive exactly when they fit into 32 and 64 signed bits. */
  lemma NumbersSurviveIff(p: Printed, protocol: string, isIpv6: bool)
    requires WellPrinted(p, isIpv6)
    ensures var read := ParseStandardLine(LineText(p), protocol, isIpv6);
            && read.Record?
            && (read.connection.uid == p.socket.uid <==> p.socket.uid < 0x8000_0000)
            && (read.connection.inode == p.socket.inode <==> p.socket.inode < 0x8000_0000_0000_0000)
  {
    LineRoundTrip(p, protocol, isIpv6);
  }

  /** A whole table is read back, row by row; lines that are not records in between do no harm. */
  lemma {:induction false} TableRoundTrip(lines: seq<string>, printed: seq<Printed>, protocol: string, isIpv6: bool)
    requires Tabulates(lines, printed, protocol, isIpv6)
    ensures Records(lines, protocol, isIpv6) == Sockets(printed, protocol)
    decreases |lines|
  {
    if lines != [] {
      var n := |lines| - 1;
      if printed != [] && WellPrinted(printed[|printed| - 1], isIpv6) && lines[n] == LineText(printed[|printed| - 1])
         && Tabulates(lines[..n], printed[..|printed| - 1], protocol, isIpv6) {
        LineRoundTrip(printed[|printed| - 1], protocol, isIpv6);
        TableRoundTrip(lines[..n], printed[..|printed| - 1], protocol, isIpv6);
      } else {
        TableRoundTrip(lines[..n], printed, protocol, isIpv6);
      }
    }
  }

  /** One record per printed socket, in order, each saying what the socket is. */
  lemma TableReadBack(lines: seq<string>, printed: seq<Printed>, protocol: string, isIpv6: bool)
    requires Tabulates(lines, printed, protocol, isIpv6)
    ensures var records := Records(lines, protocol, isIpv6);
            && |records| == |printed|
            && forall i :: 0 <= i < |records| ==> ReadBack(records[i], printed[i].socket, protocol)
  {
    TableRoundTrip(lines, printed, protocol, isIpv6);
    forall i | 0 <= i < |printed|
      ensures ReadBack(Expected(printed[i].socket, protocol), printed[i].socket, protocol)
    {
      ExpectedIsReadBack(printed[i].socket, protocol);
    }
  }

  function Sockets(printed: seq<Printed>, protocol: string): (records: seq<RawConnection>)
    ensures |records| == |printed|
            && forall i :: 0 <= i < |printed| ==> records[i] == Expected(printed[i].socket, protocol)
  {
    if printed == [] then []
    else Sockets(printed[..|printed| - 1], protocol) + [Expected(printed[|printed| - 1].socket, protocol)]
  }

  /** The lines are the printed sockets in order, with lines that hold no record in between. */
  ghost predicate Tabulates(lines: seq<string>, printed: seq<Printed>, protocol: string, isIpv6: bool)
    decreases |lines|
  {
    if lines == [] then printed == []
    else
      var n := |lines| - 1;
      || (&& printed != [] && WellPrinted(printed[|printed| - 1], isIpv6)
          && lines[n] == LineText(printed[|printed| - 1])
          && Tabulates(lines[..n], printed[..|printed| - 1], protocol, isIpv6))
      || (!ParseStandardLine(lines[n], protocol, isIpv6).Record? && Tabulates(lines[..n], printed, protocol, isIpv6))
  }
}
