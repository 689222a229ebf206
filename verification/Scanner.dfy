/** The records a scan can report: what the parsers list, completed with process and user. */
module Scanner {
  import opened Text
  import opened Connections
  import opened ProcNet
  import opened FlowKeys

  /** A socket as a parser lists it. */
  datatype Raw = Raw(protocol: string, localAddress: string, localPort: int, remoteAddress: string, remotePort: int,
                     state: string, uid: int, inode: int)

  predicate IsInt(n: int) { -INT_MAX - 1 <= n <= INT_MAX }

  // ---------- the socket tables ----------

  /** The state column of TCP and DCCP; hexadecimal digits in either case. */
  function TcpState(hex: string): string
  {
    var code := Upper(hex);
    if code == "01" then "ESTABLISHED" else if code == "02" then "SYN_SENT" else if code == "03" then "SYN_RECV"
    else if code == "04" then "FIN_WAIT1" else if code == "05" then "FIN_WAIT2" else if code == "06" then "TIME_WAIT"
    else if code == "07" then "CLOSE" else if code == "08" then "CLOSE_WAIT" else if code == "09" then "LAST_ACK"
    else if code == "0A" then "LISTEN" else if code == "0B" then "CLOSING" else "UNKNOWN"
  }

  /** The kernel's TCP states, numbered from 1. */
  const TCP_STATES := ["ESTABLISHED", "SYN_SENT", "SYN_RECV", "FIN_WAIT1", "FIN_WAIT2", "TIME_WAIT", "CLOSE",
                       "CLOSE_WAIT", "LAST_ACK", "LISTEN", "CLOSING"]

  /** The number a two-digit hexadecimal text stands for, or 0 if it names no state. */
  function TcpCode(hex: string): (n: nat)
    ensures n <= 11
  {
    if |hex| != 2 || hex[0] != '0' then 0
    else if '1' <= hex[1] <= '9' then (hex[1] - '0') as nat
    else if hex[1] == 'A' || hex[1] == 'a' then 10
    else if hex[1] == 'B' || hex[1] == 'b' then 11
    else 0
  }

  lemma TwoChars(text: string, literal: string)
    requires |literal| == 2
    ensures text == literal <==> |text| == 2 && text[0] == literal[0] && text[1] == literal[1]
  {}

  /** The state column is the number of the state. */
  lemma TcpStateOfCode(hex: string)
    ensures TcpState(hex) == if TcpCode(hex) == 0 then "UNKNOWN" else TCP_STATES[TcpCode(hex) - 1]
  {
    var code := Upper(hex);
    TwoChars(code, "01");
    TwoChars(code, "02");
    TwoChars(code, "03");
    TwoChars(code, "04");
    TwoChars(code, "05");
    TwoChars(code, "06");
    TwoChars(code, "07");
    TwoChars(code, "08");
    TwoChars(code, "09");
    TwoChars(code, "0A");
    TwoChars(code, "0B");
  }

  /** A UDP state says only whether there is a peer. */
  function UdpState(remoteAddress: string, remotePort: int): string
  {
    if (remoteAddress == "0.0.0.0" || remoteAddress == "::") && remotePort == 0 then "UNCONNECTED" else "ESTABLISHED"
  }

  /** A record of the ten-column tables; the states of ICMP and raw sockets play no part here. */
  ghost predicate FromSocketTable(raw: Raw)
  {
    && (raw.protocol == "TCP" || raw.protocol == "UDP" || raw.protocol == "ICMP" || raw.protocol == "RAW"
        || raw.protocol == "DCCP")
    && (raw.protocol == "TCP" ==> exists hex :: raw.state == TcpState(hex))
    && (raw.protocol == "UDP" ==> raw.state == UdpState(raw.remoteAddress, raw.remotePort))
  }

  // ---------- the connection tracking table ----------

  /** The value of the first field with this prefix; a value equal to the initial one does not count. */
  function FirstValue(fields: seq<string>, prefix: string, initial: string): string
  {
    if fields == [] then initial
    else
      var before, last := FirstValue(fields[..|fields| - 1], prefix, initial), fields[|fields| - 1];
      if prefix <= last && before == initial then last[|prefix|..] else before
  }

  predicate IsStateWord(field: string)
  {
    && |field| > 2 && '=' !in field && field[0] != '[' && field == Upper(field)
    && TryParse(Trim(field), -INT_MAX - 1, INT_MAX).None?
  }

  function FirstState(fields: seq<string>): string
  {
    if fields == [] then "TRACKING" else if IsStateWord(fields[0]) then fields[0] else FirstState(fields[1..])
  }

  /** A word in capitals, longer than two characters, without an equals sign or a bracket in front, and no number. */
  ghost predicate PlainState(field: string)
  {
    && |field| > 2 && field[0] != '[' && TryParse(Trim(field), -2_147_483_648, 2_147_483_647) == None
    && forall i :: 0 <= i < |field| ==> field[i] != '=' && !('a' <= field[i] <= 'z')
  }

  lemma StateWordIff(field: string)
    ensures IsStateWord(field) <==> PlainState(field)
  {
    if IsStateWord(field) {
      assert forall i :: 0 <= i < |field| ==> field[i] == UpperChar(field[i]);
    }
    if PlainState(field) {
      assert forall i :: 0 <= i < |field| ==> Upper(field)[i] == field[i];
      assert Upper(field) == field;
    }
  }

  /** The state of a tracked flow is the first such word; without one it is TRACKING. */
  lemma {:induction false} StateIsFirstWord(fields: seq<string>, i: nat)
    requires i <= |fields| && forall j :: 0 <= j < i ==> !PlainState(fields[j])
    requires i < |fields| ==> PlainState(fields[i])
    ensures FirstState(fields) == if i < |fields| then fields[i] else "TRACKING"
  {
    if fields != [] {
      StateWordIff(fields[0]);
      if i > 0 { StateIsFirstWord(fields[1..], i - 1); }
    }
  }

  function PortOf(text: string): int
  {
    var n := TryParse(Trim(text), -INT_MAX - 1, INT_MAX);
    if n.Some? then n.value else 0
  }

  function OrUnknown(address: string): string { if address == "" then "?" else address }

  function ParseConntrackLine(line: string): Option<Raw>
  {
    var fields := Tokens(Trim(line));
    if |fields| < 8 then None
    else Some(Raw(Upper(fields[2]),
                  OrUnknown(FirstValue(fields, "src=", "")), PortOf(FirstValue(fields, "sport=", "0")),
                  OrUnknown(FirstValue(fields, "dst=", "")), PortOf(FirstValue(fields, "dport=", "0")),
                  FirstState(fields[4..]), -1, -1))
  }

  ghost predicate FromConntrack(raw: Raw) { exists line :: ParseConntrackLine(line) == Some(raw) }

  /** The remaining parsers list SCTP, MPTCP without ports, or protocols the live view never shows. */
  predicate FromOther(raw: Raw)
  {
    || raw.protocol == "SCTP"
    || (raw.protocol == "MPTCP" && raw.remotePort == 0)
    || Upper(raw.protocol) !in {"TCP", "UDP", "SCTP", "MPTCP"}
  }

  ghost predicate Listed(raw: Raw)
  {
    && IsInt(raw.localPort) && IsInt(raw.remotePort)
    && (FromSocketTable(raw) || FromConntrack(raw) || FromOther(raw))
  }

  // ---------- process and user ----------

  /** What the process resolver knows during a scan. */
  datatype Host = Host(pidOf: int -> Option<int>, nameOf: int -> string, commandOf: int -> string,
                       userOf: int -> string, ownerOf: int -> string)

  /** Socket links carry non-negative inode numbers, and process numbers are positive. */
  ghost predicate HostOk(h: Host)
  {
    h.pidOf(-1) == None && forall i :: h.pidOf(i).Some? ==> h.pidOf(i).value > 0
  }

  function PidOf(h: Host, inode: int): int { if h.pidOf(inode).Some? then h.pidOf(inode).value else -1 }

  function Enrich(h: Host, raw: Raw, capturedAt: int): Conn
  {
    var pid := PidOf(h, raw.inode);
    var user := if raw.uid >= 0 then h.userOf(raw.uid) else if pid > 0 then h.ownerOf(pid) else "Unknown";
    Conn(raw.protocol, raw.localAddress, raw.localPort, raw.remoteAddress, raw.remotePort, raw.state,
         pid, if pid > 0 then h.nameOf(pid) else "Unknown", user, if pid > 0 then h.commandOf(pid) else "", capturedAt)
  }

  /** Some host can yield this record in a scan. */
  ghost predicate CanBeScanned(c: Conn)
  {
    exists h: Host, raw: Raw :: HostOk(h) && Listed(raw) && c == Enrich(h, raw, c.capturedAt)
  }

  predicate NamesUdp(protocol: string) { EqualsIgnoreCase(protocol, "UDP") }

  lemma ConntrackHasNoProcess(raw: Raw)
    requires FromConntrack(raw)
    ensures raw.uid == -1 && raw.inode == -1
  {}

  lemma ListedUdp(raw: Raw)
    requires Listed(raw) && NamesUdp(raw.protocol)
    ensures raw.state == UdpState(raw.remoteAddress, raw.remotePort) || FromConntrack(raw)
  {
    assert Upper("UDP") == "UDP";
  }

  /** A scanned UDP record has the state its peer dictates, unless connection tracking lists it: then it
      has no process. */
  lemma ScannedUdp(c: Conn)
    requires CanBeScanned(c) && NamesUdp(c.protocol)
    ensures c.state == UdpState(c.remoteAddress, c.remotePort) || c.processId == -1
    ensures c.processId != -1 ==>
              c.state == if c.remotePort == 0 && c.remoteAddress in ["0.0.0.0", "::"]
                         then "UNCONNECTED" else "ESTABLISHED"
  {
    var h: Host, raw: Raw :| HostOk(h) && Listed(raw) && c == Enrich(h, raw, c.capturedAt);
    ListedUdp(raw);
    if FromConntrack(raw) { ConntrackHasNoProcess(raw); }
  }

  // ---------- two records that parsers do produce ----------

  /** The columns of a tracked UDP flow whose source was never filled in. */
  function TrackedColumns(localPort: string, remoteAddress: string, remotePort: string): (fields: seq<string>)
    ensures |fields| == 9
  {
    ["ipv4", "2", "udp", "17", "29", "src=0.0.0.0", "dst=" + remoteAddress, "sport=" + localPort, "dport=" + remotePort]
  }

  function TrackedLine(localPort: int, remoteAddress: string, remotePort: int): string
  {
    Padded(TrackedColumns(IntToString(localPort), remoteAddress, IntToString(remotePort)), seq(9, _ => 0))
  }

  predicate Clear(fields: seq<string>, prefix: string) { forall i :: 0 <= i < |fields| ==> !(prefix <= fields[i]) }

  lemma {:induction false} NoValue(fields: seq<string>, prefix: string, initial: string)
    requires Clear(fields, prefix)
    ensures FirstValue(fields, prefix, initial) == initial
  {
    if fields != [] { NoValue(fields[..|fields| - 1], prefix, initial); }
  }

  /** The one field with a prefix gives the value. */
  lemma {:induction false} OneValue(fields: seq<string>, prefix: string, initial: string, i: nat, value: string)
    requires i < |fields| && fields[i] == prefix + value
    requires forall j :: 0 <= j < |fields| && j != i ==> !(prefix <= fields[j])
    ensures FirstValue(fields, prefix, initial) == value
    decreases |fields|
  {
    var front := fields[..|fields| - 1];
    if i == |fields| - 1 {
      NoValue(front, prefix, initial);
      assert (prefix + value)[|prefix|..] == value;
    } else {
      OneValue(front, prefix, initial, i, value);
    }
  }

  lemma PlainWord(a: string, b: string)
    requires a != "" && (forall i :: 0 <= i < |a| ==> !IsBlank(a[i])) && (forall i :: 0 <= i < |b| ==> !IsBlank(b[i]))
    ensures Word(a + b)
  {}

  lemma TrackedAreWords(localPort: string, remoteAddress: string, remotePort: string)
    requires Word(localPort) && Word(remoteAddress) && Word(remotePort)
    ensures Words(TrackedColumns(localPort, remoteAddress, remotePort))
  {
    PlainWord("dst=", remoteAddress);
    PlainWord("sport=", localPort);
    PlainWord("dport=", remotePort);
  }

  /** Which prefix each of the columns has. */
  lemma TrackedPrefixes(localPort: string, remoteAddress: string, remotePort: string)
    ensures var f := TrackedColumns(localPort, remoteAddress, remotePort);
            && f[5] == "src=" + "0.0.0.0" && f[6] == "dst=" + remoteAddress
            && f[7] == "sport=" + localPort && f[8] == "dport=" + remotePort
            && (forall j :: 0 <= j < 9 && j != 5 ==> !("src=" <= f[j]))
            && (forall j :: 0 <= j < 9 && j != 6 ==> !("dst=" <= f[j]))
            && (forall j :: 0 <= j < 9 && j != 7 ==> !("sport=" <= f[j]))
            && (forall j :: 0 <= j < 9 && j != 8 ==> !("dport=" <= f[j]))
  {
    var f := TrackedColumns(localPort, remoteAddress, remotePort);
    assert f[0][0] == 'i' && f[1][0] == '2' && f[2][0] == 'u' && f[3][0] == '1' && f[4][0] == '2';
    assert f[5][0] == 's' && f[5][1] == 'r' && f[6][0] == 'd' && f[6][1] == 's';
    assert f[7][0] == 's' && f[7][1] == 'p' && f[8][0] == 'd' && f[8][1] == 'p';
  }

  lemma {:induction false} NoState(fields: seq<string>)
    requires forall i :: 0 <= i < |fields| ==> !IsStateWord(fields[i])
    ensures FirstState(fields) == "TRACKING"
  {
    if fields != [] { NoState(fields[1..]); }
  }

  lemma TrackedHasNoState(localPort: string, remoteAddress: string, remotePort: string)
    ensures FirstState(TrackedColumns(localPort, remoteAddress, remotePort)[4..]) == "TRACKING"
  {
    var f := TrackedColumns(localPort, remoteAddress, remotePort);
    assert |f[4]| == 2 && f[5][3] == '=' && f[6][3] == '=' && f[7][5] == '=' && f[8][5] == '=';
    NoState(f[4..]);
  }

  lemma PortRoundTrip(n: int)
    requires IsInt(n)
    ensures PortOf(IntToString(n)) == n && Word(IntToString(n))
  {
    ParsePrinted(n, -INT_MAX - 1, INT_MAX);
    var s := IntToString(n);
    assert forall i :: 0 <= i < |s| ==> IsDigit(s[i]) || s[i] == '-';
    TrimPlain(s);
  }

  function TrackedRaw(localPort: int, remoteAddress: string, remotePort: int): Raw
  {
    Raw("UDP", "0.0.0.0", localPort, remoteAddress, remotePort, "TRACKING", -1, -1)
  }

  lemma NothingAround(columns: seq<string>, gaps: seq<nat>)
    requires |columns| > 0 && |gaps| == |columns|
    ensures PrintLine(columns, 0, gaps, 0) == Padded(columns, gaps)
  {
    assert Spaces(0) == "";
  }

  lemma TrackedTokens(localPort: int, remoteAddress: string, remotePort: int)
    requires IsInt(localPort) && IsInt(remotePort) && Word(remoteAddress)
    ensures Tokens(Trim(TrackedLine(localPort, remoteAddress, remotePort)))
         == TrackedColumns(IntToString(localPort), remoteAddress, IntToString(remotePort))
  {
    var f := TrackedColumns(IntToString(localPort), remoteAddress, IntToString(remotePort));
    var gaps: seq<nat> := seq(9, _ => 0);
    PortRoundTrip(localPort);
    PortRoundTrip(remotePort);
    TrackedAreWords(IntToString(localPort), remoteAddress, IntToString(remotePort));
    LineTokens(f, 0, gaps, 0);
    NothingAround(f, gaps);
  }

  /** The connection tracking parser lists a UDP flow with an unspecified source as such, without a
      state of its own. */
  lemma TrackedIsParsed(localPort: int, remoteAddress: string, remotePort: int)
    requires IsInt(localPort) && IsInt(remotePort) && Word(remoteAddress)
    ensures ParseConntrackLine(TrackedLine(localPort, remoteAddress, remotePort))
         == Some(TrackedRaw(localPort, remoteAddress, remotePort))
  {
    var local, remote := IntToString(localPort), IntToString(remotePort);
    var f := TrackedColumns(local, remoteAddress, remote);
    TrackedTokens(localPort, remoteAddress, remotePort);
    TrackedPrefixes(local, remoteAddress, remote);
    OneValue(f, "src=", "", 5, "0.0.0.0");
    OneValue(f, "dst=", "", 6, remoteAddress);
    OneValue(f, "sport=", "0", 7, local);
    OneValue(f, "dport=", "0", 8, remote);
    TrackedHasNoState(local, remoteAddress, remote);
    PortRoundTrip(localPort);
    PortRoundTrip(remotePort);
    UdpName();
  }

  lemma UdpName()
    ensures Upper("udp") == "UDP" == Upper("UDP") && Upper("TCP") == "TCP"
  {}

  /** What any host makes of it. */
  function TrackedConn(localPort: int, remoteAddress: string, remotePort: int, at: int): Conn
  {
    Conn("UDP", "0.0.0.0", localPort, remoteAddress, remotePort, "TRACKING", -1, "Unknown", "Unknown", "", at)
  }

  lemma TrackedCanBeScanned(h: Host, localPort: int, remoteAddress: string, remotePort: int, at: int)
    requires HostOk(h) && IsInt(localPort) && IsInt(remotePort) && Word(remoteAddress)
    ensures CanBeScanned(TrackedConn(localPort, remoteAddress, remotePort, at))
  {
    var raw := TrackedRaw(localPort, remoteAddress, remotePort);
    TrackedIsParsed(localPort, remoteAddress, remotePort);
    assert FromConntrack(raw) && Listed(raw);
    assert Enrich(h, raw, at) == TrackedConn(localPort, remoteAddress, remotePort, at);
  }

  /** A TCP socket of the tables, of any known process and user, can be scanned. */
  lemma TcpCanBeScanned(c: Conn, hex: string)
    requires c.protocol == "TCP" && c.state == TcpState(hex) && c.processId > 0 && IsInt(c.localPort)
             && IsInt(c.remotePort)
    ensures CanBeScanned(c)
  {
    var h := Host(i => if i == -1 then None else Some(c.processId), _ => c.processName, _ => c.commandLine,
                  _ => c.userName, _ => c.userName);
    var raw := Raw("TCP", c.localAddress, c.localPort, c.remoteAddress, c.remotePort, c.state, 0, 0);
    assert FromSocketTable(raw) && Listed(raw);
    assert Enrich(h, raw, c.capturedAt) == c;
  }

  /** A record of the ten columns as the program files it; `text` renders addresses. */
  function RawOf(r: RawConnection, text: Address -> string): Raw
  {
    var remote := text(r.remote.address);
    var state := if r.protocol == "UDP" then UdpState(remote, r.remote.port) else TcpState(r.state);
    Raw(r.protocol, text(r.local.address), r.local.port, remote, r.remote.port, state, r.uid, r.inode)
  }

  /** What the decoder reads from a TCP or UDP table is such a record. */
  lemma DecodedIsListed(line: string, protocol: string, isIpv6: bool, text: Address -> string)
    requires protocol == "TCP" || protocol == "UDP"
    ensures var o := ParseStandardLine(line, protocol, isIpv6); o.Record? ==> Listed(RawOf(o.connection, text))
  {
    var o := ParseStandardLine(line, protocol, isIpv6);
    if o.Record? {
      var fields := Tokens(Trim(line));
      PortsAreInts(fields[1], isIpv6);
      PortsAreInts(fields[2], isIpv6);
      assert FromSocketTable(RawOf(o.connection, text));
    }
  }

  lemma PortsAreInts(text: string, isIpv6: bool)
    ensures var e := ParseHexAddress(text, isIpv6); e.Some? ==> IsInt(e.value.port)
  {}

  /** The TCP table may list a socket whose local address is still unspecified, in any state. */
  lemma WildcardSocketIsListed(p: Printed, text: Address -> string)
    requires WellPrinted(p, false) && p.socket.local == Ip4(ZERO4)
    ensures var o := ParseStandardLine(LineText(p), "TCP", false);
            && o.Record? && Listed(RawOf(o.connection, text))
            && RawOf(o.connection, text).localAddress == text(Ip4(ZERO4))
            && RawOf(o.connection, text).state == TcpState(p.socket.state)
  {
    LineRoundTrip(p, "TCP", false);
    DecodedIsListed(LineText(p), "TCP", false, text);
  }

  lemma ScannedPorts(c: Conn)
    requires CanBeScanned(c)
    ensures IsInt(c.localPort) && IsInt(c.remotePort)
  {}
}
