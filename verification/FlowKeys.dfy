/** The kernel side's flow keys: how a socket and a message name are turned into addresses, ports
    and an IP version, in memory order, and what of that the emitted event shows. */
module FlowKeys {

  type Byte = b: int | 0 <= b < 256
  type U16 = p: int | 0 <= p < 0x1_0000
  type V4 = a: seq<Byte> | |a| == 4 witness [0, 0, 0, 0]
  type V6 = a: seq<Byte> | |a| == 16 witness [0, 0, 0, 0, 0, 0, 0, 0, 0, 0, 0, 0, 0, 0, 0, 0]

  const AF_INET: U16 := 2
  const AF_INET6: U16 := 10
  const RAW := 255
  const TCP := 6
  const ZERO4: V4 := [0, 0, 0, 0]
  const ZERO6: V6 := [0, 0, 0, 0, 0, 0, 0, 0, 0, 0, 0, 0, 0, 0, 0, 0]

  datatype FlowKey = FlowKey(
    saddrV4: V4, daddrV4: V4, saddrV6: V6, daddrV6: V6, sport: U16, dport: U16, ipVersion: nat)

  const ZERO_KEY := FlowKey(ZERO4, ZERO4, ZERO6, ZERO6, 0, 0, 0)

  /** What the probe can read of a socket; `dport` is in network byte order. */
  datatype SockMem = SockMem(
    family: U16, rcvSaddr: V4, daddr: V4, v6RcvSaddr: V6, v6Daddr: V6,
    num: U16, dport: U16, protocol: U16, sockType: U16, uid: nat)

  /** The message's destination name: none, or a socket address whose body may be unreadable. */
  datatype MsgName = Absent | Sockaddr(family: U16, readable: bool, addr4: V4, addr6: V6, port: U16)

  /** Swap the two bytes of a port. */
  function Ntohs(p: U16): U16 { p % 256 * 256 + p / 256 }

  // ---------- mapped addresses (section 2.5.5.2 of RFC 4291) ----------

  function Mapped(a: V4): V6 { ZERO6[..10] + [0xff, 0xff] + a }

  function Last4(a: V6): V4 { a[12..] }

  predicate IsMapped(a: V6) { a[..12] == ZERO6[..10] + [0xff, 0xff] }

  /** Mapping loses nothing, and exactly the mapped addresses survive the way back. */
  lemma MappedRoundTrip(a: V4, b: V6)
    ensures Last4(Mapped(a)) == a && IsMapped(Mapped(a))
    ensures Mapped(Last4(b)) == b <==> IsMapped(b)
  {
    assert Mapped(Last4(b))[..12] == ZERO6[..10] + [0xff, 0xff];
    assert b == b[..12] + b[12..];
  }

  // ---------- the specification ----------

  /** The destination name is used: it is there, readable and of an IP family, and this is not TCP. */
  predicate UsesName(name: MsgName, report: nat)
  {
    report != TCP && name.Sockaddr? && name.readable && (name.family == AF_INET || name.family == AF_INET6)
  }

  function Version(sock: SockMem, name: MsgName, report: nat): nat
  {
    if UsesName(name, report) then (if name.family == AF_INET then 4 else 6)
    else if sock.family == AF_INET6 then 6 else 4
  }

  /** The socket's own address as an IPv4 address. An unknown family has one only when the
      destination comes from the socket as well. */
  function Source4(sock: SockMem, named: bool): V4
  {
    if !named || sock.family == AF_INET then sock.rcvSaddr
    else if sock.family == AF_INET6 then Last4(sock.v6RcvSaddr)
    else ZERO4
  }

  function Source6(sock: SockMem): V6
  {
    if sock.family == AF_INET6 then sock.v6RcvSaddr
    else if sock.family == AF_INET then Mapped(sock.rcvSaddr)
    else ZERO6
  }

  /** The key of a flow before its source port is filled in. */
  function Resolved(sock: SockMem, name: MsgName, report: nat): FlowKey
  {
    var named := UsesName(name, report);
    var dport: U16 := if report == RAW then 0 else Ntohs(if named then name.port else sock.dport);
    if Version(sock, name, report) == 4 then
      FlowKey(Source4(sock, named), if named then name.addr4 else sock.daddr, ZERO6, ZERO6, 0, dport, 4)
    else
      FlowKey(ZERO4, ZERO4, Source6(sock), if named then name.addr6 else sock.v6Daddr, 0, dport, 6)
  }

  // ---------- what an event shows ----------

  /** The address part of an event: only the slots of its own IP version are copied from the key. */
  datatype Endpoints = Endpoints(
    ipVersion: nat, saddrV4: V4, daddrV4: V4, saddrV6: V6, daddrV6: V6, sport: U16, dport: U16)

  function Shown(key: FlowKey): Endpoints
  {
    if key.ipVersion == 4 then Endpoints(4, key.saddrV4, key.daddrV4, ZERO6, ZERO6, key.sport, key.dport)
    else Endpoints(key.ipVersion, ZERO4, ZERO4, key.saddrV6, key.daddrV6, key.sport, key.dport)
  }

  function KeyShown(e: Endpoints): FlowKey
  {
    FlowKey(e.saddrV4, e.daddrV4, e.saddrV6, e.daddrV6, e.sport, e.dport, e.ipVersion)
  }

  // ---------- the same in plain terms, for every branch ----------

  ghost predicate AllZero(a: seq<Byte>) { forall i :: 0 <= i < |a| ==> a[i] == 0 }

  /** The two bytes of a port as they lie in memory. */
  function PortBytes(p: U16): (bytes: seq<Byte>)
    ensures |bytes| == 2 && p == bytes[0] as int + 256 * bytes[1] as int
  {
    [p % 256, p / 256]
  }

  /** Network order: the first byte counts 256 times. */
  predicate ShowsPort(stored: U16, shown: U16)
  {
    shown == 256 * PortBytes(stored)[0] as int + PortBytes(stored)[1] as int
  }

  /** Both ends are the socket's own: its address and its peer. */
  predicate ToPeer(sock: SockMem, e: Endpoints)
  {
    && (sock.family == 10 ==> e.ipVersion == 6 && e.saddrV6 == sock.v6RcvSaddr && e.daddrV6 == sock.v6Daddr)
    && (sock.family != 10 ==> e.ipVersion == 4 && e.saddrV4 == sock.rcvSaddr && e.daddrV4 == sock.daddr)
  }

  /** To an IPv4 name: the source is the socket's own address, the last four bytes of an IPv6 one. */
  ghost predicate To4(sock: SockMem, addr: V4, e: Endpoints)
  {
    && e.ipVersion == 4 && e.daddrV4 == addr
    && (sock.family == 2 ==> e.saddrV4 == sock.rcvSaddr)
    && (sock.family == 10 ==> forall i :: 0 <= i < 4 ==> e.saddrV4[i] == sock.v6RcvSaddr[12 + i])
    && (sock.family != 2 && sock.family != 10 ==> AllZero(e.saddrV4))
  }

  /** To an IPv6 name: the source is the socket's own address, a mapped one for IPv4. */
  ghost predicate To6(sock: SockMem, addr: V6, e: Endpoints)
  {
    && e.ipVersion == 6 && e.daddrV6 == addr
    && (sock.family == 10 ==> e.saddrV6 == sock.v6RcvSaddr)
    && (sock.family == 2 ==> e.saddrV6 == [0, 0, 0, 0, 0, 0, 0, 0, 0, 0, 255, 255] + sock.rcvSaddr)
    && (sock.family != 2 && sock.family != 10 ==> AllZero(e.saddrV6))
  }

  /** The addresses an event of transport `protocol` shows. A name that is missing, unreadable or of another
      family counts for nothing, and none counts for TCP. */
  ghost predicate EndsShown(sock: SockMem, name: MsgName, protocol: nat, e: Endpoints)
  {
    && (protocol == 6 || name == Absent || !name.readable || name.family !in {2, 10} ==> ToPeer(sock, e))
    && (protocol != 6 && name.Sockaddr? && name.readable && name.family == 2 ==> To4(sock, name.addr4, e))
    && (protocol != 6 && name.Sockaddr? && name.readable && name.family == 10 ==> To6(sock, name.addr6, e))
    && (e.ipVersion == 4 ==> AllZero(e.saddrV6) && AllZero(e.daddrV6))
    && (e.ipVersion == 6 ==> AllZero(e.saddrV4) && AllZero(e.daddrV4))
  }

  /** The destination port: none for raw sockets, otherwise the name's or the peer's. */
  predicate PortShown(sock: SockMem, name: MsgName, protocol: nat, e: Endpoints)
  {
    && (protocol == 255 ==> e.dport == 0)
    && (protocol != 255 && protocol != 6 && name.Sockaddr? && name.readable && name.family in {2, 10} ==>
          ShowsPort(name.port, e.dport))
    && (protocol != 255 && (protocol == 6 || name == Absent || !name.readable || name.family !in {2, 10}) ==>
          ShowsPort(sock.dport, e.dport))
  }

  ghost predicate Addressed(sock: SockMem, name: MsgName, protocol: nat, e: Endpoints)
  {
    EndsShown(sock, name, protocol, e) && PortShown(sock, name, protocol, e)
  }

  lemma PeerResolved(sock: SockMem, name: MsgName, report: nat, sport: U16)
    requires !UsesName(name, report)
    ensures EndsShown(sock, name, report, Shown(Resolved(sock, name, report).(sport := sport)))
  {}

  lemma NameResolved(sock: SockMem, name: MsgName, report: nat, sport: U16)
    requires UsesName(name, report)
    ensures EndsShown(sock, name, report, Shown(Resolved(sock, name, report).(sport := sport)))
  {}

  lemma PortResolved(sock: SockMem, name: MsgName, report: nat, sport: U16)
    ensures PortShown(sock, name, report, Shown(Resolved(sock, name, report).(sport := sport)))
  {}

  /** What the specification makes an event show. */
  lemma ResolvedAddressed(sock: SockMem, name: MsgName, report: nat, sport: U16)
    ensures var e := Shown(Resolved(sock, name, report).(sport := sport));
            Addressed(sock, name, report, e) && e.sport == sport
  {
    PortResolved(sock, name, report, sport);
    if UsesName(name, report) {
      NameResolved(sock, name, report, sport);
    } else {
      PeerResolved(sock, name, report, sport);
    }
  }

  // ---------- the code: a struct filled in through a pointer ----------

  class FlowKeyStruct {
    var saddrV4: V4
    var daddrV4: V4
    var saddrV6: V6
    var daddrV6: V6
    var sport: U16
    var dport: U16
    var ipVersion: nat

    /** memset to zero */
    constructor ()
      ensures Value() == ZERO_KEY
    {
      saddrV4, daddrV4, saddrV6, daddrV6 := ZERO4, ZERO4, ZERO6, ZERO6;
      sport, dport, ipVersion := 0, 0, 0;
    }

    function Value(): FlowKey
      reads this
    {
      FlowKey(saddrV4, daddrV4, saddrV6, daddrV6, sport, dport, ipVersion)
    }
  }

  method ResolveFlowKey(key: FlowKeyStruct, sock: SockMem, name: MsgName, report: nat)
    requires key.Value() == ZERO_KEY
    modifies key
    ensures key.Value() == Resolved(sock, name, report)
    ensures Addressed(sock, name, report, Shown(key.Value())) && key.sport == 0
  {
    ResolvedAddressed(sock, name, report, 0);
    var ipVersion := if sock.family == AF_INET6 then 6 else 4;
    key.ipVersion := ipVersion;
    var resolved := false;
    if name.Sockaddr? && report != TCP {
      if name.family == AF_INET {
        if name.readable {
          key.daddrV4 := name.addr4;
          key.dport := if report == RAW then 0 else Ntohs(name.port);
          key.ipVersion := 4;
          if sock.family == AF_INET {
            key.saddrV4 := sock.rcvSaddr;
          } else if sock.family == AF_INET6 {
            key.saddrV4 := sock.v6RcvSaddr[12..];
          }
          resolved := true;
        }
      } else if name.family == AF_INET6 {
        if name.readable {
          key.daddrV6 := name.addr6;
          key.dport := if report == RAW then 0 else Ntohs(name.port);
          key.ipVersion := 6;
          if sock.family == AF_INET6 {
            key.saddrV6 := sock.v6RcvSaddr;
          } else if sock.family == AF_INET {
            key.saddrV6 := key.saddrV6[10 := 0xff];
            key.saddrV6 := key.saddrV6[11 := 0xff];
            key.saddrV6 := key.saddrV6[..12] + sock.rcvSaddr;
          }
          resolved := true;
        }
      }
    }
    if !resolved {
      if ipVersion == 4 {
        key.saddrV4 := sock.rcvSaddr;
        key.daddrV4 := sock.daddr;
      } else {
        key.saddrV6 := sock.v6RcvSaddr;
        key.daddrV6 := sock.v6Daddr;
      }
      key.dport := if report == RAW then 0 else Ntohs(sock.dport);
    }
  }

  // ---------- keys and events ----------

  /** On every branch the slots of the other IP version stay zero, so an event gives its key back. */
  lemma KeyIsRecoverable(sock: SockMem, name: MsgName, report: nat, sport: U16)
    ensures var key := Resolved(sock, name, report).(sport := sport);
            && (key.ipVersion == 4 ==> key.saddrV6 == ZERO6 && key.daddrV6 == ZERO6)
            && (key.ipVersion == 6 ==> key.saddrV4 == ZERO4 && key.daddrV4 == ZERO4)
            && (key.ipVersion == 4 || key.ipVersion == 6)
            && KeyShown(Shown(key)) == key
  {}

  /** Two flows have one key exactly when their events show the same version, addresses and ports;
      the protocol plays no part. */
  lemma SameKeyIffSameEndpoints(s1: SockMem, n1: MsgName, r1: nat, p1: U16, s2: SockMem, n2: MsgName, r2: nat, p2: U16)
    ensures var k1, k2 := Resolved(s1, n1, r1).(sport := p1), Resolved(s2, n2, r2).(sport := p2);
            k1 == k2 <==> Shown(k1) == Shown(k2)
  {
    KeyIsRecoverable(s1, n1, r1, p1);
    KeyIsRecoverable(s2, n2, r2, p2);
  }

  /** A source address that went from an IPv4 socket into a mapped IPv6 one comes back unchanged:
      an IPv6 socket bound to the reported address reports the original when it sends to IPv4. */
  lemma SourceSurvivesMapping(s4: SockMem, s6: SockMem, to6: MsgName, to4: MsgName, report: nat)
    requires s4.family == AF_INET && UsesName(to6, report) && to6.family == AF_INET6
    requires s6.family == AF_INET6 && UsesName(to4, report) && to4.family == AF_INET
    requires s6.v6RcvSaddr == Resolved(s4, to6, report).saddrV6
    ensures Resolved(s6, to4, report).saddrV4 == s4.rcvSaddr
  {
    MappedRoundTrip(s4.rcvSaddr, ZERO6);
  }

  // ---------- the other hooks that use the same map ----------

  /** A 32-bit number in little-endian memory order. */
  function BytesOf32(n: nat): V4
  {
    var n1 := n / 256;
    var n2 := n1 / 256;
    [n % 256, n1 % 256, n2 % 256, n2 / 256 % 256]
  }

  function From32(a: V4): nat { (a[0] as nat) + 256 * ((a[1] as nat) + 256 * ((a[2] as nat) + 256 * (a[3] as nat))) }

  lemma Bytes32RoundTrip(n: nat)
    requires n < 0x1_0000_0000
    ensures From32(BytesOf32(n)) == n
  {
    var n1 := n / 256;
    var n2 := n1 / 256;
    assert n == n % 256 + 256 * n1 && n1 == n1 % 256 + 256 * n2 && n2 == n2 % 256 + 256 * (n2 / 256);
    assert n2 / 256 % 256 == n2 / 256;
  }

  function NonIpKey(pid: nat, sockType: U16): FlowKey { ZERO_KEY.(saddrV4 := BytesOf32(pid), sport := sockType) }

  function ArpKey(arpType: nat, destIp: V4, srcIp: V4): FlowKey
  {
    ZERO_KEY.(ipVersion := 4, saddrV4 := srcIp, daddrV4 := destIp, sport := arpType % 0x1_0000)
  }

  /** Non-IP flows are told apart by process and socket type, and never share a key with an IP flow. */
  lemma NonIpKeysAreTheirOwn(pid: nat, sockType: U16, pid': nat, sockType': U16,
                             sock: SockMem, name: MsgName, report: nat, sport: U16)
    requires pid < 0x1_0000_0000 && pid' < 0x1_0000_0000
    ensures NonIpKey(pid, sockType) == NonIpKey(pid', sockType') <==> pid == pid' && sockType == sockType'
    ensures NonIpKey(pid, sockType) != Resolved(sock, name, report).(sport := sport)
  {
    if NonIpKey(pid, sockType) == NonIpKey(pid', sockType') {
      Bytes32RoundTrip(pid);
      Bytes32RoundTrip(pid');
    }
  }

  /** An ARP message shares its key with a raw IPv4 flow exactly when the addresses agree and the raw
      protocol number equals the ARP type: then the two throttle each other. */
  lemma ArpSharesRawKeyIff(arpType: nat, destIp: V4, srcIp: V4, sock: SockMem, name: MsgName, protocol: U16)
    ensures ArpKey(arpType, destIp, srcIp) == Resolved(sock, name, RAW).(sport := protocol) <==>
            && Version(sock, name, RAW) == 4
            && Resolved(sock, name, RAW).saddrV4 == srcIp && Resolved(sock, name, RAW).daddrV4 == destIp
            && protocol == arpType % 0x1_0000
  {}
}
