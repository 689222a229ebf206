/** Connection records and the text key under which the reconciler, the fallback scanner and the
    live table file them. */
module Connections {
  import opened Text

  /** The field values of a NetworkConnection; `capturedAt` is in ticks. */
  datatype Conn = Conn(
    protocol: string,
    localAddress: string, localPort: int,
    remoteAddress: string, remotePort: int,
    state: string,
    processId: int, processName: string, userName: string, commandLine: string,
    capturedAt: int)

  function GetConnectionKey(c: Conn): string
  {
    c.protocol + "|" + c.localAddress + ":" + IntToString(c.localPort)
      + "|" + c.remoteAddress + ":" + IntToString(c.remotePort)
  }

  function LocalText(c: Conn): string { c.localAddress + ":" + IntToString(c.localPort) }

  function RemoteText(c: Conn): string { c.remoteAddress + ":" + IntToString(c.remotePort) }

  /** A key is three parts set apart by the separator. */
  lemma KeyParts(c: Conn)
    ensures GetConnectionKey(c) == c.protocol + ['|'] + (LocalText(c) + ['|'] + RemoteText(c))
  {
    var local, port, remote := c.localAddress, IntToString(c.localPort), RemoteText(c);
    assert c.protocol + "|" + local + ":" + port == c.protocol + ['|'] + LocalText(c);
    assert c.protocol + ['|'] + LocalText(c) + "|" + c.remoteAddress + ":" + IntToString(c.remotePort)
        == c.protocol + ['|'] + (LocalText(c) + ['|'] + remote);
  }

  predicate SameEndpoints(a: Conn, b: Conn)
  {
    && a.protocol == b.protocol
    && a.localAddress == b.localAddress && a.localPort == b.localPort
    && a.remoteAddress == b.remoteAddress && a.remotePort == b.remotePort
  }

  /** Only the protocol and the local address have to be free of the separator. */
  predicate Unambiguous(c: Conn) { '|' !in c.protocol && '|' !in c.localAddress }

  lemma EndpointTextInjective(addr: string, port: int, addr': string, port': int)
    requires addr + ":" + IntToString(port) == addr' + ":" + IntToString(port')
    ensures addr == addr' && port == port'
  {
    LastCutUnique(addr, IntToString(port), addr', IntToString(port'), ':');
    IntToStringInjective(port, port');
  }

  /** The protocol can always be read off a key when neither protocol holds a separator. */
  lemma KeyGivesProtocol(a: Conn, b: Conn)
    requires '|' !in a.protocol && '|' !in b.protocol
    requires GetConnectionKey(a) == GetConnectionKey(b)
    ensures a.protocol == b.protocol
    ensures LocalText(a) + ['|'] + RemoteText(a) == LocalText(b) + ['|'] + RemoteText(b)
  {
    KeyParts(a);
    KeyParts(b);
    var resta, restb := LocalText(a) + ['|'] + RemoteText(a), LocalText(b) + ['|'] + RemoteText(b);
    FirstCutUnique(a.protocol, resta, b.protocol, restb, '|');
  }

  /** Colons in addresses do no harm: equal keys mean equal endpoints, all five fields of them. */
  lemma KeyInjective(a: Conn, b: Conn)
    requires Unambiguous(a) && Unambiguous(b)
    ensures GetConnectionKey(a) == GetConnectionKey(b) <==> SameEndpoints(a, b)
  {
    if GetConnectionKey(a) == GetConnectionKey(b) {
      KeyGivesProtocol(a, b);
      FirstCutUnique(LocalText(a), RemoteText(a), LocalText(b), RemoteText(b), '|');
      EndpointTextInjective(a.localAddress, a.localPort, b.localAddress, b.localPort);
      EndpointTextInjective(a.remoteAddress, a.remotePort, b.remoteAddress, b.remotePort);
    }
  }

  /** A separator inside the local address is enough to make two different connections share a key. */
  lemma SeparatorBreaksKey() returns (a: Conn, b: Conn)
    ensures GetConnectionKey(a) == GetConnectionKey(b) && !SameEndpoints(a, b)
    ensures '|' !in a.localAddress && '|' !in b.protocol
  {
    a := Conn("A|B", "C", 1, "R", 2, "", -1, "", "", "", 0);
    b := Conn("A", "B|C", 1, "R", 2, "", -1, "", "", "", 0);
    var tail := ":" + IntToString(1) + "|" + "R" + ":" + IntToString(2);
    assert GetConnectionKey(a) == "A|B" + "|" + "C" + tail;
    assert GetConnectionKey(b) == "A" + "|" + "B|C" + tail;
    assert "A|B" + "|" + "C" == "A" + "|" + "B|C";
  }

  // ---------- wildcard local addresses ----------

  predicate IsWildcard(c: Conn) { c.localAddress == "0.0.0.0" || c.localAddress == "::" }

  /** `resolve(remote address, remote port)` stands for the routing lookup. */
  type Resolver = (string, int) -> string

  /** What the consumer works with: a record whose wildcard local address has been replaced. */
  function Concrete(resolve: Resolver, c: Conn): Conn
  {
    if IsWildcard(c) then c.(localAddress := resolve(c.remoteAddress, c.remotePort)) else c
  }

  function LiveKey(resolve: Resolver, c: Conn): string { GetConnectionKey(Concrete(resolve, c)) }

  /** The reconciler's key of an unambiguous record fixes the live table's key. */
  lemma KeyFixesLiveKey(resolve: Resolver, a: Conn, b: Conn)
    requires Unambiguous(a) && Unambiguous(b)
    requires GetConnectionKey(a) == GetConnectionKey(b)
    ensures LiveKey(resolve, a) == LiveKey(resolve, b)
  {
    KeyInjective(a, b);
  }
}
