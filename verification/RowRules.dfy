/** The consumer's rules in plain terms: which remote addresses are of interest, by octet and by group,
    which records are listed, and what an event does to the table. */
module RowRules {
  import opened Text
  import opened Connections
  import opened Pipeline
  import opened Filters

  // ---------- addresses by octet ----------

  /** An octet and its dot, as in the text of an IPv4 address. */
  function Octet(n: nat): string { NatToString(n) + "." }

  lemma DigitsHaveNoDot(n: nat)
    ensures '.' !in NatToString(n)
  {
    var s := NatToString(n);
    assert forall i :: 0 <= i < |s| ==> IsDigit(s[i]);
  }

  /** A text begins with one octet only. */
  lemma OctetPrefixIff(m: nat, n: nat, rest: string)
    ensures Octet(m) <= Octet(n) + rest <==> m == n
  {
    var text := Octet(n) + rest;
    if Octet(m) <= text {
      var tail := text[|Octet(m)|..];
      assert text == Octet(m) + tail;
      assert text == NatToString(m) + ['.'] + tail && text == NatToString(n) + ['.'] + rest;
      DigitsHaveNoDot(m);
      DigitsHaveNoDot(n);
      FirstCutUnique(NatToString(m), tail, NatToString(n), rest, '.');
      NatRoundTrip(m);
      NatRoundTrip(n);
    }
  }

  lemma ThreeDigits(n: nat)
    requires 100 <= n < 1000
    ensures NatToString(n) == [DigitChar(n / 100), DigitChar(n / 10 % 10), DigitChar(n % 10)]
  {
    assert NatToString(n / 10 / 10) == [DigitChar(n / 100)];
    assert NatToString(n / 10) == NatToString(n / 10 / 10) + [DigitChar(n / 10 % 10)];
    assert NatToString(n) == NatToString(n / 10) + [DigitChar(n % 10)];
  }

  /** The hundreds, tens and units of an octet that begins with 2. */
  lemma TwoHundred(tens: nat, units: nat)
    requires tens < 10 && units < 10
    ensures Octet(200 + 10 * tens + units) == ['2', DigitChar(tens), DigitChar(units), '.']
  {
    var n := 200 + 10 * tens + units;
    ThreeDigits(n);
    assert n / 100 == 2 && n / 10 % 10 == tens && n % 10 == units;
  }

  lemma OctetText(literal: string, tens: nat, units: nat, a: nat, rest: string)
    requires tens < 10 && units < 10 && literal == ['2', DigitChar(tens), DigitChar(units), '.']
    ensures StartsWith(Octet(a) + rest, literal) <==> a == 200 + 10 * tens + units
  {
    TwoHundred(tens, units);
    OctetPrefixIff(200 + 10 * tens + units, a, rest);
  }

  lemma DigitFirst(a: nat, rest: string)
    ensures |Octet(a) + rest| > 0 && IsDigit((Octet(a) + rest)[0])
    ensures Upper(Octet(a) + rest)[0] == (Octet(a) + rest)[0]
  {
    assert (Octet(a) + rest)[0] == NatToString(a)[0];
  }

  /** The multicast prefixes are exactly the octets from 224 to 239. */
  lemma MulticastIff(a: nat, rest: string)
    ensures Multicast(Octet(a) + rest) <==> 224 <= a <= 239 || Octet(a) + rest == "255.255.255.255"
  {
    DigitFirst(a, rest);
    assert "FF"[0] == 'F';
    OctetText("224.", 2, 4, a, rest);
    OctetText("225.", 2, 5, a, rest);
    OctetText("226.", 2, 6, a, rest);
    OctetText("227.", 2, 7, a, rest);
    OctetText("228.", 2, 8, a, rest);
    OctetText("229.", 2, 9, a, rest);
    OctetText("230.", 3, 0, a, rest);
    OctetText("231.", 3, 1, a, rest);
    OctetText("232.", 3, 2, a, rest);
    OctetText("233.", 3, 3, a, rest);
    OctetText("234.", 3, 4, a, rest);
    OctetText("235.", 3, 5, a, rest);
    OctetText("236.", 3, 6, a, rest);
    OctetText("237.", 3, 7, a, rest);
    OctetText("238.", 3, 8, a, rest);
    OctetText("239.", 3, 9, a, rest);
  }

  lemma LocalTexts()
    ensures Octet(127) == "127." && Octet(169) + Octet(254) == "169.254." && Octet(0) == "0."
  {
    ThreeDigits(127);
    ThreeDigits(169);
    ThreeDigits(254);
    assert NatToString(0) == [DigitChar(0)];
    assert Octet(169) + Octet(254) == ['1', '6', '9', '.', '2', '5', '4', '.'];
  }

  lemma LoopbackIff(a: nat, rest: string)
    ensures Loopback(Octet(a) + rest) <==> a == 127
  {
    LocalTexts();
    OctetPrefixIff(127, a, rest);
    DigitFirst(a, rest);
    assert "::1"[0] == ':';
  }

  lemma LinkLocalIff(a: nat, b: nat, rest: string)
    ensures LinkLocal(Octet(a) + (Octet(b) + rest)) <==> a == 169 && b == 254
  {
    LocalTexts();
    var text := Octet(a) + (Octet(b) + rest);
    DigitFirst(a, Octet(b) + rest);
    assert "FE80:"[0] == 'F';
    OctetPrefixIff(169, a, Octet(b) + rest);
    OctetPrefixIff(254, b, rest);
    FrontIsPrefix(Octet(169), Octet(254), text);
    if a == 169 { PrefixAfter(Octet(169), Octet(254), Octet(b) + rest); }
  }

  lemma FrontIsPrefix(front: string, a: string, text: string)
    ensures front + a <= text ==> front <= text
  {}

  lemma PrefixAfter(front: string, a: string, b: string)
    ensures front + a <= front + b <==> a <= b
  {
    if a <= b {
      assert b == a + b[|a|..];
      assert front + b == front + a + b[|a|..];
    }
    if front + a <= front + b {
      assert forall i :: 0 <= i < |a| ==> a[i] == (front + a)[|front| + i] && b[i] == (front + b)[|front| + i];
    }
  }

  // ---------- addresses by group ----------

  predicate OneOf(c: char, lower: char, upper: char) { c == lower || c == upper }

  lemma DottedPrefix(remote: string, literal: string)
    requires '.' in literal
    ensures literal <= remote ==> '.' in remote
  {
    if literal <= remote {
      var i :| 0 <= i < |literal| && literal[i] == '.';
      assert remote[i] == '.';
    }
  }

  lemma UpperPrefix(remote: string, literal: string)
    ensures literal <= Upper(remote)
            <==> |literal| <= |remote| && forall i :: 0 <= i < |literal| ==> UpperChar(remote[i]) == literal[i]
  {
    if literal <= Upper(remote) {
      assert forall i :: 0 <= i < |literal| ==> Upper(remote)[i] == literal[i];
    }
  }

  /** Without dots, the multicast addresses are those that begin with two f, in any case. */
  lemma Multicast6Iff(remote: string)
    requires '.' !in remote
    ensures Multicast(remote) <==> |remote| >= 2 && OneOf(remote[0], 'f', 'F') && OneOf(remote[1], 'f', 'F')
  {
    UpperPrefix(remote, "FF");
    assert "224."[3] == '.';
    DottedPrefix(remote, "224.");
    assert "225."[3] == '.';
    DottedPrefix(remote, "225.");
    assert "226."[3] == '.';
    DottedPrefix(remote, "226.");
    assert "227."[3] == '.';
    DottedPrefix(remote, "227.");
    assert "228."[3] == '.';
    DottedPrefix(remote, "228.");
    assert "229."[3] == '.';
    DottedPrefix(remote, "229.");
    assert "230."[3] == '.';
    DottedPrefix(remote, "230.");
    assert "231."[3] == '.';
    DottedPrefix(remote, "231.");
    assert "232."[3] == '.';
    DottedPrefix(remote, "232.");
    assert "233."[3] == '.';
    DottedPrefix(remote, "233.");
    assert "234."[3] == '.';
    DottedPrefix(remote, "234.");
    assert "235."[3] == '.';
    DottedPrefix(remote, "235.");
    assert "236."[3] == '.';
    DottedPrefix(remote, "236.");
    assert "237."[3] == '.';
    DottedPrefix(remote, "237.");
    assert "238."[3] == '.';
    DottedPrefix(remote, "238.");
    assert "239."[3] == '.';
    DottedPrefix(remote, "239.");
    assert "255.255.255.255"[3] == '.';
  }

  lemma Local6Iff(remote: string)
    requires '.' !in remote
    ensures Loopback(remote) <==> remote == "::1"
    ensures LinkLocal(remote) <==>
            && |remote| >= 5 && OneOf(remote[0], 'f', 'F') && OneOf(remote[1], 'e', 'E')
            && remote[2] == '8' && remote[3] == '0' && remote[4] == ':'
  {
    assert "127."[3] == '.' && "169.254."[3] == '.';
    DottedPrefix(remote, "127.");
    DottedPrefix(remote, "169.254.");
    UpperPrefix(remote, "FE80:");
    var prefix := "FE80:";
    assert prefix[0] == 'F' && prefix[1] == 'E' && prefix[2] == '8' && prefix[3] == '0' && prefix[4] == ':';
  }

  // ---------- what is listed ----------

  /** What makes a connection relevant besides its addresses. */
  predicate PlainRelevant(daemons: Daemons, c: Conn)
  {
    && (Upper(c.protocol) == "TCP" || Upper(c.protocol) == "UDP" || Upper(c.protocol) == "SCTP"
        || Upper(c.protocol) == "MPTCP")
    && (Upper(c.protocol) == "TCP" ==>
          || Upper(c.state) == "ESTABLISHED" || Upper(c.state) == "SYN_SENT"
          || Upper(c.state) == "SYN_RECV" || Upper(c.state) == "NEW_SYN_RECV")
    && c.remotePort > 0
    && c.localPort !in [53, 67, 68, 137, 138, 1900, 3702, 5353, 5355]
    && c.remotePort !in [53, 67, 68, 137, 138, 1900, 3702, 5353, 5355]
    && c.processId > 100 && !daemons(c.processName)
    && (exists i :: 0 <= i < |c.processName| && !IsBlank(c.processName[i]))
    && (Upper(c.protocol) == "SCTP" || Upper(c.protocol) == "MPTCP" ==> c.processName != "Unknown")
  }

  /** What the options for the view ask; the process filter is apart. */
  ghost predicate PlainView(options: Options, c: Conn)
  {
    && (options.includeIPv6 || ':' !in c.remoteAddress)
    && (options.filterByUser == "" || Occurs(Upper(options.filterByUser), Upper(c.userName)))
    && (options.filterByProtocol == "" || Upper(c.protocol) == Upper(options.filterByProtocol))
  }

  /** One text stands somewhere in another. */
  ghost predicate Occurs(part: string, s: string)
  {
    exists front, back :: s == front + part + back
  }

  lemma ContainsIff(s: string, part: string)
    ensures Contains(s, part) <==> Occurs(part, s)
  {
    if Contains(s, part) {
      var i :| 0 <= i <= |s| - |part| && part <= s[i..];
      assert s == s[..i] + part + s[i..][|part|..];
    }
    if Occurs(part, s) {
      var front, back :| s == front + part + back;
      assert s[|front|..] == part + back;
    }
  }

  /** A dotted remote address, by its first two octets. */
  predicate PlainAddress4(a: nat, b: nat, remote: string)
  {
    && a != 127 && !(224 <= a <= 239) && !(a == 169 && b == 254)
    && remote != "0.0.0.0" && remote != "255.255.255.255"
  }

  /** A remote address without dots. */
  predicate PlainAddress6(remote: string)
  {
    && remote != "::" && remote != "::1" && remote != "*" && (exists i :: 0 <= i < |remote| && !IsBlank(remote[i]))
    && !(|remote| >= 2 && OneOf(remote[0], 'f', 'F') && OneOf(remote[1], 'f', 'F'))
    && !(|remote| >= 5 && OneOf(remote[0], 'f', 'F') && OneOf(remote[1], 'e', 'E')
         && remote[2] == '8' && remote[3] == '0' && remote[4] == ':')
  }

  /** A local address that is not a loopback one. */
  predicate LocalOk(local: string) { !("127." <= local) && local != "::1" }

  /** The relevance test, with the remote address left to its own predicates. */
  lemma RelevantIff(daemons: Daemons, c: Conn)
    ensures IsRelevantExternalConnection(daemons, c) <==>
            PlainRelevant(daemons, c) && LocalOk(c.localAddress) && RemoteOk(c.remoteAddress)
  {}

  lemma PresentableIff(options: Options, daemons: Daemons, c: Conn)
    ensures Presentable(options, daemons, c) <==> IsRelevantExternalConnection(daemons, c) && PlainView(options, c)
  {
    ContainsIff(Upper(c.userName), Upper(options.filterByUser));
  }

  predicate Nameless(remote: string)
  {
    IsNullOrWhiteSpace(remote) || remote == "0.0.0.0" || remote == "::" || remote == "*"
  }

  predicate RemoteOk(remote: string)
  {
    !Nameless(remote) && !Loopback(remote) && !Multicast(remote) && !LinkLocal(remote)
  }

  lemma Nameless4Iff(a: nat, rest: string)
    ensures Nameless(Octet(a) + rest) <==> Octet(a) + rest == "0.0.0.0"
  {
    var remote := Octet(a) + rest;
    DigitFirst(a, rest);
    assert !IsBlank(remote[0]);
    assert "::"[0] == ':' && "*"[0] == '*';
  }

  lemma Remote4Iff(a: nat, b: nat, rest: string)
    ensures RemoteOk(Octet(a) + (Octet(b) + rest)) <==> PlainAddress4(a, b, Octet(a) + (Octet(b) + rest))
  {
    var tail := Octet(b) + rest;
    MulticastIff(a, tail);
    LoopbackIff(a, tail);
    LinkLocalIff(a, b, rest);
    Nameless4Iff(a, tail);
  }

  lemma Remote6Iff(remote: string)
    requires '.' !in remote
    ensures RemoteOk(remote) <==> PlainAddress6(remote)
  {
    Multicast6Iff(remote);
    Local6Iff(remote);
    assert "0.0.0.0"[1] == '.';
  }

  /** Which connections with a dotted remote address are relevant. */
  lemma Relevant4Iff(daemons: Daemons, c: Conn, a: nat, b: nat, rest: string)
    requires c.remoteAddress == Octet(a) + (Octet(b) + rest)
    ensures IsRelevantExternalConnection(daemons, c) <==>
            PlainRelevant(daemons, c) && LocalOk(c.localAddress) && PlainAddress4(a, b, c.remoteAddress)
  {
    RelevantIff(daemons, c);
    Remote4Iff(a, b, rest);
  }

  /** And with a remote address without dots. */
  lemma Relevant6Iff(daemons: Daemons, c: Conn)
    requires '.' !in c.remoteAddress
    ensures IsRelevantExternalConnection(daemons, c) <==>
            PlainRelevant(daemons, c) && LocalOk(c.localAddress) && PlainAddress6(c.remoteAddress)
  {
    RelevantIff(daemons, c);
    Remote6Iff(c.remoteAddress);
  }

  // ---------- the process filter ----------

  lemma AnyIff(name: string, names: seq<string>, uppers: seq<string>)
    requires |names| == |uppers| && forall i :: 0 <= i < |names| ==> Upper(names[i]) == uppers[i]
    ensures AnyIgnoreCase(name, names) <==> Upper(name) in uppers
  {
    if Upper(name) in uppers {
      var i :| 0 <= i < |uppers| && uppers[i] == Upper(name);
      assert EqualsIgnoreCase(name, names[i]);
    }
  }

  const FIREFOX_NAMES := ["ISOLATED WEB CO", "WEB CONTENT", "WEBEXTENSIONS", "PRIVILEGED CONT", "SOCKET PROCESS",
                          "GECKOMAIN", "RDD PROCESS", "UTILITY PROCESS"]

  const CHROME_NAMES := ["CHROME", "CHROME-SANDBOX", "NACL_HELPER", "GOOGLE-CHROME"]

  lemma FirefoxTabTexts()
    ensures Upper("isolated web co") == "ISOLATED WEB CO" && Upper("Web Content") == "WEB CONTENT"
    ensures Upper("WebExtensions") == "WEBEXTENSIONS" && Upper("Privileged Cont") == "PRIVILEGED CONT"
  {}

  lemma FirefoxHelperTexts()
    ensures Upper("Socket Process") == "SOCKET PROCESS" && Upper("GeckoMain") == "GECKOMAIN"
    ensures Upper("RDD Process") == "RDD PROCESS" && Upper("Utility Process") == "UTILITY PROCESS"
  {}

  lemma FirefoxIff(name: string)
    ensures BrowserAlias("firefox", name) <==> Upper(name) in FIREFOX_NAMES
  {
    FirefoxTabTexts();
    FirefoxHelperTexts();
    AnyIff(name, ["isolated web co", "Web Content", "WebExtensions", "Privileged Cont", "Socket Process",
                  "GeckoMain", "RDD Process", "Utility Process"], FIREFOX_NAMES);
  }

  lemma ChromeIff(name: string)
    ensures BrowserAlias("chrome", name) <==> Upper(name) in CHROME_NAMES
  {
    assert |Upper("firefox")| != |Upper("chrome")|;
    assert Upper("chrome") == "CHROME" && Upper("chrome-sandbox") == "CHROME-SANDBOX";
    assert Upper("nacl_helper") == "NACL_HELPER" && Upper("google-chrome") == "GOOGLE-CHROME";
    AnyIff(name, ["chrome", "chrome-sandbox", "nacl_helper", "google-chrome"], CHROME_NAMES);
  }

  /** A filter of firefox or chrome, in any letter case, also takes the names its processes go by; no other
      filter does. */
  lemma BrowserIff(filter: string, name: string)
    ensures BrowserAlias(filter, name) <==>
            || (Upper(filter) == "FIREFOX" && Upper(name) in FIREFOX_NAMES)
            || (Upper(filter) in {"CHROME", "GOOGLE-CHROME"} && Upper(name) in CHROME_NAMES)
  {
    assert Upper("firefox") == "FIREFOX" && Upper("chrome") == "CHROME";
    assert Upper("google-chrome") == "GOOGLE-CHROME";
    if EqualsIgnoreCase(filter, "firefox") {
      FirefoxIff(name);
    } else {
      ChromeIff(name);
    }
  }

  /** Which records the process filter takes: by a part of the name or the command line, by a browser's name, or
      on the word of a parent process; never a record without a name. */
  lemma ProcessFilterIff(filter: string, parentAnswer: bool, c: Conn)
    ensures ProcessMatches(filter, parentAnswer, c) <==>
            && c.processName != ""
            && (|| Occurs(Upper(filter), Upper(c.processName))
                || (c.commandLine != "" && Occurs(Upper(filter), Upper(c.commandLine)))
                || BrowserAlias(filter, c.processName)
                || (c.processId > 0 && parentAnswer))
  {
    ContainsIff(Upper(c.processName), Upper(filter));
    ContainsIff(Upper(c.commandLine), Upper(filter));
  }

  // ---------- what an event does ----------

  /** The record the consumer works with, field by field. */
  lemma ConcreteCases(resolve: Resolver, c: Conn)
    ensures c.localAddress in {"0.0.0.0", "::"} ==>
              Concrete(resolve, c) == c.(localAddress := resolve(c.remoteAddress, c.remotePort))
    ensures c.localAddress !in {"0.0.0.0", "::"} ==> Concrete(resolve, c) == c
  {}

  /** The two rows of a table under one key agree, or both are missing. */
  predicate SameAt(before: map<string, Conn>, after: map<string, Conn>, k: string)
  {
    (k in after <==> k in before) && (k in before && k in after ==> after[k] == before[k])
  }

  /** What one event does to the table: a closed connection goes, and so does one that is neither relevant nor
      UDP; one that is relevant and wanted is shown as it was announced; any other brings its own row's state and
      time of capture up to date, if there is one. No other row is touched. */
  lemma DeliveredCases(options: Options, daemons: Daemons, resolve: Resolver, table: map<string, Conn>, opens: bool,
                       conn: Conn, answer: bool)
    ensures var c := Concrete(resolve, conn);
            var k, after := GetConnectionKey(c), Delivered(options, daemons, resolve, table, opens, conn, answer);
            var relevant, udp := IsRelevantExternalConnection(daemons, c), Upper(c.protocol) == "UDP";
            var wanted := && relevant && PlainView(options, c)
                          && (options.filterByProcess == "" || ProcessMatches(options.filterByProcess, answer, c));
            && (!opens || (!relevant && !udp) ==> k !in after)
            && (opens && wanted ==> k in after && after[k] == c)
            && (opens && !wanted && (relevant || udp) && k in table ==>
                  k in after && after[k] == table[k].(state := c.state, capturedAt := c.capturedAt))
            && (opens && !wanted && k !in table ==> k !in after)
            && forall x :: x != k ==> SameAt(table, after, x)
  {
    PresentableIff(options, daemons, Concrete(resolve, conn));
    UpperNames();
  }
}
