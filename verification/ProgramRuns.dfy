/** Whole runs of the shared-object pipeline with the program's own key, rewriting and filters: what the
    live rows satisfy, and exactly which scanned records make sharing objects matter. */
module ProgramRuns {
  import opened Text
  import opened Connections
  import opened Pipeline
  import opened Filters
  import opened Aliasing
  import opened Scanner
  import ProcNet
  import Reconciler

  // ---------- the rows of every run ----------

  /** The live row under `k` is filed under its own key and passes the filters that do not depend on
      other processes. */
  ghost predicate RowPresentable(options: Options, daemons: Daemons, m: Memory, k: string)
    requires k in m.live && m.live[k] < |m.born| && m.live[k] < |m.now|
  {
    RowOk(options, daemons, k, m.born[m.live[k]].(state := m.now[m.live[k]]))
  }

  /** The table of values a pipeline shows, if all its rows are presentable. */
  ghost predicate Shows(options: Options, daemons: Daemons, m: Memory, table: map<string, Conn>)
  {
    Sized(m) && SameRows(m, table) && TableShown(options, daemons, table)
  }

  lemma SameRowOk(options: Options, daemons: Daemons, key: string, scanned: Conn, state: string, row: Conn)
    requires SameRow(scanned, state, row) && RowOk(options, daemons, key, row)
    ensures RowOk(options, daemons, key, scanned.(state := state))
  {
    var c := scanned.(state := state);
    assert c == row.(capturedAt := c.capturedAt);
  }

  /** New objects change no row. */
  lemma GrowKeepsRows(m: Memory, q: Memory, table: map<string, Conn>)
    requires Sized(m) && Sized(q) && SameRows(m, table)
    requires m.born <= q.born && m.now <= q.now && q.live == m.live
    ensures SameRows(q, table)
  {
    forall k | k in q.live
      ensures SameRow(q.born[q.live[k]], q.now[q.live[k]], table[k])
    {
      assert SameRow(m.born[m.live[k]], m.now[m.live[k]], table[k]);
    }
  }

  lemma ProduceGrows(env: Env, w: World, a: Reconciler.Action)
    requires RefsOk(w)
    ensures var m, q := w.mem, ProduceNext(env, w, a).mem; m.born <= q.born && m.now <= q.now && q.live == m.live
  {}

  /** The verdict of a delivery is the filters' decision about the record in hand; a closing event is a
      removal whatever the verdict. */
  lemma VerdictIsDecided(options: Options, daemons: Daemons, resolve: Resolver, w: World, v: Verdict)
    returns (answer: bool)
    requires RefsOk(w) && Sized(w.mem) && w.mem.delivered < |w.mem.log|
    requires Allowed(ProgramEnv(options, daemons, resolve), w, Deliver(v))
    ensures var env, m := ProgramEnv(options, daemons, resolve), w.mem;
            var e := m.log[m.delivered];
            DeliverNext(env, m, v)
            == DeliverNext(env, m, Decide(options, daemons, answer, e.opens, Concrete(resolve, View(m, e.ref))))
  {
    var e := w.mem.log[w.mem.delivered];
    answer := v == Decide(options, daemons, true, e.opens, Concrete(resolve, View(w.mem, e.ref)));
  }

  lemma DeliverShows(options: Options, daemons: Daemons, resolve: Resolver, w: World, v: Verdict,
                     table: map<string, Conn>) returns (after: map<string, Conn>)
    requires RefsOk(w) && Shows(options, daemons, w.mem, table)
    requires SharingOk(ProgramEnv(options, daemons, resolve), w.mem)
    requires Allowed(ProgramEnv(options, daemons, resolve), w, Deliver(v))
    ensures Shows(options, daemons, Next(ProgramEnv(options, daemons, resolve), w, Deliver(v)).mem, after)
  {
    var m := w.mem;
    if m.delivered == |m.log| { return table; }
    var e := m.log[m.delivered];
    var answer := VerdictIsDecided(options, daemons, resolve, w, v);
    DeliveryIsTheConsumers(options, daemons, resolve, m, table, answer);
    DeliveredKeepsShown(options, daemons, resolve, table, e.opens, View(m, e.ref), answer);
    after := Delivered(options, daemons, resolve, table, e.opens, View(m, e.ref), answer);
  }

  lemma TickShows(options: Options, daemons: Daemons, m: Memory, k: string, table: map<string, Conn>)
    requires Shows(options, daemons, m, table) && Sized(TakeOut(m, k))
    ensures Shows(options, daemons, TakeOut(m, k), table - {k})
  {
    RemoveKeepsRows(m, TakeOut(m, k), table, k);
  }

  lemma NextShows(options: Options, daemons: Daemons, resolve: Resolver, w: World, a: Action, table: map<string, Conn>)
    returns (after: map<string, Conn>)
    requires RefsOk(w) && Inv(ProgramEnv(options, daemons, resolve), w) && Shows(options, daemons, w.mem, table)
    requires Reports(ProgramEnv(options, daemons, resolve), a) && Allowed(ProgramEnv(options, daemons, resolve), w, a)
    ensures Shows(options, daemons, Next(ProgramEnv(options, daemons, resolve), w, a).mem, after)
  {
    var env := ProgramEnv(options, daemons, resolve);
    ProgramEnvOk(options, daemons, resolve);
    NextKeepsInv(env, w, a);
    match a
    case Produce(step) =>
      ProduceGrows(env, w, step);
      GrowKeepsRows(w.mem, Next(env, w, a).mem, table);
      after := table;
    case Deliver(v) => after := DeliverShows(options, daemons, resolve, w, v, table);
    case Tick(k) =>
      TickShows(options, daemons, w.mem, k, table);
      after := table - {k};
  }

  lemma {:induction false} RunShows(options: Options, daemons: Daemons, resolve: Resolver, actions: seq<Action>)
    returns (table: map<string, Conn>)
    requires Legal(ProgramEnv(options, daemons, resolve), actions)
    ensures Inv(ProgramEnv(options, daemons, resolve), Run(ProgramEnv(options, daemons, resolve), actions))
    ensures Shows(options, daemons, Run(ProgramEnv(options, daemons, resolve), actions).mem, table)
  {
    var env := ProgramEnv(options, daemons, resolve);
    ProgramEnvOk(options, daemons, resolve);
    if actions == [] {
      table := map[];
    } else {
      var front, a := actions[..|actions| - 1], actions[|actions| - 1];
      table := RunShows(options, daemons, resolve, front);
      NextKeepsInv(env, Run(env, front), a);
      table := NextShows(options, daemons, resolve, Run(env, front), a, table);
    }
  }

  /** For whole runs under the program's own verdicts, with objects shared and overwritten in place and
      the timer removing rows at any moment: every live row is filed under its own key and passes the
      relevance, IPv6, user and protocol filters. */
  lemma LiveRowsArePresentable(options: Options, daemons: Daemons, resolve: Resolver, actions: seq<Action>)
    requires Legal(ProgramEnv(options, daemons, resolve), actions)
    ensures var m := Run(ProgramEnv(options, daemons, resolve), actions).mem;
            forall k :: k in m.live ==>
              m.live[k] < |m.born| && m.live[k] < |m.now| && RowPresentable(options, daemons, m, k)
  {
    var table := RunShows(options, daemons, resolve, actions);
    var m := Run(ProgramEnv(options, daemons, resolve), actions).mem;
    forall k | k in m.live
      ensures RowPresentable(options, daemons, m, k)
    {
      SameRowOk(options, daemons, k, m.born[m.live[k]], m.now[m.live[k]], table[k]);
    }
  }

  // ---------- which scanned records make sharing matter ----------

  /** A UDP record with an unspecified local address and a state its peer does not explain: only the
      connection tracking table lists such. */
  predicate TrackedWildcard(c: Conn)
  {
    IsUdp(c) && IsWildcard(c) && c.state != UdpState(c.remoteAddress, c.remotePort)
  }

  /** The program's pipeline, fed by what a scanner can report; `tracked` allows the tracking table to
      list flows with an unspecified source. */
  ghost function ScannerEnv(options: Options, daemons: Daemons, resolve: Resolver, tracked: bool): Env
  {
    ProgramEnv(options, daemons, resolve).(
      scannable := c => Unambiguous(c) && CanBeScanned(c) && (tracked || !TrackedWildcard(c)))
  }

  /** The routing lookup gives addresses. */
  ghost predicate ResolverOk(resolve: Resolver) { forall address, port :: '|' !in resolve(address, port) }

  predicate Storable(options: Options, daemons: Daemons, c: Conn) { MayDecide(options, daemons, c, Store) }

  predicate WrongUser(options: Options, c: Conn)
  {
    options.filterByUser != "" && !Contains(Upper(c.userName), Upper(options.filterByUser))
  }

  /** The user filter turns the record away, or the process filter may: it does not recognise the record
      itself, and parents come and go. */
  predicate Filtered(options: Options, c: Conn)
  {
    WrongUser(options, c) || (options.filterByProcess != "" && !NamesProcess(options.filterByProcess, c))
  }

  predicate Unfiltered(options: Options) { options.filterByUser == "" && options.filterByProcess == "" }

  /** `w` is the flow of `k` with its local address still unspecified, in another state; and either it is
      a tracked UDP flow, or it is of interest but turned away by a user or process filter. */
  predicate Misleads(options: Options, daemons: Daemons, resolve: Resolver, k: Conn, w: Conn)
  {
    var c := Concrete(resolve, w);
    && Unambiguous(k) && Unambiguous(w) && !IsWildcard(k) && IsWildcard(w)
    && SameEndpoints(c, k) && Storable(options, daemons, k) && k.state != w.state
    && if IsUdp(k) then TrackedWildcard(w) else IsRelevantExternalConnection(daemons, c) && Filtered(options, c)
  }

  lemma WildcardTwinKeys(resolve: Resolver, k: Conn, w: Conn)
    requires ResolverOk(resolve) && Unambiguous(k) && Unambiguous(w) && !IsWildcard(k) && IsWildcard(w)
    ensures GetConnectionKey(w) != GetConnectionKey(k)
    ensures GetConnectionKey(Concrete(resolve, w)) == GetConnectionKey(k) <==> SameEndpoints(Concrete(resolve, w), k)
  {
    KeyInjective(w, k);
    KeyInjective(Concrete(resolve, w), k);
  }

  lemma StorableIsPresentable(options: Options, daemons: Daemons, k: Conn)
    requires Storable(options, daemons, k)
    ensures Presentable(options, daemons, k) && k.processId > 100 && k.remotePort > 0
  {}

  /** When the filters may answer a twin of a storable record with a refresh. */
  lemma RefreshedIff(options: Options, daemons: Daemons, k: Conn, c: Conn)
    requires Storable(options, daemons, k) && SameEndpoints(c, k)
    ensures MayDecide(options, daemons, c, Refresh)
            <==> if IsRelevantExternalConnection(daemons, c) then Filtered(options, c) else IsUdp(k)
  {
    StorableIsPresentable(options, daemons, k);
    assert IsUdp(c) == IsUdp(k);
    if IsRelevantExternalConnection(daemons, c) {
      assert MatchesFilters(options, daemons, true, c) <==> !WrongUser(options, c);
      assert MatchesFilters(options, daemons, false, c) <==> !Filtered(options, c);
    }
  }

  /** A collision, spelled out for the program. */
  predicate Twins(options: Options, daemons: Daemons, resolve: Resolver, k: Conn, w: Conn)
  {
    var c := Concrete(resolve, w);
    && Unambiguous(k) && Unambiguous(w) && !IsWildcard(k) && IsWildcard(w)
    && GetConnectionKey(w) != GetConnectionKey(k) && GetConnectionKey(c) == GetConnectionKey(k)
    && MayDecide(options, daemons, k, Store) && MayDecide(options, daemons, c, Refresh) && k.state != w.state
  }

  lemma CollideMeans(options: Options, daemons: Daemons, resolve: Resolver, tracked: bool, k: Conn, w: Conn)
    requires CanBeScanned(k) && CanBeScanned(w)
    ensures Collide(ScannerEnv(options, daemons, resolve, tracked), k, w)
            <==> Twins(options, daemons, resolve, k, w)
                 && (tracked || (!TrackedWildcard(k) && !TrackedWildcard(w)))
  {}

  lemma TwinsIff(options: Options, daemons: Daemons, resolve: Resolver, k: Conn, w: Conn)
    requires ResolverOk(resolve) && CanBeScanned(k) && CanBeScanned(w)
    requires Unambiguous(k) && Unambiguous(w) && !IsWildcard(k) && IsWildcard(w)
    ensures Twins(options, daemons, resolve, k, w) <==> Misleads(options, daemons, resolve, k, w)
  {
    var c := Concrete(resolve, w);
    WildcardTwinKeys(resolve, k, w);
    if SameEndpoints(c, k) && Storable(options, daemons, k) && k.state != w.state {
      RefreshedIff(options, daemons, k, c);
      if IsUdp(k) { TwinStates(options, daemons, resolve, k, w); }
    }
  }

  /** Exactly which two scanned records make some run of the program repeat itself. */
  lemma CollideIff(options: Options, daemons: Daemons, resolve: Resolver, k: Conn, w: Conn)
    requires ResolverOk(resolve) && CanBeScanned(k) && CanBeScanned(w)
    ensures Collide(ScannerEnv(options, daemons, resolve, true), k, w) <==> Misleads(options, daemons, resolve, k, w)
  {
    CollideMeans(options, daemons, resolve, true, k, w);
    if Unambiguous(k) && Unambiguous(w) && !IsWildcard(k) && IsWildcard(w) {
      TwinsIff(options, daemons, resolve, k, w);
    }
  }

  /** The states of two UDP twins differ only if the second comes from connection tracking, and then it
      has no process and is of no interest itself. */
  lemma TwinStates(options: Options, daemons: Daemons, resolve: Resolver, k: Conn, w: Conn)
    requires CanBeScanned(k) && CanBeScanned(w) && IsWildcard(w) && SameEndpoints(Concrete(resolve, w), k)
    requires Storable(options, daemons, k) && k.state != w.state && IsUdp(k)
    ensures TrackedWildcard(w) && !IsRelevantExternalConnection(daemons, Concrete(resolve, w))
  {
    StorableIsPresentable(options, daemons, k);
    ScannedUdp(k);
    ScannedUdp(w);
  }

  lemma ScannerEnvOk(options: Options, daemons: Daemons, resolve: Resolver, tracked: bool)
    ensures EnvOk(ScannerEnv(options, daemons, resolve, tracked))
  {
    ProgramEnvOk(options, daemons, resolve);
  }

  /** Without a user or process filter, sharing objects is harmless for everything a scanner reports, as
      long as no tracked flow has an unspecified source. */
  lemma UnfilteredScansAreSafe(options: Options, daemons: Daemons, resolve: Resolver, actions: seq<Action>)
    requires ResolverOk(resolve) && Unfiltered(options)
    requires Legal(ScannerEnv(options, daemons, resolve, false), actions)
    ensures SameEvents(ScannerEnv(options, daemons, resolve, false), actions)
  {
    var env := ScannerEnv(options, daemons, resolve, false);
    forall k, w
      ensures !Collide(env, k, w)
    {
      if Collide(env, k, w) {
        CollideMeans(options, daemons, resolve, false, k, w);
        TwinsIff(options, daemons, resolve, k, w);
      }
    }
    ScannerEnvOk(options, daemons, resolve, false);
    SharingIsHarmlessIff(env);
  }

  /** Any two misleading records make a run announce the first one again although nothing changed. */
  lemma MisleadingRecordsRepeat(options: Options, daemons: Daemons, resolve: Resolver, tracked: bool, k: Conn, w: Conn)
    returns (actions: seq<Action>)
    requires ResolverOk(resolve) && CanBeScanned(k) && CanBeScanned(w) && Misleads(options, daemons, resolve, k, w)
    requires tracked || !IsUdp(k)
    ensures var env := ScannerEnv(options, daemons, resolve, tracked);
            Legal(env, actions) && RepeatsAnnouncement(Run(env, actions).mem) && !SameEvents(env, actions)
  {
    var env := ScannerEnv(options, daemons, resolve, tracked);
    ScannerEnvOk(options, daemons, resolve, tracked);
    TwinsIff(options, daemons, resolve, k, w);
    CollideMeans(options, daemons, resolve, tracked, k, w);
    actions := BadRun(env, k, w);
  }

  /** The one UDP case: a tracking line with the flow's endpoints and an unspecified source overwrites the
      state of any listed UDP flow, whatever the filters, and the next scan announces the flow again. */
  lemma TrackedTwinRepeats(options: Options, daemons: Daemons, resolve: Resolver, k: Conn, at: int)
    returns (actions: seq<Action>)
    requires ResolverOk(resolve) && CanBeScanned(k) && Unambiguous(k) && !IsWildcard(k) && k.protocol == "UDP"
    requires Storable(options, daemons, k) && resolve(k.remoteAddress, k.remotePort) == k.localAddress
    requires ProcNet.Word(k.remoteAddress)
    ensures var w := TrackedConn(k.localPort, k.remoteAddress, k.remotePort, at);
            CanBeScanned(w) && Misleads(options, daemons, resolve, k, w)
    ensures var env := ScannerEnv(options, daemons, resolve, true);
            Legal(env, actions) && RepeatsAnnouncement(Run(env, actions).mem) && !SameEvents(env, actions)
  {
    var w := TrackedConn(k.localPort, k.remoteAddress, k.remotePort, at);
    ScannedPorts(k);
    var host := Host(_ => None, _ => "", _ => "", _ => "", _ => "");
    TrackedCanBeScanned(host, k.localPort, k.remoteAddress, k.remotePort, at);
    TrackedMisleads(options, daemons, resolve, k, w);
    actions := MisleadingRecordsRepeat(options, daemons, resolve, true, k, w);
  }

  lemma TrackedMisleads(options: Options, daemons: Daemons, resolve: Resolver, k: Conn, w: Conn)
    requires CanBeScanned(k) && Unambiguous(k) && !IsWildcard(k) && k.protocol == "UDP"
    requires Storable(options, daemons, k) && resolve(k.remoteAddress, k.remotePort) == k.localAddress
    requires w == TrackedConn(k.localPort, k.remoteAddress, k.remotePort, w.capturedAt)
    ensures Misleads(options, daemons, resolve, k, w)
  {
    StorableIsPresentable(options, daemons, k);
    UdpName();
    ScannedUdp(k);
    assert w.state[0] == 'T' && UdpState(k.remoteAddress, k.remotePort)[0] == 'E';
  }

  /** The twin of a TCP connection: unspecified local address, another active state, and another user
      and program. */
  function TcpTwin(k: Conn, user: string, program: string): Conn
  {
    k.(localAddress := "0.0.0.0", state := TcpState(if k.state == TcpState("01") then "02" else "01"),
       userName := user, processName := program, commandLine := "")
  }

  lemma TwinIsOfInterest(daemons: Daemons, resolve: Resolver, k: Conn, user: string, program: string)
    requires IsRelevantExternalConnection(daemons, k) && k.protocol == "TCP"
    requires resolve(k.remoteAddress, k.remotePort) == k.localAddress
    requires !IsNullOrWhiteSpace(program) && !daemons(program)
    ensures var w := TcpTwin(k, user, program);
            && w.state != k.state && SameEndpoints(Concrete(resolve, w), k)
            && IsRelevantExternalConnection(daemons, Concrete(resolve, w))
  {
    var w := TcpTwin(k, user, program);
    var c := Concrete(resolve, w);
    ActiveNames();
    assert TcpState("01")[0] == 'E' && TcpState("02")[0] == 'S';
    assert c.protocol == k.protocol && c.localAddress == k.localAddress && c.remoteAddress == k.remoteAddress
        && c.localPort == k.localPort && c.remotePort == k.remotePort
        && c.processName == program && c.processId == k.processId;
    assert RelevantApartFromState(daemons, k);
    assert RelevantApartFromState(daemons, c);
  }

  /** The TCP case, for a twin that a filter turns away. */
  lemma FilteredTwinMisleads(options: Options, daemons: Daemons, resolve: Resolver, k: Conn, user: string,
                             program: string)
    requires CanBeScanned(k) && Unambiguous(k) && !IsWildcard(k) && k.protocol == "TCP"
    requires Storable(options, daemons, k) && resolve(k.remoteAddress, k.remotePort) == k.localAddress
    requires !IsNullOrWhiteSpace(program) && !daemons(program) && Filtered(options, TcpTwin(k, user, program))
    ensures var w := TcpTwin(k, user, program);
            CanBeScanned(w) && Misleads(options, daemons, resolve, k, w) && !IsUdp(k)
  {
    var w := TcpTwin(k, user, program);
    StorableIsPresentable(options, daemons, k);
    ScannedPorts(k);
    TcpCanBeScanned(w, if k.state == TcpState("01") then "02" else "01");
    TwinIsOfInterest(daemons, resolve, k, user, program);
    UdpName();
    assert Upper("TCP")[0] == 'T' && Upper("UDP")[0] == 'U';
  }

  /** With scans that list no tracked flow from an unspecified source, the program is safe from sharing
      exactly when neither the user nor the process filter is set: given one TCP connection it lists,
      and a user and program the filters in use do not recognise. */
  lemma SharingIsHarmlessUnlessFiltered(options: Options, daemons: Daemons, resolve: Resolver,
                                        k: Conn, user: string, program: string)
    requires ResolverOk(resolve)
    requires CanBeScanned(k) && Unambiguous(k) && !IsWildcard(k) && k.protocol == "TCP"
    requires Storable(options, daemons, k) && resolve(k.remoteAddress, k.remotePort) == k.localAddress
    requires !IsNullOrWhiteSpace(program) && !daemons(program)
    requires Unfiltered(options) || Filtered(options, TcpTwin(k, user, program))
    ensures var env := ScannerEnv(options, daemons, resolve, false);
            (forall actions :: Legal(env, actions) ==> SameEvents(env, actions)) <==> Unfiltered(options)
  {
    var env := ScannerEnv(options, daemons, resolve, false);
    if Unfiltered(options) {
      forall actions | Legal(env, actions)
        ensures SameEvents(env, actions)
      {
        UnfilteredScansAreSafe(options, daemons, resolve, actions);
      }
    } else {
      var w := TcpTwin(k, user, program);
      FilteredTwinMisleads(options, daemons, resolve, k, user, program);
      var actions := MisleadingRecordsRepeat(options, daemons, resolve, false, k, w);
    }
  }

  lemma ActiveNames()
    ensures TcpState("01") == "ESTABLISHED" && TcpState("02") == "SYN_SENT"
    ensures ActiveTcpState("ESTABLISHED") && ActiveTcpState("SYN_SENT")
  {
    assert Upper("01") == "01" && Upper("02") == "02";
    assert Upper("ESTABLISHED") == "ESTABLISHED" && Upper("SYN_SENT") == "SYN_SENT";
  }

  // ---------- one input for each case ----------

  const NO_DAEMONS: Daemons := (name: string) => false
  const ROUTE: Resolver := (address: string, port: int) => "10.0.0.5"

  /** A program talking to a public server. */
  function Example(protocol: string): Conn
  {
    Conn(protocol, "10.0.0.5", 40000, "8.8.8.8", 443, "ESTABLISHED", 4242, "curl", "alice", "", 0)
  }

  function OnlyUser(user: string): Options { Options(true, user, "", "") }

  lemma ExampleRemote()
    ensures !Unspecified("8.8.8.8", 443) && !Multicast("8.8.8.8")
  {
    var remote := "8.8.8.8";
    assert remote[0] == '8' && !IsBlank(remote[0]) && Upper(remote)[0] == '8';
  }

  lemma ExampleNotLocal()
    ensures !LinkLocal("8.8.8.8") && !Loopback("8.8.8.8") && !Loopback("10.0.0.5")
  {
    var remote, local := "8.8.8.8", "10.0.0.5";
    assert remote[0] == '8' && Upper(remote)[0] == '8';
    assert local[0] == '1' && local[1] == '0';
  }

  lemma ExampleIsStorable(protocol: string, user: string)
    requires protocol == "UDP" || protocol == "TCP"
    requires user == "" || user == "alice"
    ensures Storable(OnlyUser(user), NO_DAEMONS, Example(protocol))
  {
    var c := Example(protocol);
    ExampleRemote();
    ExampleNotLocal();
    UdpName();
    ActiveNames();
    assert c.processName[0] == 'c' && !IsBlank(c.processName[0]);
    assert RelevantApartFromState(NO_DAEMONS, c);
    assert Upper("alice") <= Upper("alice")[0..];
    assert Presentable(OnlyUser(user), NO_DAEMONS, c);
  }

  lemma ExampleCanBeScanned(protocol: string)
    requires protocol == "UDP" || protocol == "TCP"
    ensures CanBeScanned(Example(protocol)) && Unambiguous(Example(protocol)) && !IsWildcard(Example(protocol))
  {
    var c := Example(protocol);
    ActiveNames();
    if protocol == "TCP" {
      TcpCanBeScanned(c, "01");
    } else {
      var h := Host(i => if i == -1 then None else Some(4242), _ => "curl", _ => "", _ => "alice", _ => "alice");
      var raw := Raw("UDP", c.localAddress, c.localPort, c.remoteAddress, c.remotePort, "ESTABLISHED", 0, 0);
      assert FromSocketTable(raw) && Listed(raw);
      assert Enrich(h, raw, 0) == c;
    }
  }

  lemma ExampleRoute()
    ensures ResolverOk(ROUTE) && ProcNet.Word("8.8.8.8")
  {
    var local, remote := "10.0.0.5", "8.8.8.8";
    assert forall i :: 0 <= i < 8 ==> local[i] == '.' || IsDigit(local[i]);
    assert forall i :: 0 <= i < 7 ==> remote[i] == '.' || IsDigit(remote[i]);
  }

  /** With no filter set, a UDP flow to 8.8.8.8 is announced twice because of one tracking line. */
  lemma TrackedExample() returns (actions: seq<Action>)
    ensures var env := ScannerEnv(OnlyUser(""), NO_DAEMONS, ROUTE, true);
            Legal(env, actions) && RepeatsAnnouncement(Run(env, actions).mem) && !SameEvents(env, actions)
  {
    ExampleIsStorable("UDP", "");
    ExampleCanBeScanned("UDP");
    ExampleRoute();
    actions := TrackedTwinRepeats(OnlyUser(""), NO_DAEMONS, ROUTE, Example("UDP"), 0);
  }

  /** With the user filter set to alice, her TCP connection is announced twice because of bob's twin. */
  lemma FilteredExample() returns (actions: seq<Action>)
    ensures var env := ScannerEnv(OnlyUser("alice"), NO_DAEMONS, ROUTE, false);
            Legal(env, actions) && RepeatsAnnouncement(Run(env, actions).mem) && !SameEvents(env, actions)
  {
    ExampleIsStorable("TCP", "alice");
    ExampleCanBeScanned("TCP");
    ExampleRoute();
    var program := "curl";
    assert !IsBlank(program[0]);
    FilteredTwinMisleads(OnlyUser("alice"), NO_DAEMONS, ROUTE, Example("TCP"), "bob", program);
    actions := MisleadingRecordsRepeat(OnlyUser("alice"), NO_DAEMONS, ROUTE, false, Example("TCP"),
                                       TcpTwin(Example("TCP"), "bob", program));
  }
}
