/** Which connections the live view cares about, and what each event therefore does to the table. */
module Filters {
  import opened Text
  import opened Connections
  import opened Pipeline

  /** The filter options; the empty string means "not set". */
  datatype Options = Options(includeIPv6: bool, filterByUser: string, filterByProtocol: string, filterByProcess: string)

  /** The table of daemon and desktop process names, consulted by name. */
  type Daemons = string -> bool

  predicate IsUdp(c: Conn) { EqualsIgnoreCase(c.protocol, "UDP") }

  predicate TransportProtocol(p: string) { p == "TCP" || p == "UDP" || p == "SCTP" || p == "MPTCP" }

  predicate Unspecified(remote: string, port: int)
  {
    IsNullOrWhiteSpace(remote) || remote == "0.0.0.0" || remote == "::" || remote == "*" || port <= 0
  }

  predicate Loopback(address: string) { StartsWith(address, "127.") || address == "::1" }

  predicate Multicast(remote: string)
  {
    || StartsWith(remote, "224.") || StartsWith(remote, "225.") || StartsWith(remote, "226.")
    || StartsWith(remote, "227.") || StartsWith(remote, "228.") || StartsWith(remote, "229.")
    || StartsWith(remote, "230.") || StartsWith(remote, "231.") || StartsWith(remote, "232.")
    || StartsWith(remote, "233.") || StartsWith(remote, "234.") || StartsWith(remote, "235.")
    || StartsWith(remote, "236.") || StartsWith(remote, "237.") || StartsWith(remote, "238.")
    || StartsWith(remote, "239.")
    || remote == "255.255.255.255" || StartsWith(Upper(remote), "FF")
  }

  predicate LinkLocal(remote: string) { StartsWith(remote, "169.254.") || StartsWith(Upper(remote), "FE80:") }

  predicate DiscoveryPort(port: int) { port in {53, 67, 68, 5353, 5355, 1900, 3702, 137, 138} }

  predicate ActiveTcpState(state: string)
  {
    || Upper(state) == "ESTABLISHED" || Upper(state) == "SYN_SENT"
    || Upper(state) == "SYN_RECV" || Upper(state) == "NEW_SYN_RECV"
  }

  predicate IsUselessBackgroundProcess(daemons: Daemons, c: Conn)
  {
    IsNullOrWhiteSpace(c.processName) || c.processId <= 100 || daemons(c.processName)
  }

  /** Everything the relevance test asks except for the state of a TCP connection. */
  predicate RelevantApartFromState(daemons: Daemons, c: Conn)
  {
    var proto := Upper(c.protocol);
    && TransportProtocol(proto)
    && !Unspecified(c.remoteAddress, c.remotePort)
    && !Loopback(c.remoteAddress) && !Loopback(c.localAddress)
    && !Multicast(c.remoteAddress)
    && !LinkLocal(c.remoteAddress)
    && !DiscoveryPort(c.localPort) && !DiscoveryPort(c.remotePort)
    && (proto != "TCP" && proto != "UDP" ==> c.processName != "Unknown" && c.processId > 0)
    && !IsUselessBackgroundProcess(daemons, c)
  }

  predicate IsRelevantExternalConnection(daemons: Daemons, c: Conn)
  {
    RelevantApartFromState(daemons, c) && (Upper(c.protocol) == "TCP" ==> ActiveTcpState(c.state))
  }

  /** What every row of the live view satisfies; the process filter is not part of it, because its
      answer depends on parent processes that come and go. */
  predicate Presentable(options: Options, daemons: Daemons, c: Conn)
  {
    && IsRelevantExternalConnection(daemons, c)
    && (!options.includeIPv6 ==> ':' !in c.remoteAddress)
    && (options.filterByUser != "" ==> Contains(Upper(c.userName), Upper(options.filterByUser)))
    && (options.filterByProtocol != "" ==> EqualsIgnoreCase(c.protocol, options.filterByProtocol))
  }

  predicate AnyIgnoreCase(name: string, names: seq<string>)
  {
    exists i :: 0 <= i < |names| && EqualsIgnoreCase(name, names[i])
  }

  /** Process names that stand for a browser. */
  predicate BrowserAlias(filter: string, name: string)
  {
    if EqualsIgnoreCase(filter, "firefox") then
      AnyIgnoreCase(name, ["isolated web co", "Web Content", "WebExtensions", "Privileged Cont", "Socket Process",
                           "GeckoMain", "RDD Process", "Utility Process"])
    else
      (EqualsIgnoreCase(filter, "chrome") || EqualsIgnoreCase(filter, "google-chrome"))
      && AnyIgnoreCase(name, ["chrome", "chrome-sandbox", "nacl_helper", "google-chrome"])
  }

  /** The process filter recognises the record itself, by name, command line or browser. */
  predicate NamesProcess(filter: string, c: Conn)
  {
    && c.processName != ""
    && (|| Contains(Upper(c.processName), Upper(filter))
        || (c.commandLine != "" && Contains(Upper(c.commandLine), Upper(filter)))
        || BrowserAlias(filter, c.processName))
  }

  /** `parentAnswer` is what the lookups of parent and grandparent say at this moment. */
  predicate ProcessMatches(filter: string, parentAnswer: bool, c: Conn)
  {
    c.processName != "" && (NamesProcess(filter, c) || (c.processId > 0 && parentAnswer))
  }

  predicate MatchesFilters(options: Options, daemons: Daemons, parentAnswer: bool, c: Conn)
  {
    && Presentable(options, daemons, c)
    && (options.filterByProcess != "" ==> ProcessMatches(options.filterByProcess, parentAnswer, c))
  }

  /** The consumer's decision about an event whose connection is already concrete. */
  function Decide(options: Options, daemons: Daemons, parentAnswer: bool, opens: bool, c: Conn): Verdict
  {
    if !opens || (!IsUdp(c) && !IsRelevantExternalConnection(daemons, c)) then Remove
    else if !MatchesFilters(options, daemons, parentAnswer, c) then Refresh
    else Store
  }

  // ---------- the live table over values ----------

  /** One delivered event. */
  function Delivered(options: Options, daemons: Daemons, resolve: Resolver, table: map<string, Conn>,
                     opens: bool, conn: Conn, parentAnswer: bool): map<string, Conn>
  {
    var c := Concrete(resolve, conn);
    Applied(table, GetConnectionKey(c), c, Decide(options, daemons, parentAnswer, opens, c))
  }

  function Applied(table: map<string, Conn>, key: string, c: Conn, verdict: Verdict): map<string, Conn>
  {
    match verdict
    case Remove => table - {key}
    case Store => table[key := c]
    case Refresh =>
      if key in table then table[key := table[key].(state := c.state, capturedAt := c.capturedAt)] else table
  }

  const TICKS_PER_SECOND := 10000000

  /** The timer's two reasons to drop an entry: its process is gone, or it is a UDP flow unheard of for 15 s. */
  predicate Expired(c: Conn, now: int, alive: int -> bool)
  {
    || (c.processId > 0 && !alive(c.processId))
    || (IsUdp(c) && now - c.capturedAt > 15 * TICKS_PER_SECOND)
  }

  function Swept(table: map<string, Conn>, now: int, alive: int -> bool): map<string, Conn>
  {
    map k | k in table && !Expired(table[k], now, alive) :: table[k]
  }

  /** What a tick may do to one row, in plain terms: it takes rows of a dead process, and UDP rows, in any
      letter case, unheard of for more than 150,000,000 ticks of 100 ns; all others stay as they are. */
  ghost predicate RowAfterTick(before: map<string, Conn>, after: map<string, Conn>, now: int, alive: int -> bool,
                               k: string)
    requires k in before
  {
    var c := before[k];
    && (c.processId > 0 && !alive(c.processId) ==> k !in after)
    && (Upper(c.protocol) == "UDP" && now - c.capturedAt > 150_000_000 ==> k !in after)
    && ((c.processId <= 0 || alive(c.processId)) && Upper(c.protocol) != "UDP" ==> k in after)
    && ((c.processId <= 0 || alive(c.processId)) && now - c.capturedAt <= 150_000_000 ==> k in after)
    && (k in after ==> after[k] == c)
  }

  ghost predicate RowsAfterTick(before: map<string, Conn>, after: map<string, Conn>, now: int, alive: int -> bool)
  {
    after.Keys <= before.Keys && forall k :: k in before ==> RowAfterTick(before, after, now, alive, k)
  }

  lemma SweptRows(table: map<string, Conn>, now: int, alive: int -> bool)
    ensures RowsAfterTick(table, Swept(table, now, alive), now, alive)
  {
    UpperNames();
  }

  lemma UpperNames()
    ensures Upper("UDP") == "UDP" == Upper("udp") == Upper("Udp")
  {}

  ghost predicate RowOk(options: Options, daemons: Daemons, key: string, c: Conn)
  {
    GetConnectionKey(c) == key && Presentable(options, daemons, c)
  }

  ghost predicate TableShown(options: Options, daemons: Daemons, table: map<string, Conn>)
  {
    forall k :: k in table ==> RowOk(options, daemons, k, table[k])
  }

  lemma RelevantHasNoSeparator(daemons: Daemons, c: Conn)
    requires TransportProtocol(Upper(c.protocol))
    ensures '|' !in c.protocol
  {
    UpperKeeps(c.protocol, '|');
  }

  /** The special case is safe: copying the state of an event the filters turned away keeps the
      row presentable, because the two share a key, hence a protocol, and the event was not inactive. */
  lemma RefreshKeepsRow(options: Options, daemons: Daemons, key: string, row: Conn, c: Conn)
    requires RowOk(options, daemons, key, row) && GetConnectionKey(c) == key
    requires IsUdp(c) || IsRelevantExternalConnection(daemons, c)
    ensures RowOk(options, daemons, key, row.(state := c.state, capturedAt := c.capturedAt))
  {
    RelevantHasNoSeparator(daemons, row);
    RelevantHasNoSeparator(daemons, c);
    KeyGivesProtocol(row, c);
  }

  /** Every row of the live table stays filed under its own key and presentable, whatever is delivered. */
  lemma DeliveredKeepsShown(options: Options, daemons: Daemons, resolve: Resolver, table: map<string, Conn>,
                            opens: bool, conn: Conn, parentAnswer: bool)
    requires TableShown(options, daemons, table)
    ensures TableShown(options, daemons, Delivered(options, daemons, resolve, table, opens, conn, parentAnswer))
  {
    var c := Concrete(resolve, conn);
    var key := GetConnectionKey(c);
    AppliedKeepsShown(options, daemons, table, key, c, Decide(options, daemons, parentAnswer, opens, c));
  }

  lemma AppliedKeepsShown(options: Options, daemons: Daemons, table: map<string, Conn>, key: string, c: Conn,
                          verdict: Verdict)
    requires TableShown(options, daemons, table) && key == GetConnectionKey(c)
    requires verdict == Store ==> Presentable(options, daemons, c)
    requires verdict == Refresh ==> IsUdp(c) || IsRelevantExternalConnection(daemons, c)
    ensures TableShown(options, daemons, Applied(table, key, c, verdict))
  {
    if verdict == Refresh && key in table {
      RefreshKeepsRow(options, daemons, key, table[key], c);
    }
  }

  datatype Step =
    | Event(opens: bool, conn: Conn, parentAnswer: bool)
    | Sweep(now: int, alive: int -> bool)

  function TableAfter(options: Options, daemons: Daemons, resolve: Resolver, steps: seq<Step>): map<string, Conn>
  {
    if steps == [] then map[]
    else
      var table := TableAfter(options, daemons, resolve, steps[..|steps| - 1]);
      match steps[|steps| - 1]
      case Event(opens, conn, answer) => Delivered(options, daemons, resolve, table, opens, conn, answer)
      case Sweep(now, alive) => Swept(table, now, alive)
  }

  /** In every reachable table each row is under its own key and passes the relevance, IPv6, user
      and protocol filters. */
  lemma {:induction false} LiveTableInvariant(options: Options, daemons: Daemons, resolve: Resolver, steps: seq<Step>)
    ensures TableShown(options, daemons, TableAfter(options, daemons, resolve, steps))
  {
    if steps != [] {
      var front := steps[..|steps| - 1];
      LiveTableInvariant(options, daemons, resolve, front);
      match steps[|steps| - 1]
      case Event(opens, conn, answer) =>
        var table := TableAfter(options, daemons, resolve, front);
        DeliveredKeepsShown(options, daemons, resolve, table, opens, conn, answer);
      case Sweep(_, _) =>
    }
  }

  /** The special case is meant to keep an entry alive when an update arrives with an unknown
      process. For a transport other than UDP it does so exactly when the update is itself relevant:
      one attributed to a pid up to 100, as in softirq context, removes the entry instead. */
  lemma UpdateKeepsEntryIff(options: Options, daemons: Daemons, parentAnswer: bool, table: map<string, Conn>, c: Conn)
    requires GetConnectionKey(c) in table && !IsUdp(c)
    ensures var key, verdict := GetConnectionKey(c), Decide(options, daemons, parentAnswer, true, c);
            && (key in Applied(table, key, c, verdict) <==> IsRelevantExternalConnection(daemons, c))
            && (c.processId <= 100 ==> key !in Applied(table, key, c, verdict))
  {}

  // ---------- the pipeline with the program's own key, rewriting and filters ----------

  /** The verdict the filters can give an announced record. */
  predicate MayDecide(options: Options, daemons: Daemons, c: Conn, v: Verdict)
  {
    v == Decide(options, daemons, true, true, c) || v == Decide(options, daemons, false, true, c)
  }

  ghost function ProgramEnv(options: Options, daemons: Daemons, resolve: Resolver): Env
  {
    Env(c => GetConnectionKey(c), c => IsWildcard(c), c => Concrete(resolve, c), c => Unambiguous(c),
        (c, v) => MayDecide(options, daemons, c, v))
  }

  lemma ProgramEnvOk(options: Options, daemons: Daemons, resolve: Resolver)
    ensures EnvOk(ProgramEnv(options, daemons, resolve)) && KeyFixesLive(ProgramEnv(options, daemons, resolve))
  {
    var env := ProgramEnv(options, daemons, resolve);
    forall a, b | env.scannable(a) && env.scannable(b) && env.key(a) == env.key(b)
      ensures LiveKeyOf(env, a) == LiveKeyOf(env, b)
    {
      KeyFixesLiveKey(resolve, a, b);
    }
  }

  // ---------- the pipeline's deliveries are the consumer's ----------

  /** The fields that never change; capture times play no part in the pipeline. */
  function Identity(c: Conn): Conn { c.(state := "", capturedAt := 0) }

  predicate SameRow(scanned: Conn, state: string, row: Conn)
  {
    Identity(scanned) == Identity(row) && state == row.state
  }

  /** The live table of the pipeline shows the rows of a table of values. */
  ghost predicate SameRows(m: Memory, table: map<string, Conn>)
    requires Sized(m)
  {
    && m.live.Keys == table.Keys
    && forall k :: k in m.live ==> SameRow(m.born[m.live[k]], m.now[m.live[k]], table[k])
  }

  lemma RemoveKeepsRows(m: Memory, q: Memory, table: map<string, Conn>, k: string)
    requires Sized(m) && Sized(q) && SameRows(m, table)
    requires q.born == m.born && q.now == m.now && q.live == m.live - {k}
    ensures SameRows(q, table - {k})
  {}

  lemma StoreKeepsRows(m: Memory, q: Memory, table: map<string, Conn>, k: string, r: nat, c: Conn)
    requires Sized(m) && Sized(q) && SameRows(m, table)
    requires m.born <= q.born && m.now <= q.now && q.live == m.live[k := r] && r < |q.born|
             && SameRow(q.born[r], q.now[r], c)
    ensures SameRows(q, table[k := c])
  {}

  lemma RefreshKeepsRows(m: Memory, q: Memory, table: map<string, Conn>, k: string, row: Conn)
    requires Sized(m) && Sized(q) && SameRows(m, table) && k in m.live
    requires q.born == m.born && q.live == m.live && q.now == m.now[m.live[k] := row.state]
    requires Identity(row) == Identity(table[k])
    requires forall x :: x in m.live && x != k ==> m.live[x] != m.live[k]
    ensures SameRows(q, table[k := row])
  {
    forall x | x in q.live
      ensures SameRow(q.born[q.live[x]], q.now[q.live[x]], table[k := row][x])
    {
      assert SameRow(m.born[m.live[x]], m.now[m.live[x]], table[x]);
    }
  }

  /** The record the consumer has in hand for the next event. */
  ghost function InHand(env: Env, m: Memory): Conn
    requires Sized(m) && m.delivered < |m.log|
  {
    var r := m.log[m.delivered].ref;
    env.concrete(m.born[r]).(state := m.now[r])
  }

  /** Objects in the live table are stored under their own keys, so only one row is overwritten. */
  lemma OverwriteKeepsRows(env: Env, m: Memory, q: Memory, table: map<string, Conn>, k: string, c: Conn)
    requires Sized(m) && Sized(q) && SharingOk(env, m) && SameRows(m, table)
    requires q.born == m.born && q.live == m.live && q.now == if k in m.live then m.now[m.live[k] := c.state] else m.now
    ensures SameRows(q, Applied(table, k, c, Refresh))
  {
    if k in m.live {
      forall x | x in m.live && x != k
        ensures m.live[x] != m.live[k]
      {
        assert env.key(m.born[m.live[x]]) == x && env.key(m.born[m.live[k]]) == k;
      }
      RefreshKeepsRows(m, q, table, k, table[k].(state := c.state, capturedAt := c.capturedAt));
    }
  }

  lemma StoringPutsInHand(env: Env, m: Memory)
    requires EnvOk(env) && Sized(m) && m.delivered < |m.log| && m.log[m.delivered].opens
    ensures var q, k := DeliverNext(env, m, Store), LogLiveKey(env, m, m.delivered);
            && m.born <= q.born && m.now <= q.now && k in q.live && q.live == m.live[k := q.live[k]]
            && q.live[k] < |q.born| && q.live[k] < |q.now|
            && SameRow(q.born[q.live[k]], q.now[q.live[k]], InHand(env, m))
  {}

  lemma DeliverKeepsRows(env: Env, m: Memory, v: Verdict, table: map<string, Conn>)
    requires EnvOk(env) && Sized(m) && SharingOk(env, m) && SameRows(m, table) && m.delivered < |m.log|
    requires !m.log[m.delivered].opens ==> v == Remove
    ensures Sized(DeliverNext(env, m, v))
    ensures SameRows(DeliverNext(env, m, v), Applied(table, LogLiveKey(env, m, m.delivered), InHand(env, m), v))
  {
    var c, k, q := InHand(env, m), LogLiveKey(env, m, m.delivered), DeliverNext(env, m, v);
    DeliverKeepsSized(env, m, v);
    match v
    case Remove => RemoveKeepsRows(m, q, table, k);
    case Store =>
      StoringPutsInHand(env, m);
      StoreKeepsRows(m, q, table, k, q.live[k], c);
    case Refresh => OverwriteKeepsRows(env, m, q, table, k, c);
  }

  /** Under the verdict of the program's filters, the pipeline's delivery changes the rows exactly as
      the consumer does. */
  lemma DeliveryIsTheConsumers(options: Options, daemons: Daemons, resolve: Resolver, m: Memory,
                               table: map<string, Conn>, answer: bool)
    requires var env := ProgramEnv(options, daemons, resolve);
             Sized(m) && SharingOk(env, m) && SameRows(m, table) && m.delivered < |m.log|
    ensures var env, e := ProgramEnv(options, daemons, resolve), m.log[m.delivered];
            var c := m.born[e.ref].(state := m.now[e.ref]);
            var v := Decide(options, daemons, answer, e.opens, Concrete(resolve, c));
            Sized(DeliverNext(env, m, v))
            && SameRows(DeliverNext(env, m, v), Delivered(options, daemons, resolve, table, e.opens, c, answer))
  {
    var env, e := ProgramEnv(options, daemons, resolve), m.log[m.delivered];
    var v := Decide(options, daemons, answer, e.opens, InHand(env, m));
    ProgramEnvOk(options, daemons, resolve);
    StateIsNotInTheKey(resolve, m.born[e.ref], m.now[e.ref]);
    DeliverKeepsRows(env, m, v, table);
  }

  lemma StateIsNotInTheKey(resolve: Resolver, c: Conn, state: string)
    ensures Concrete(resolve, c.(state := state)) == Concrete(resolve, c).(state := state)
    ensures GetConnectionKey(Concrete(resolve, c).(state := state)) == GetConnectionKey(Concrete(resolve, c))
  {}

  /** The live row under `c` is filed under the key, and shows the state, of a connection in the
      reconciler's table. */
  ghost predicate IsScanned(resolve: Resolver, w: World, c: string, scanned: Conn)
  {
    var m, table, k := w.mem, Table(w.scan), GetConnectionKey(scanned);
    && k in table && table[k] < |m.born| && m.born[table[k]] == scanned
    && LiveKey(resolve, scanned) == c
    && c in m.live && m.live[c] < |m.now| && m.now[m.live[c]] == scanned.state
  }

  lemma ScannedRow(options: Options, daemons: Daemons, resolve: Resolver, w: World, c: string, k: string)
    requires ShowsScanned(ProgramEnv(options, daemons, resolve), w, c, k)
    ensures IsScanned(resolve, w, c, w.mem.born[Table(w.scan)[k]])
  {}

  /** No ghosts for the program itself: with the channel drained, every live row is a scanned one. */
  lemma LiveRowsAreScanned(options: Options, daemons: Daemons, resolve: Resolver, actions: seq<Action>)
    requires AllReport(ProgramEnv(options, daemons, resolve), actions)
    ensures var w := Run(ProgramEnv(options, daemons, resolve), actions);
            Drained(w.mem) ==> forall c :: c in w.mem.live ==> exists scanned :: IsScanned(resolve, w, c, scanned)
  {
    var env := ProgramEnv(options, daemons, resolve);
    ProgramEnvOk(options, daemons, resolve);
    NoGhosts(env, actions);
    var w := Run(env, actions);
    if Drained(w.mem) {
      forall c | c in w.mem.live
        ensures exists scanned :: IsScanned(resolve, w, c, scanned)
      {
        var k :| ShowsScanned(env, w, c, k);
        ScannedRow(options, daemons, resolve, w, c, k);
      }
    }
  }
}
