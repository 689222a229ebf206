/** The kernel probes: entry probes stash a thread's socket, exit probes take it out again, and
    everything reported about flows passes one time-stamped table shared by all hooks. */
module Probes {
  import opened FlowKeys
  import opened Text

  const STASH_CAPACITY := 4096
  const SECOND := 1_000_000_000
  const FLOW_WINDOW := 5 * SECOND
  const ARP_WINDOW := 30 * SECOND
  const UDP := 17
  const UDP_LITE := 136
  const ARP := 218
  const EINPROGRESS := 115
  const U64 := 0x1_0000_0000_0000_0000

  /** pid in the upper half, thread id in the lower. */
  type Thread = t: int | 0 <= t < U64

  function Pid(t: Thread): (p: nat)
    ensures p < 0x1_0000_0000
  {
    t / 0x1_0000_0000
  }

  /** A socket pointer; 0 is NULL. */
  type Sock = nat

  datatype EventType = Connect | Accept

  datatype NetscanEvent = NetscanEvent(
    eventType: EventType, protocol: nat, pid: nat, uid: nat, shown: Endpoints, at: nat)

  /** The flow key an event stands for: its endpoints, or its process and socket type. */
  function KeyOfEvent(e: NetscanEvent): FlowKey
  {
    if e.shown.ipVersion == 0 then NonIpKey(e.pid, e.shown.sport) else KeyShown(e.shown)
  }

  /** What an entry probe stashes: two pointers. 0 is NULL. */
  datatype Args = Args(sk: Sock, msg: nat)

  /** Kernel memory as an exit probe finds it: what lies behind a socket or message pointer. */
  datatype Mem = Mem(socks: Sock -> SockMem, names: nat -> MsgName)

  const NO_SOCK := SockMem(0, ZERO4, ZERO4, ZERO6, ZERO6, 0, 0, 0, 0, 0)

  /** Reading through NULL yields zeros. */
  function SockAt(mem: Mem, sk: Sock): SockMem { if sk == 0 then NO_SOCK else mem.socks(sk) }

  function NameAt(mem: Mem, msg: nat): MsgName { if msg == 0 then Absent else mem.names(msg) }

  /** History, for stating properties only: what the entry and exit probes of each thread did, and
      every pass through the flow table, with the event if the ring buffer had room for it. */
  datatype Item =
    | Entered(thread: Thread, args: Args, stored: bool)
    | Took(thread: Thread, args: Args)
    | ConnectEntered(thread: Thread, sk: Sock, stored: bool)
    | ConnectReturned(thread: Thread)
    | ConnectReported(thread: Thread, sk: Sock, event: NetscanEvent)
    | Passed(thread: Thread, sk: Sock, key: FlowKey, at: nat, window: nat, emitted: Option<NetscanEvent>)
    | Evicted(key: FlowKey)

  datatype Kernel = Kernel(
    connectStart: map<Thread, Sock>,
    stash: map<Thread, Args>,
    dedup: map<FlowKey, nat>,
    ring: seq<NetscanEvent>,
    clock: nat,
    history: seq<Item>)

  const BOOT := Kernel(map[], map[], map[], [], 0, [])

  /** `bpf_map_update_elem` on a plain hash map: it fails silently when the map is full. */
  predicate Fits<V>(m: map<Thread, V>, t: Thread) { t in m || |m| < STASH_CAPACITY }

  function Put<V>(m: map<Thread, V>, t: Thread, v: V): map<Thread, V> { if Fits(m, t) then m[t := v] else m }

  function Lookup<V>(m: map<Thread, V>, t: Thread): Option<V> { if t in m then Some(m[t]) else None }

  /** What an exit probe wants to report once it has its socket. */
  datatype Report = Report(eventType: EventType, protocol: nat, key: FlowKey, shown: Endpoints, uid: nat)

  /** The send hooks. A socket's own protocol replaces the hook's, except for raw sockets. */
  function SendReport(report: nat, sock: SockMem, name: MsgName): Option<Report>
  {
    var own := sock.protocol % 256;
    var protocol := if report != RAW && own != 0 then own else report;
    var key := Resolved(sock, name, protocol).(sport := if protocol == RAW then own else sock.num);
    if protocol == UDP_LITE || (protocol != RAW && key.sport == 0) then None
    else Some(Report(Connect, protocol, key, Shown(key), sock.uid))
  }

  /** The receive hooks: always UDP. */
  function ReceiveReport(sock: SockMem, name: MsgName): Option<Report>
  {
    var key := Resolved(sock, name, UDP).(sport := sock.num);
    if key.sport == 0 then None else Some(Report(Accept, UDP, key, Shown(key), sock.uid))
  }

  /** Protocols without IP addresses: the key holds the process, the event the socket's protocol. */
  function NonIpReport(report: nat, t: Thread, sock: SockMem): Option<Report>
  {
    Some(Report(Connect, report, NonIpKey(Pid(t), sock.sockType),
                Endpoints(0, ZERO4, ZERO4, ZERO6, ZERO6, sock.sockType, sock.protocol), sock.uid))
  }

  /** The exit probes that share the flow table. */
  datatype Hook = Send(report: nat) | Receive | NonIp(report: nat)

  /** What a hook has to say about the stashed pointers, reading memory through them. */
  function ReportOf(hook: Hook, t: Thread, mem: Mem, args: Args): Option<Report>
  {
    match hook
    case Send(report) => SendReport(report, SockAt(mem, args.sk), NameAt(mem, args.msg))
    case Receive => ReceiveReport(SockAt(mem, args.sk), NameAt(mem, args.msg))
    case NonIp(report) => NonIpReport(report, t, SockAt(mem, args.sk))
  }

  function EventOf(r: Report, t: Thread, now: nat): NetscanEvent
  {
    NetscanEvent(r.eventType, r.protocol, Pid(t), r.uid, r.shown, now)
  }

  /** `now - last` in unsigned 64-bit arithmetic. */
  function Elapsed(now: nat, last: nat): (ns: nat)
    ensures last <= now ==> ns <= now - last
    ensures last <= now < last + U64 ==> ns == now - last
  {
    (now - last) % U64
  }

  predicate TooSoon(dedup: map<FlowKey, nat>, key: FlowKey, now: nat, window: nat)
  {
    key in dedup && Elapsed(now, dedup[key]) < window
  }

  /** The throttle and the emission: the time stamp is taken even if the ring buffer is full. */
  function Pass(k: Kernel, t: Thread, sk: Sock, r: Report, window: nat, room: bool): Kernel
  {
    if TooSoon(k.dedup, r.key, k.clock, window) then k
    else
      var event := EventOf(r, t, k.clock);
      k.(dedup := k.dedup[r.key := k.clock],
         ring := if room then k.ring + [event] else k.ring,
         history := k.history + [Passed(t, sk, r.key, k.clock, window, if room then Some(event) else None)])
  }

  /** Takes a thread's entry out of the stash. */
  function Take(k: Kernel, t: Thread): Kernel
    requires t in k.stash
  {
    k.(stash := k.stash - {t}, history := k.history + [Took(t, k.stash[t])])
  }

  /** The common shape of the exit probes. */
  function Exit(k: Kernel, t: Thread, ret: int, hook: Hook, mem: Mem, room: bool): Kernel
  {
    if ret < 0 || t !in k.stash then k
    else
      var args := k.stash[t];
      var r := ReportOf(hook, t, mem, args);
      if args.sk == 0 || r.None? then Take(k, t) else Pass(Take(k, t), t, args.sk, r.value, FLOW_WINDOW, room)
  }

  datatype Step =
    | Enter(thread: Thread, args: Args)                    // any send or receive entry probe
    | FlowExit(thread: Thread, ret: int, hook: Hook, mem: Mem, room: bool)
    | ArpSend(thread: Thread, arpType: nat, destIp: V4, srcIp: V4, uid: nat, room: bool)
    | ConnectEnter(thread: Thread, sk: Sock)               // tcp_v4_connect or tcp_v6_connect
    | ConnectExit(thread: Thread, ret: int, mem: Mem, room: bool)
    | Evict(key: FlowKey)                                  // the LRU map forgets a flow
    | Wait(ns: nat)                                        // the clock never runs backwards

  /** The TCP event filled from a socket; other families are discarded. */
  function ConnectShown(sock: SockMem): Option<Endpoints>
  {
    if sock.family == AF_INET then
      Some(Endpoints(4, sock.rcvSaddr, sock.daddr, ZERO6, ZERO6, sock.num, Ntohs(sock.dport)))
    else if sock.family == AF_INET6 then
      Some(Endpoints(6, ZERO4, ZERO4, sock.v6RcvSaddr, sock.v6Daddr, sock.num, Ntohs(sock.dport)))
    else None
  }

  /** What a connect exit has to say about a socket. */
  function ConnectEvent(t: Thread, ret: int, sock: SockMem, room: bool, now: nat): Option<NetscanEvent>
  {
    if (ret != 0 && ret != -EINPROGRESS) || !room || ConnectShown(sock).None? then None
    else Some(NetscanEvent(Connect, TCP, Pid(t), sock.uid, ConnectShown(sock).value, now))
  }

  function LeaveConnect(k: Kernel, t: Thread, ret: int, mem: Mem, room: bool): Kernel
  {
    var back := k.(connectStart := k.connectStart - {t}, history := k.history + [ConnectReturned(t)]);
    if t !in k.connectStart then back
    else
      var sk := k.connectStart[t];
      var event := ConnectEvent(t, ret, SockAt(mem, sk), room, k.clock);
      if event.None? then back
      else back.(ring := k.ring + [event.value], history := back.history + [ConnectReported(t, sk, event.value)])
  }

  function Next(k: Kernel, s: Step): Kernel
  {
    match s
    case Enter(t, args) =>
      k.(stash := Put(k.stash, t, args), history := k.history + [Entered(t, args, Fits(k.stash, t))])
    case FlowExit(t, ret, hook, mem, room) => Exit(k, t, ret, hook, mem, room)
    case ArpSend(t, arpType, destIp, srcIp, uid, room) =>
      var key := ArpKey(arpType, destIp, srcIp);
      Pass(k, t, 0, Report(Connect, ARP, key, Shown(key), uid), ARP_WINDOW, room)
    case ConnectEnter(t, sk) =>
      k.(connectStart := Put(k.connectStart, t, sk),
         history := k.history + [ConnectEntered(t, sk, Fits(k.connectStart, t))])
    case ConnectExit(t, ret, mem, room) => LeaveConnect(k, t, ret, mem, room)
    case Evict(key) => k.(dedup := k.dedup - {key}, history := k.history + [Evicted(key)])
    case Wait(ns) => k.(clock := k.clock + ns)
  }

  function RunFrom(k: Kernel, steps: seq<Step>): Kernel
  {
    if steps == [] then k else Next(RunFrom(k, steps[..|steps| - 1]), steps[|steps| - 1])
  }

  function Run(steps: seq<Step>): Kernel { RunFrom(BOOT, steps) }

  // ---------- what the history alone determines ----------

  /** Connect calls a thread is inside of: entered and not yet returned from. */
  function ConnectDepth(history: seq<Item>, t: Thread): nat
  {
    if history == [] then 0
    else
      var before, last := ConnectDepth(history[..|history| - 1], t), history[|history| - 1];
      if last.ConnectEntered? && last.thread == t then before + 1
      else if last.ConnectReturned? && last.thread == t && before > 0 then before - 1
      else before
  }

  predicate TouchesStash(item: Item, t: Thread) { (item.Entered? || item.Took?) && item.thread == t }

  /** What a thread entered last and nobody took since, if it could be stored. */
  function Stashed(history: seq<Item>, t: Thread): Option<Args>
  {
    if history == [] then None
    else
      var last := history[|history| - 1];
      if !TouchesStash(last, t) then Stashed(history[..|history| - 1], t)
      else if last.Entered? && last.stored then Some(last.args) else None
  }

  predicate TouchesConnect(item: Item, t: Thread)
  {
    (item.ConnectEntered? || item.ConnectReturned?) && item.thread == t
  }

  /** The socket of the connect call a thread entered last and has not returned from. */
  function Connecting(history: seq<Item>, t: Thread): Option<Sock>
  {
    if history == [] then None
    else
      var last := history[|history| - 1];
      if !TouchesConnect(last, t) then Connecting(history[..|history| - 1], t)
      else if last.ConnectEntered? && last.stored then Some(last.sk) else None
  }

  /** The flow table is nothing but the last pass of each key since its last eviction. */
  function LastPass(history: seq<Item>): map<FlowKey, nat>
  {
    if history == [] then map[]
    else
      var before, last := LastPass(history[..|history| - 1]), history[|history| - 1];
      match last
      case Passed(_, _, key, at, _, _) => before[key := at]
      case Evicted(key) => before - {key}
      case _ => before
  }

  // ---------- invariants ----------

  ghost predicate StashOk(k: Kernel)
  {
    forall t: Thread :: Lookup(k.stash, t) == Stashed(k.history, t)
  }

  ghost predicate ConnectOk(k: Kernel)
  {
    forall t: Thread ::
      Lookup(k.connectStart, t) == Connecting(k.history, t) && (t in k.connectStart ==> ConnectDepth(k.history, t) > 0)
  }

  /** The ring buffer holds exactly the events of the history. */
  function Events(history: seq<Item>): seq<NetscanEvent>
  {
    if history == [] then []
    else
      var before, last := Events(history[..|history| - 1]), history[|history| - 1];
      match last
      case Passed(_, _, _, _, _, Some(event)) => before + [event]
      case ConnectReported(_, _, event) => before + [event]
      case _ => before
  }

  predicate TakesSock(item: Item, t: Thread, sk: Sock) { item.Took? && item.thread == t && item.args.sk == sk }

  /** How each history item fits what came before it. */
  ghost predicate ItemOk(history: seq<Item>, i: nat)
    requires i < |history|
  {
    var before := history[..i];
    match history[i]
    case Took(t, args) => Stashed(before, t) == Some(args)
    case ConnectReported(t, sk, _) =>
      i > 0 && history[i - 1] == ConnectReturned(t) && Connecting(history[..i - 1], t) == Some(sk)
    case Passed(t, sk, key, at, window, emitted) =>
      && (emitted.Some? ==> emitted.value.at == at && KeyOfEvent(emitted.value) == key)
      && !TooSoon(LastPass(before), key, at, window)
      && (key in LastPass(before) ==> LastPass(before)[key] <= at)
      && (if sk == 0 then window == ARP_WINDOW else window == FLOW_WINDOW && i > 0 && TakesSock(history[i - 1], t, sk))
    case _ => true
  }

  ghost predicate ItemsOk(h: seq<Item>) { forall i: nat :: i < |h| ==> ItemOk(h, i) }

  ghost predicate TableOk(k: Kernel)
  {
    && k.dedup == LastPass(k.history) && k.ring == Events(k.history)
    && forall key :: key in k.dedup ==> k.dedup[key] <= k.clock
  }

  ghost predicate Inv(k: Kernel) { StashOk(k) && ConnectOk(k) && TableOk(k) && ItemsOk(k.history) }

  lemma SnocItem(history: seq<Item>, item: Item)
    ensures (history + [item])[..|history|] == history
    ensures forall i: nat :: i <= |history| ==> (history + [item])[..i] == history[..i]
  {}

  lemma ItemsSnoc(history: seq<Item>, item: Item)
    requires ItemsOk(history) && ItemOk(history + [item], |history|)
    ensures ItemsOk(history + [item])
  {
    SnocItem(history, item);
    forall i: nat | i < |history|
      ensures ItemOk(history + [item], i)
    {
      assert ItemOk(history, i);
      assert i > 0 ==> (history + [item])[..i - 1] == history[..i - 1];
    }
  }

  /** An item that is not about stashes or connect calls leaves what is known of them alone. */
  lemma SnocStash(k: Kernel, item: Item)
    requires StashOk(k) && !item.Entered? && !item.Took?
    ensures StashOk(k.(history := k.history + [item]))
  {
    SnocItem(k.history, item);
  }

  lemma SnocConnect(k: Kernel, item: Item)
    requires ConnectOk(k) && !item.ConnectEntered? && !item.ConnectReturned?
    ensures ConnectOk(k.(history := k.history + [item]))
  {
    SnocItem(k.history, item);
  }

  lemma SnocTable(k: Kernel, item: Item)
    requires TableOk(k) && !item.Passed? && !item.Evicted? && !item.ConnectReported?
    ensures TableOk(k.(history := k.history + [item]))
  {
    SnocItem(k.history, item);
  }

  lemma EnterKeepsInv(k: Kernel, t: Thread, args: Args)
    requires Inv(k)
    ensures Inv(Next(k, Enter(t, args)))
  {
    var item := Entered(t, args, Fits(k.stash, t));
    SnocItem(k.history, item);
    ItemsSnoc(k.history, item);
    SnocConnect(k, item);
    SnocTable(k, item);
  }

  lemma TakeKeepsInv(k: Kernel, t: Thread)
    requires Inv(k) && t in k.stash
    ensures Inv(Take(k, t))
  {
    var item := Took(t, k.stash[t]);
    SnocItem(k.history, item);
    assert Stashed(k.history, t) == Lookup(k.stash, t);
    ItemsSnoc(k.history, item);
    SnocConnect(k, item);
    SnocTable(k, item);
  }

  /** The event a report turns into determines the key it is throttled under. */
  ghost predicate Faithful(r: Report, t: Thread)
  {
    r.key == if r.shown.ipVersion == 0 then NonIpKey(Pid(t), r.shown.sport) else KeyShown(r.shown)
  }

  lemma SendIsFaithful(t: Thread, report: nat, sock: SockMem, name: MsgName)
    ensures SendReport(report, sock, name).Some? ==> Faithful(SendReport(report, sock, name).value, t)
  {
    var own := sock.protocol % 256;
    var protocol := if report != RAW && own != 0 then own else report;
    KeyIsRecoverable(sock, name, protocol, if protocol == RAW then own else sock.num);
  }

  lemma ReceiveIsFaithful(t: Thread, sock: SockMem, name: MsgName)
    ensures ReceiveReport(sock, name).Some? ==> Faithful(ReceiveReport(sock, name).value, t)
  {
    KeyIsRecoverable(sock, name, UDP, sock.num);
  }

  lemma ReportsAreFaithful(hook: Hook, t: Thread, mem: Mem, args: Args)
    ensures ReportOf(hook, t, mem, args).Some? ==> Faithful(ReportOf(hook, t, mem, args).value, t)
  {
    match hook
    case Send(report) => SendIsFaithful(t, report, SockAt(mem, args.sk), NameAt(mem, args.msg));
    case Receive => ReceiveIsFaithful(t, SockAt(mem, args.sk), NameAt(mem, args.msg));
    case NonIp(report) =>
  }

  /** Passing the flow table: stamp and event agree with the history. */
  lemma PassKeepsTable(k: Kernel, t: Thread, sk: Sock, r: Report, window: nat, room: bool)
    requires TableOk(k)
    ensures TableOk(Pass(k, t, sk, r, window, room))
  {
    var event := if room then Some(EventOf(r, t, k.clock)) else None;
    SnocItem(k.history, Passed(t, sk, r.key, k.clock, window, event));
  }

  lemma PassedItemOk(k: Kernel, t: Thread, sk: Sock, r: Report, window: nat, event: Option<NetscanEvent>)
    requires TableOk(k) && Faithful(r, t) && !TooSoon(k.dedup, r.key, k.clock, window)
    requires event == None || event == Some(EventOf(r, t, k.clock))
    requires if sk == 0 then window == ARP_WINDOW
             else window == FLOW_WINDOW && |k.history| > 0 && TakesSock(k.history[|k.history| - 1], t, sk)
    ensures ItemOk(k.history + [Passed(t, sk, r.key, k.clock, window, event)], |k.history|)
  {
    SnocItem(k.history, Passed(t, sk, r.key, k.clock, window, event));
  }

  lemma PassKeepsInv(k: Kernel, t: Thread, sk: Sock, r: Report, window: nat, room: bool)
    requires Inv(k) && Faithful(r, t)
    requires if sk == 0 then window == ARP_WINDOW
             else window == FLOW_WINDOW && |k.history| > 0 && TakesSock(k.history[|k.history| - 1], t, sk)
    ensures Inv(Pass(k, t, sk, r, window, room))
  {
    PassKeepsTable(k, t, sk, r, window, room);
    if !TooSoon(k.dedup, r.key, k.clock, window) {
      var event := if room then Some(EventOf(r, t, k.clock)) else None;
      var item := Passed(t, sk, r.key, k.clock, window, event);
      PassedItemOk(k, t, sk, r, window, event);
      ItemsSnoc(k.history, item);
      SnocConnect(k, item);
      SnocStash(k, item);
    }
  }

  lemma ExitKeepsInv(k: Kernel, t: Thread, ret: int, hook: Hook, mem: Mem, room: bool)
    requires Inv(k)
    ensures Inv(Exit(k, t, ret, hook, mem, room))
  {
    if ret >= 0 && t in k.stash {
      var args := k.stash[t];
      var r := ReportOf(hook, t, mem, args);
      TakeKeepsInv(k, t);
      ReportsAreFaithful(hook, t, mem, args);
      if args.sk != 0 && r.Some? {
        PassKeepsInv(Take(k, t), t, args.sk, r.value, FLOW_WINDOW, room);
      }
    }
  }

  lemma ConnectEnterKeepsInv(k: Kernel, t: Thread, sk: Sock)
    requires Inv(k)
    ensures Inv(Next(k, ConnectEnter(t, sk)))
  {
    var item := ConnectEntered(t, sk, Fits(k.connectStart, t));
    SnocItem(k.history, item);
    ItemsSnoc(k.history, item);
    SnocStash(k, item);
    SnocTable(k, item);
  }

  lemma ReturnKeepsInv(k: Kernel, t: Thread)
    requires Inv(k)
    ensures Inv(k.(connectStart := k.connectStart - {t}, history := k.history + [ConnectReturned(t)]))
  {
    var item := ConnectReturned(t);
    SnocItem(k.history, item);
    ItemsSnoc(k.history, item);
    SnocStash(k, item);
    SnocTable(k, item);
  }

  lemma ReportedKeepsInv(k: Kernel, t: Thread, sk: Sock, event: NetscanEvent)
    requires Inv(k) && |k.history| > 0 && k.history[|k.history| - 1] == ConnectReturned(t)
    requires Connecting(k.history[..|k.history| - 1], t) == Some(sk)
    ensures Inv(k.(ring := k.ring + [event], history := k.history + [ConnectReported(t, sk, event)]))
  {
    var item := ConnectReported(t, sk, event);
    SnocItem(k.history, item);
    ItemsSnoc(k.history, item);
    SnocStash(k, item);
    SnocConnect(k, item);
  }

  lemma LeaveKeepsInv(k: Kernel, t: Thread, ret: int, mem: Mem, room: bool)
    requires Inv(k)
    ensures Inv(LeaveConnect(k, t, ret, mem, room))
  {
    ReturnKeepsInv(k, t);
    if t in k.connectStart {
      var sk := k.connectStart[t];
      var event := ConnectEvent(t, ret, SockAt(mem, sk), room, k.clock);
      var back := k.(connectStart := k.connectStart - {t}, history := k.history + [ConnectReturned(t)]);
      SnocItem(k.history, ConnectReturned(t));
      assert Connecting(k.history, t) == Lookup(k.connectStart, t);
      if event.Some? { ReportedKeepsInv(back, t, sk, event.value); }
    }
  }

  lemma EvictKeepsInv(k: Kernel, key: FlowKey)
    requires Inv(k)
    ensures Inv(Next(k, Evict(key)))
  {
    SnocItem(k.history, Evicted(key));
    ItemsSnoc(k.history, Evicted(key));
    SnocStash(k, Evicted(key));
    SnocConnect(k, Evicted(key));
  }

  lemma NextKeepsInv(k: Kernel, s: Step)
    requires Inv(k)
    ensures Inv(Next(k, s))
  {
    match s
    case Enter(t, args) => EnterKeepsInv(k, t, args);
    case FlowExit(t, ret, hook, mem, room) => ExitKeepsInv(k, t, ret, hook, mem, room);
    case ArpSend(t, arpType, destIp, srcIp, uid, room) =>
      var key := ArpKey(arpType, destIp, srcIp);
      PassKeepsInv(k, t, 0, Report(Connect, ARP, key, Shown(key), uid), ARP_WINDOW, room);
    case ConnectEnter(t, sk) => ConnectEnterKeepsInv(k, t, sk);
    case ConnectExit(t, ret, mem, room) => LeaveKeepsInv(k, t, ret, mem, room);
    case Evict(key) => EvictKeepsInv(k, key);
    case Wait(_) =>
  }

  lemma {:induction false} RunFromKeepsInv(k: Kernel, steps: seq<Step>)
    requires Inv(k)
    ensures Inv(RunFrom(k, steps))
  {
    if steps != [] {
      RunFromKeepsInv(k, steps[..|steps| - 1]);
      NextKeepsInv(RunFrom(k, steps[..|steps| - 1]), steps[|steps| - 1]);
    }
  }

  lemma RunKeepsInv(steps: seq<Step>)
    ensures Inv(Run(steps))
  {
    RunFromKeepsInv(BOOT, steps);
  }

  // ---------- the throttle ----------

  ghost predicate EvictedBetween(history: seq<Item>, key: FlowKey, i: int, j: int)
    requires 0 <= i && j <= |history|
  {
    exists n :: i < n < j && history[n] == Evicted(key)
  }

  /** While a flow is not evicted, its time stamp never falls behind an earlier pass. */
  lemma {:induction false} StampSurvives(history: seq<Item>, i: int, j: int)
    requires ItemsOk(history)
    requires 0 <= i < j <= |history| && history[i].Passed? && !EvictedBetween(history, history[i].key, i, j)
    ensures history[i].key in LastPass(history[..j]) && LastPass(history[..j])[history[i].key] >= history[i].at
    decreases j
  {
    assert history[..j][..j - 1] == history[..j - 1];
    if i < j - 1 {
      StampSurvives(history, i, j - 1);
      assert ItemOk(history, j - 1);
      assert history[j - 1] != Evicted(history[i].key);
    }
  }

  /** Between evictions of a flow's key, any two reports of it, from whichever hooks, are at least
      the later hook's window apart, wherever the ring buffer was full in between. */
  lemma ThrottleBound(steps: seq<Step>, i: int, j: int)
    ensures var h := Run(steps).history;
            0 <= i < j < |h| && PassAgain(h, i, j) ==>
              h[j].at - h[i].at >= h[j].window == if h[j].sk == 0 then 30_000_000_000 else 5_000_000_000
  {
    RunKeepsInv(steps);
    var h := Run(steps).history;
    if 0 <= i < j < |h| && PassAgain(h, i, j) { StampedApart(h, i, j); }
  }

  /** Two passes of one key with no eviction in between. */
  ghost predicate PassAgain(h: seq<Item>, i: int, j: int)
    requires 0 <= i < j < |h|
  {
    h[i].Passed? && h[j].Passed? && h[i].key == h[j].key && !EvictedBetween(h, h[i].key, i, j)
  }

  lemma StampedApart(h: seq<Item>, i: int, j: int)
    requires 0 <= i < j < |h| && ItemsOk(h) && PassAgain(h, i, j)
    ensures h[j].at - h[i].at >= h[j].window == if h[j].sk == 0 then ARP_WINDOW else FLOW_WINDOW
  {
    StampSurvives(h, i, j);
    assert ItemOk(h, j);
  }

  /** Seen from user space: two events that show the same endpoints, or the same process and socket
      type, are at least the later one's window apart. */
  lemma EventsAreThrottled(steps: seq<Step>, i: int, j: int, first: NetscanEvent, second: NetscanEvent)
    ensures var h := Run(steps).history;
            (&& 0 <= i < j < |h| && Emits(h, i, first) && Emits(h, j, second)
             && KeyOfEvent(first) == KeyOfEvent(second) && !EvictedBetween(h, KeyOfEvent(first), i, j))
            ==> second.at - first.at >= h[j].window
    ensures Run(steps).ring == Events(Run(steps).history)
  {
    RunKeepsInv(steps);
    var h := Run(steps).history;
    if 0 <= i < j < |h| && Emits(h, i, first) && Emits(h, j, second) && KeyOfEvent(first) == KeyOfEvent(second)
       && !EvictedBetween(h, KeyOfEvent(first), i, j) {
      assert ItemOk(h, i) && ItemOk(h, j);
      StampedApart(h, i, j);
    }
  }

  predicate Emits(h: seq<Item>, i: int, event: NetscanEvent)
    requires 0 <= i < |h|
  {
    h[i].Passed? && h[i].emitted == Some(event)
  }

  ghost predicate IsLastPass(history: seq<Item>, key: FlowKey, i: int)
  {
    && 0 <= i < |history| && history[i].Passed? && history[i].key == key
    && forall n :: i < n < |history| ==> history[n] != Evicted(key) && !(history[n].Passed? && history[n].key == key)
  }

  lemma {:induction false} FindLastPass(history: seq<Item>, key: FlowKey) returns (i: int)
    requires key in LastPass(history)
    ensures IsLastPass(history, key, i) && LastPass(history)[key] == history[i].at
  {
    i := |history| - 1;
    if !(history[i].Passed? && history[i].key == key) {
      var front := history[..i];
      var last := i;
      i := FindLastPass(front, key);
      assert history[i] == front[i];
      forall n | i < n < |history|
        ensures history[n] != Evicted(key) && !(history[n].Passed? && history[n].key == key)
      {
        if n < last {
          assert history[n] == front[n];
        }
      }
    }
  }

  /** Why a flow is suppressed: its latest pass since its last eviction is too recent. */
  lemma SuppressionExplained(steps: seq<Step>, key: FlowKey, window: nat) returns (i: int)
    requires TooSoon(Run(steps).dedup, key, Run(steps).clock, window)
    ensures var k := Run(steps);
            && IsLastPass(k.history, key, i) && k.history[i].at <= k.clock
            && Elapsed(k.clock, k.history[i].at) < window
  {
    RunKeepsInv(steps);
    i := FindLastPass(Run(steps).history, key);
  }

  lemma {:induction false} LastPassIs(history: seq<Item>, key: FlowKey, i: int)
    requires IsLastPass(history, key, i)
    ensures key in LastPass(history) && LastPass(history)[key] == history[i].at
  {
    var n := |history| - 1;
    if i < n {
      assert IsLastPass(history[..n], key, i);
      LastPassIs(history[..n], key, i);
      assert history[n] != Evicted(key) && !(history[n].Passed? && history[n].key == key);
    }
  }

  ghost predicate NoEviction(steps: seq<Step>, key: FlowKey)
  {
    forall n :: 0 <= n < |steps| ==> steps[n] != Evict(key)
  }

  /** The history grew, and not by an eviction of the key. */
  ghost predicate Extends(h: seq<Item>, longer: seq<Item>, key: FlowKey)
  {
    h <= longer && forall n :: |h| <= n < |longer| ==> longer[n] != Evicted(key)
  }

  lemma ExtendsTwice(a: seq<Item>, b: seq<Item>, c: seq<Item>, key: FlowKey)
    requires Extends(a, b, key) && Extends(b, c, key)
    ensures Extends(a, c, key)
  {}

  lemma PassExtends(k: Kernel, t: Thread, sk: Sock, r: Report, window: nat, room: bool, key: FlowKey)
    ensures Extends(k.history, Pass(k, t, sk, r, window, room).history, key)
  {}

  lemma ExitExtends(k: Kernel, t: Thread, ret: int, hook: Hook, mem: Mem, room: bool, key: FlowKey)
    ensures Extends(k.history, Exit(k, t, ret, hook, mem, room).history, key)
  {
    if ret >= 0 && t in k.stash {
      var r := ReportOf(hook, t, mem, k.stash[t]);
      assert Extends(k.history, Take(k, t).history, key);
      if k.stash[t].sk != 0 && r.Some? {
        PassExtends(Take(k, t), t, k.stash[t].sk, r.value, FLOW_WINDOW, room, key);
        ExtendsTwice(k.history, Take(k, t).history, Exit(k, t, ret, hook, mem, room).history, key);
      }
    }
  }

  lemma NextExtends(k: Kernel, s: Step, key: FlowKey)
    requires s != Evict(key)
    ensures Extends(k.history, Next(k, s).history, key)
  {
    match s
    case FlowExit(t, ret, hook, mem, room) => ExitExtends(k, t, ret, hook, mem, room, key);
    case ArpSend(t, arpType, destIp, srcIp, uid, room) =>
      var arp := ArpKey(arpType, destIp, srcIp);
      PassExtends(k, t, 0, Report(Connect, ARP, arp, Shown(arp), uid), ARP_WINDOW, room, key);
    case _ =>
  }

  lemma {:induction false} RunExtends(k: Kernel, steps: seq<Step>, key: FlowKey)
    requires NoEviction(steps, key)
    ensures Extends(k.history, RunFrom(k, steps).history, key)
  {
    if steps != [] {
      var front, last := steps[..|steps| - 1], steps[|steps| - 1];
      RunExtends(k, front, key);
      NextExtends(RunFrom(k, front), last, key);
      ExtendsTwice(k.history, RunFrom(k, front).history, RunFrom(k, steps).history, key);
    }
  }

  /** The history ends with a pass whose report did not fit into the ring buffer. */
  ghost predicate JustLost(k: Kernel, key: FlowKey)
  {
    && |k.history| > 0
    && var last := k.history[|k.history| - 1];
       last.Passed? && last.key == key && last.emitted.None?
  }

  /** A report lost to a full ring buffer still starts the window. Whatever happens after it, short of
      an eviction, no hook gets an event of that key out before its own window has passed since the
      loss. */
  lemma LostReportSilencesFlow(steps: seq<Step>, more: seq<Step>, key: FlowKey)
    requires JustLost(Run(steps), key) && NoEviction(more, key)
    ensures var k, q := Run(steps), RunFrom(Run(steps), more);
            var lost := k.history[|k.history| - 1];
            && k.history <= q.history && q.ring == Events(q.history)
            && forall j :: |k.history| <= j < |q.history| && q.history[j].Passed? && q.history[j].key == key ==>
                 q.history[j].at >= lost.at + q.history[j].window
  {
    var k, q := Run(steps), RunFrom(Run(steps), more);
    var n := |k.history|;
    RunKeepsInv(steps);
    RunFromKeepsInv(k, more);
    RunExtends(k, more, key);
    forall j | n <= j < |q.history| && q.history[j].Passed? && q.history[j].key == key
      ensures q.history[j].at >= k.history[n - 1].at + q.history[j].window
    {
      assert q.history[n - 1] == k.history[n - 1];
      StampedApart(q.history, n - 1, j);
    }
  }

  // ---------- what an exit probe reports, as the history sees it ----------

  /** The report an exit is due: the one of its thread's last entry, if that was stored and not taken. */
  function DueReport(history: seq<Item>, s: Step): Option<Report>
    requires s.FlowExit?
  {
    var args := Stashed(history, s.thread);
    if s.ret < 0 || args.None? || args.value.sk == 0 then None else ReportOf(s.hook, s.thread, s.mem, args.value)
  }

  /** The event it adds: not within the window since the key's last pass, and only if there is room. */
  function DueEvent(history: seq<Item>, now: nat, s: Step): Option<NetscanEvent>
    requires s.FlowExit?
  {
    var r := DueReport(history, s);
    if r.None? || !s.room || TooSoon(LastPass(history), r.value.key, now, FLOW_WINDOW) then None
    else Some(EventOf(r.value, s.thread, now))
  }

  function Only(event: Option<NetscanEvent>): seq<NetscanEvent> { if event.Some? then [event.value] else [] }

  /** Stash and time stamps, as the history has them. */
  lemma KnownFromHistory(steps: seq<Step>, t: Thread)
    ensures var k := Run(steps); Lookup(k.stash, t) == Stashed(k.history, t) && k.dedup == LastPass(k.history)
  {
    RunKeepsInv(steps);
  }

  /** After any run an exit probe adds exactly the event the history says is due. */
  lemma ExitShowsWhatIsDue(steps: seq<Step>, s: Step)
    requires s.FlowExit?
    ensures var k := Run(steps); Next(k, s).ring == k.ring + Only(DueEvent(k.history, k.clock, s))
  {
    KnownFromHistory(steps, s.thread);
  }

  /** With the ring buffer full, a report that is due and not throttled is lost, and leaves its mark. */
  lemma FullBufferLosesReport(steps: seq<Step>, s: Step)
    requires s.FlowExit? && !s.room
    ensures var k := Run(steps); var r := DueReport(k.history, s);
            r.Some? && !TooSoon(LastPass(k.history), r.value.key, k.clock, FLOW_WINDOW) ==>
              JustLost(Next(k, s), r.value.key) && Next(k, s).ring == k.ring
  {
    KnownFromHistory(steps, s.thread);
  }

  /** When a lost flow is shown again: with room and a report due, as soon as the window has passed
      since the loss, unless it has passed the flow table in between. */
  lemma ShownAgainIff(steps: seq<Step>, i: int, s: Step)
    requires s.FlowExit? && s.room
    ensures var k := Run(steps); var r := DueReport(k.history, s);
            r.Some? && IsLastPass(k.history, r.value.key, i) ==>
              (|Next(k, s).ring| > |k.ring| <==> Elapsed(k.clock, k.history[i].at) >= FLOW_WINDOW)
  {
    var k := Run(steps);
    var r := DueReport(k.history, s);
    ExitShowsWhatIsDue(steps, s);
    if r.Some? && IsLastPass(k.history, r.value.key, i) { LastPassIs(k.history, r.value.key, i); }
  }

  // ---------- the stashes ----------

  lemma {:induction false} FindEntry(history: seq<Item>, t: Thread) returns (i: int)
    requires Stashed(history, t).Some?
    ensures IsLastEntry(history, t, i) && Stashed(history, t) == Some(history[i].args)
  {
    i := |history| - 1;
    if !TouchesStash(history[i], t) {
      var front, last := history[..i], i;
      i := FindEntry(front, t);
      assert history[i] == front[i];
      forall n | i < n < |history|
        ensures !TouchesStash(history[n], t)
      {
        if n < last {
          assert history[n] == front[n];
        }
      }
    }
  }

  /** The last thing that happened to the thread's stash is that the entry at `i` was stored. */
  ghost predicate IsLastEntry(h: seq<Item>, t: Thread, i: int)
  {
    && 0 <= i < |h| && h[i].Entered? && h[i].thread == t && h[i].stored
    && forall n :: i < n < |h| ==> !TouchesStash(h[n], t)
  }

  lemma EntryIsKept(k: Kernel, t: Thread, args: Args)
    ensures var q := Next(k, Enter(t, args));
            q.stash == if t in k.stash || |k.stash| < 4096 then k.stash[t := args] else k.stash
  {}

  /** The stash never holds more than 4096 threads. */
  lemma {:induction false} StashIsBounded(steps: seq<Step>)
    ensures |Run(steps).stash| <= 4096
  {
    if steps != [] {
      var front, s := steps[..|steps| - 1], steps[|steps| - 1];
      StashIsBounded(front);
      if s.Enter? { EntryIsKept(Run(front), s.thread, s.args); }
    }
  }

  // ---------- what an event says, in plain terms ----------

  /** The send hooks name the transport of the socket, if it has one and the hook is not the raw one. */
  predicate SendProtocol(hook: nat, sock: SockMem, protocol: nat)
  {
    && (hook == 255 || sock.protocol % 256 == 0 ==> protocol == hook)
    && (hook != 255 && sock.protocol % 256 != 0 ==> protocol == sock.protocol % 256)
  }

  /** The event of a send hook: never UDP-Lite, and with a local port unless it is raw. */
  ghost predicate TellsSend(hook: nat, sock: SockMem, name: MsgName, e: NetscanEvent)
  {
    && e.eventType == Connect && SendProtocol(hook, sock, e.protocol) && e.protocol != 136
    && (e.protocol == 255 ==> e.shown.sport == sock.protocol % 256)
    && (e.protocol != 255 ==> e.shown.sport == sock.num != 0)
    && Addressed(sock, name, e.protocol, e.shown)
  }

  ghost predicate TellsReceive(sock: SockMem, name: MsgName, e: NetscanEvent)
  {
    e.eventType == Accept && e.protocol == 17 && e.shown.sport == sock.num != 0 && Addressed(sock, name, 17, e.shown)
  }

  ghost predicate TellsNonIp(hook: nat, sock: SockMem, e: NetscanEvent)
  {
    && e.eventType == Connect && e.protocol == hook && e.shown.ipVersion == 0
    && AllZero(e.shown.saddrV4) && AllZero(e.shown.daddrV4) && AllZero(e.shown.saddrV6) && AllZero(e.shown.daddrV6)
    && e.shown.sport == sock.sockType && e.shown.dport == sock.protocol
  }

  ghost predicate Tells(hook: Hook, sock: SockMem, name: MsgName, e: NetscanEvent)
  {
    match hook
    case Send(report) => TellsSend(report, sock, name, e)
    case Receive => TellsReceive(sock, name, e)
    case NonIp(report) => TellsNonIp(report, sock, e)
  }

  /** A send hook keeps silent about UDP-Lite and sockets without a port, a receive hook about the latter. */
  ghost predicate Silent(hook: Hook, sock: SockMem)
  {
    match hook
    case Send(report) =>
      exists protocol :: SendProtocol(report, sock, protocol) && (protocol == 136 || (protocol != 255 && sock.num == 0))
    case Receive => sock.num == 0
    case NonIp(report) => false
  }

  lemma SendTells(report: nat, t: Thread, sock: SockMem, name: MsgName, now: nat)
    ensures var r := SendReport(report, sock, name);
            && (r.None? <==> Silent(Send(report), sock))
            && (r.Some? ==> TellsSend(report, sock, name, EventOf(r.value, t, now)))
  {
    var own := sock.protocol % 256;
    var protocol := if report != RAW && own != 0 then own else report;
    assert SendProtocol(report, sock, protocol);
    ResolvedAddressed(sock, name, protocol, if protocol == RAW then own else sock.num);
  }

  /** The report of a hook, turned into an event, and when there is none. */
  lemma ReportTells(hook: Hook, t: Thread, mem: Mem, args: Args, now: nat)
    requires args.sk != 0
    ensures var r := ReportOf(hook, t, mem, args);
            && (r.None? <==> Silent(hook, mem.socks(args.sk)))
            && (r.Some? ==> Tells(hook, mem.socks(args.sk), NameAt(mem, args.msg), EventOf(r.value, t, now)))
  {
    var sock, name := mem.socks(args.sk), NameAt(mem, args.msg);
    match hook
    case Send(report) => SendTells(report, t, sock, name, now);
    case Receive => ResolvedAddressed(sock, name, UDP, sock.num);
    case NonIp(report) =>
  }

  /** What user space receives from an exit probe is about the socket and message of the very last call
      its thread entered, whatever nested, failed or found the stash full before: protocol, addresses,
      ports and user are those in the memory behind those pointers, a null message naming nobody. */
  lemma ReportCarriesLastEntry(steps: seq<Step>, s: Step) returns (i: int, e: NetscanEvent)
    requires s.FlowExit? && Next(Run(steps), s).ring != Run(steps).ring
    ensures var k := Run(steps);
            && IsLastEntry(k.history, s.thread, i) && Next(k, s).ring == k.ring + [e]
            && var Args(sk, msg) := k.history[i].args;
               && s.ret >= 0 && sk != 0 && s.room
               && Tells(s.hook, s.mem.socks(sk), if msg == 0 then Absent else s.mem.names(msg), e)
               && e.uid == s.mem.socks(sk).uid && e.pid == s.thread / 0x1_0000_0000 && e.at == k.clock
  {
    var k := Run(steps);
    ExitShowsWhatIsDue(steps, s);
    i := FindEntry(k.history, s.thread);
    var args := k.history[i].args;
    e := EventOf(ReportOf(s.hook, s.thread, s.mem, args).value, s.thread, k.clock);
    ReportTells(s.hook, s.thread, s.mem, args, k.clock);
  }

  /** And it receives one whenever it should: the call succeeded, its thread's last entry was stored with a
      socket and not taken since, the hook has something to say, there is room, and the flow's latest pass since
      its last eviction, if any, is five seconds old. */
  lemma ReportIsSentIff(steps: seq<Step>, s: Step, i: int, key: FlowKey)
    requires s.FlowExit?
    ensures var k := Run(steps);
            IsLastEntry(k.history, s.thread, i) && Keyed(s, k.history[i].args, key) ==>
              (Next(k, s).ring != k.ring <==>
               && s.ret >= 0 && s.room && k.history[i].args.sk != 0
               && !Silent(s.hook, s.mem.socks(k.history[i].args.sk))
               && forall n :: IsLastPass(k.history, key, n) ==> Elapsed(k.clock, k.history[n].at) >= 5_000_000_000)
  {
    var k := Run(steps);
    ExitShowsWhatIsDue(steps, s);
    if IsLastEntry(k.history, s.thread, i) && Keyed(s, k.history[i].args, key) {
      var args := k.history[i].args;
      StashedIs(k.history, s.thread, i);
      if args.sk != 0 { ReportTells(s.hook, s.thread, s.mem, args, k.clock); }
      if key in LastPass(k.history) { var n := FindLastPass(k.history, key); }
      forall n | IsLastPass(k.history, key, n)
        ensures key in LastPass(k.history) && LastPass(k.history)[key] == k.history[n].at
      {
        LastPassIs(k.history, key, n);
      }
    }
  }

  /** The key of what the hook has to say, if it has anything to say. */
  ghost predicate Keyed(s: Step, args: Args, key: FlowKey)
    requires s.FlowExit?
  {
    var r := ReportOf(s.hook, s.thread, s.mem, args);
    r.Some? ==> r.value.key == key
  }

  lemma {:induction false} StashedIs(history: seq<Item>, t: Thread, i: int)
    requires IsLastEntry(history, t, i)
    ensures Stashed(history, t) == Some(history[i].args)
  {
    var n := |history| - 1;
    if i < n {
      assert IsLastEntry(history[..n], t, i);
      StashedIs(history[..n], t, i);
      assert !TouchesStash(history[n], t);
    }
  }

  /** What an ARP message shows: its own addresses, its type where the port goes, and no destination port. It is
      sent out unless the flow's latest pass since its last eviction is less than thirty seconds old, or there is
      no room. */
  lemma ArpShows(steps: seq<Step>, s: Step)
    requires s.ArpSend?
    ensures var k, key := Run(steps), ArpKey(s.arpType, s.destIp, s.srcIp);
            var ring := Next(k, s).ring;
            && (ring != k.ring <==> && s.room && forall n :: IsLastPass(k.history, key, n) ==>
                                                   Elapsed(k.clock, k.history[n].at) >= 30_000_000_000)
            && (ring != k.ring ==>
                  && |ring| == |k.ring| + 1 && ring[..|k.ring|] == k.ring
                  && var e := ring[|k.ring|];
                     && e.eventType == Connect && e.protocol == 218 && e.shown.ipVersion == 4
                     && e.shown.saddrV4 == s.srcIp && e.shown.daddrV4 == s.destIp
                     && AllZero(e.shown.saddrV6) && AllZero(e.shown.daddrV6)
                     && e.shown.sport == s.arpType % 65536 && e.shown.dport == 0
                     && e.uid == s.uid && e.pid == s.thread / 0x1_0000_0000 && e.at == k.clock)
  {
    var k, key := Run(steps), ArpKey(s.arpType, s.destIp, s.srcIp);
    RunKeepsInv(steps);
    if key in LastPass(k.history) { var n := FindLastPass(k.history, key); }
    forall n | IsLastPass(k.history, key, n)
      ensures key in LastPass(k.history) && LastPass(k.history)[key] == k.history[n].at
    {
      LastPassIs(k.history, key, n);
    }
  }

  /** The pass at `j` was fed by the entry at `i`: stored there, taken just before the pass, and
      nothing happened to the thread's stash in between. */
  ghost predicate FedBy(h: seq<Item>, i: int, j: int)
  {
    && 0 < j < |h| && h[j].Passed? && TakesSock(h[j - 1], h[j].thread, h[j].sk)
    && IsLastEntry(h[..j - 1], h[j].thread, i) && h[i].args == h[j - 1].args
  }

  /** Every pass of a flow was fed by an entry. */
  lemma PassIsFed(steps: seq<Step>, j: int) returns (i: int)
    requires 0 <= j < |Run(steps).history| && Run(steps).history[j].Passed? && Run(steps).history[j].sk != 0
    ensures FedBy(Run(steps).history, i, j)
  {
    RunKeepsInv(steps);
    var h := Run(steps).history;
    assert ItemOk(h, j) && ItemOk(h, j - 1);
    i := FindEntry(h[..j - 1], h[j].thread);
  }

  /** One entry feeds at most one report. */
  lemma EntryFeedsOneReport(h: seq<Item>, i: int, j1: int, j2: int)
    requires FedBy(h, i, j1) && FedBy(h, i, j2)
    ensures j1 == j2
  {
    assert h[j1].thread == h[j2].thread == h[i].thread;
    QuietSince(h, h[i].thread, i, j1 - 1);
    QuietSince(h, h[i].thread, i, j2 - 1);
    assert TouchesStash(h[j1 - 1], h[i].thread) && TouchesStash(h[j2 - 1], h[i].thread);
  }

  lemma QuietSince(h: seq<Item>, t: Thread, i: int, n: int)
    requires 0 <= n <= |h| && IsLastEntry(h[..n], t, i)
    ensures forall m :: i < m < n ==> !TouchesStash(h[m], t)
  {
    forall m | i < m < n
      ensures !TouchesStash(h[m], t)
    {
      assert h[..n][m] == h[m];
    }
  }

  /** The event a connect exit adds. */
  function DueConnect(history: seq<Item>, now: nat, s: Step): Option<NetscanEvent>
    requires s.ConnectExit?
  {
    var sk := Connecting(history, s.thread);
    if sk.None? then None else ConnectEvent(s.thread, s.ret, SockAt(s.mem, sk.value), s.room, now)
  }

  /** The connect stash only ever names threads that are inside a connect call; and a connect exit adds
      exactly the event read from the memory of the socket its thread is connecting. */
  lemma ConnectStashDiscipline(steps: seq<Step>, s: Step)
    requires s.ConnectExit?
    ensures var k := Run(steps);
            && (forall t: Thread :: t in k.connectStart ==> ConnectDepth(k.history, t) > 0)
            && Next(k, s).ring == k.ring + Only(DueConnect(k.history, k.clock, s))
  {
    RunKeepsInv(steps);
    var k := Run(steps);
    assert Lookup(k.connectStart, s.thread) == Connecting(k.history, s.thread);
  }

  /** The socket's own addresses and ports, whatever the family; events are for IPv4 and IPv6 only. */
  ghost predicate TellsConnect(sock: SockMem, e: NetscanEvent)
  {
    && e.eventType == Connect && e.protocol == 6 && e.uid == sock.uid && sock.family in {2, 10}
    && ToPeer(sock, e.shown) && e.shown.sport == sock.num && ShowsPort(sock.dport, e.shown.dport)
    && (sock.family == 2 ==> AllZero(e.shown.saddrV6) && AllZero(e.shown.daddrV6))
    && (sock.family == 10 ==> AllZero(e.shown.saddrV4) && AllZero(e.shown.daddrV4))
  }

  /** What a connect exit adds, in plain terms: with the call done or in progress (115), room, and an IPv4 or IPv6
      socket, the event of the socket the thread is connecting; otherwise nothing. */
  lemma ConnectTells(steps: seq<Step>, s: Step)
    requires s.ConnectExit?
    ensures var k := Run(steps); var sk, ring := Connecting(k.history, s.thread), Next(k, s).ring;
            && (ring != k.ring <==> && sk.Some? && s.ret in {0, -115} && s.room
                                    && SockAt(s.mem, sk.value).family in {2, 10})
            && (ring != k.ring ==>
                  && |ring| == |k.ring| + 1 && ring[..|k.ring|] == k.ring
                  && var e := ring[|k.ring|];
                     && TellsConnect(SockAt(s.mem, sk.value), e)
                     && e.pid == s.thread / 0x1_0000_0000 && e.at == k.clock)
  {
    ConnectStashDiscipline(steps, s);
  }

  /** The shared stash makes no such promise: an exit probe leaves its thread's entry behind exactly
      when the call failed. */
  lemma ExitLeavesEntryIff(k: Kernel, t: Thread, ret: int, hook: Hook, mem: Mem, room: bool)
    ensures t in Exit(k, t, ret, hook, mem, room).stash <==> t in k.stash && ret < 0
  {}
}
