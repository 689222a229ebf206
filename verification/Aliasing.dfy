/** When does it matter that the producer and the live table share objects? The reconciler is
    compared with one that keeps values: same scans, same visits, no objects. */
module Aliasing {
  import opened Connections
  import opened EventLog
  import opened Pipeline
  import Reconciler

  // ---------- runs that respect the filters ----------

  function View(m: Memory, r: nat): Conn
    requires r < |m.born| && r < |m.now|
  {
    m.born[r].(state := m.now[r])
  }

  /** A verdict is one the filters may give for the record being read. */
  ghost predicate Allowed(env: Env, w: World, a: Action)
    requires RefsOk(w)
  {
    var m := w.mem;
    a.Deliver? && m.delivered < |m.log| && m.log[m.delivered].opens ==>
      env.may(env.concrete(View(m, m.log[m.delivered].ref)), a.verdict)
  }

  ghost predicate Legal(env: Env, actions: seq<Action>)
  {
    actions == [] ||
    var front, a := actions[..|actions| - 1], actions[|actions| - 1];
    Legal(env, front) && Reports(env, a) && Allowed(env, Run(env, front), a)
  }

  // ---------- the value-keeping reconciler ----------

  function Steps(actions: seq<Action>): seq<Reconciler.Action>
  {
    if actions == [] then []
    else
      var front, a := Steps(actions[..|actions| - 1]), actions[|actions| - 1];
      if a.Produce? then front + [a.step] else front
  }

  ghost function ValueRun(env: Env, actions: seq<Action>): Reconciler.Producer
  {
    Reconciler.Run(env.key, Steps(actions))
  }

  function EventOf(m: Memory, e: Entry): Event
    requires e.ref < |m.born|
  {
    var c := m.born[e.ref].(state := e.state);
    if e.opens then Opened(e.key, c) else Closed(e.key, c)
  }

  ghost predicate SameLog(m: Memory, log: seq<Event>)
  {
    && |m.log| == |log|
    && forall i :: 0 <= i < |log| ==> m.log[i].ref < |m.born| && EventOf(m, m.log[i]) == log[i]
  }

  /** The shared-object reconciler has written exactly what the value-keeping one writes. */
  ghost predicate SameEvents(env: Env, actions: seq<Action>)
  {
    SameLog(Run(env, actions).mem, ValueRun(env, actions).log)
  }

  /** A wildcard record `w` that is rewritten onto the key of a concrete record `k`, may refresh
      what `k` has stored, and differs from it in state. */
  ghost predicate Collide(env: Env, k: Conn, w: Conn)
  {
    && env.scannable(k) && env.scannable(w)
    && !env.wildcard(k) && env.wildcard(w)
    && env.key(w) != env.key(k) && LiveKeyOf(env, w) == env.key(k)
    && env.may(k, Store) && env.may(env.concrete(w), Refresh)
    && k.state != w.state
  }

  ghost predicate NoCollision(env: Env) { forall k, w :: !Collide(env, k, w) }

  // ---------- without a collision: a simulation ----------

  ghost predicate SameTable(m: Memory, refs: map<string, nat>, values: map<string, Conn>)
  {
    && refs.Keys == values.Keys
    && forall k :: k in refs ==> refs[k] < |m.born| && m.born[refs[k]] == values[k]
  }

  /** Objects that stand for a key have the state they were scanned with. */
  ghost predicate Intact(m: Memory, table: map<string, nat>)
  {
    forall k :: k in table ==> table[k] < |m.born| && table[k] < |m.now| && m.now[table[k]] == m.born[table[k]].state
  }

  ghost predicate StoredLegally(env: Env, m: Memory)
  {
    forall r :: r in m.origin ==> r < |m.born| && env.may(m.born[r], Store)
  }

  ghost predicate Sim(env: Env, w: World, p: Reconciler.Producer)
  {
    && w.scan.phase == p.phase && w.scan.todo == p.todo
    && SameTable(w.mem, w.scan.current, p.current) && SameTable(w.mem, w.scan.latest, p.latest)
    && SameLog(w.mem, p.log)
  }

  ghost predicate Clean(env: Env, w: World) { Intact(w.mem, Table(w.scan)) && StoredLegally(env, w.mem) }

  ghost predicate Matches(scan: seq<Conn>, base: nat, refs: map<string, nat>, values: map<string, Conn>)
  {
    && refs.Keys == values.Keys
    && forall k :: k in refs ==> base <= refs[k] < base + |scan| && scan[refs[k] - base] == values[k]
  }

  /** The object that stands for a key is the record the value table has for it. */
  lemma {:induction false} RefIsFirst(key: Conn -> string, scan: seq<Conn>, n: nat, base: nat, k: string)
    requires n <= |scan|
    ensures var refs, values := FirstRefsUpTo(key, scan, n, base), Reconciler.FirstUpTo(key, scan, n);
            && (k in refs <==> k in values)
            && (k in refs ==> base <= refs[k] < base + n && scan[refs[k] - base] == values[k])
  {
    if n > 0 { RefIsFirst(key, scan, n - 1, base, k); }
  }

  lemma FirstRefsAreFirst(key: Conn -> string, scan: seq<Conn>, base: nat)
    ensures Matches(scan, base, FirstRefs(key, scan, base), Reconciler.FirstByKey(key, scan))
  {
    var refs, values := FirstRefs(key, scan, base), Reconciler.FirstByKey(key, scan);
    forall k: string
      ensures k in refs <==> k in values
      ensures k in refs ==> base <= refs[k] < base + |scan| && scan[refs[k] - base] == values[k]
    {
      RefIsFirst(key, scan, |scan|, base, k);
    }
  }

  lemma GrowKeepsLogValues(m: Memory, q: Memory, log: seq<Event>)
    requires SameLog(m, log) && m.born <= q.born && q.log == m.log
    ensures SameLog(q, log)
  {
    assert forall i :: 0 <= i < |log| ==> EventOf(q, m.log[i]) == EventOf(m, m.log[i]);
  }

  lemma GrowKeepsTable(m: Memory, q: Memory, refs: map<string, nat>, values: map<string, Conn>)
    requires SameTable(m, refs, values) && m.born <= q.born
    ensures SameTable(q, refs, values)
  {}

  lemma NewObjectsMatch(m: Memory, scan: seq<Conn>, refs: map<string, nat>, values: map<string, Conn>)
    requires Matches(scan, |m.born|, refs, values)
    ensures SameTable(Grown(m, scan), refs, values)
  {}

  lemma NewTableMatches(env: Env, m: Memory, scan: seq<Conn>)
    ensures SameTable(Grown(m, scan), FirstRefs(env.key, scan, |m.born|), Reconciler.FirstByKey(env.key, scan))
  {
    FirstRefsAreFirst(env.key, scan, |m.born|);
    NewObjectsMatch(m, scan, FirstRefs(env.key, scan, |m.born|), Reconciler.FirstByKey(env.key, scan));
  }

  lemma BeginSimulates(env: Env, w: World, p: Reconciler.Producer, scan: seq<Conn>)
    requires RefsOk(w) && Sim(env, w, p)
    ensures Sim(env, ProduceNext(env, w, Reconciler.Begin(scan)), Reconciler.Next(env.key, p, Reconciler.Begin(scan)))
  {
    if p.phase == Reconciler.Idle {
      var m, q := w.mem, Grown(w.mem, scan);
      NewTableMatches(env, m, scan);
      GrowKeepsLogValues(m, q, p.log);
      GrowKeepsTable(m, q, w.scan.current, p.current);
      GrowKeepsTable(m, q, w.scan.latest, p.latest);
    }
  }

  lemma SameChange(env: Env, w: World, p: Reconciler.Producer, k: string)
    requires RefsOk(w) && Inv(env, w) && Sim(env, w, p) && Intact(w.mem, Table(w.scan))
    requires w.scan.phase == Reconciler.Comparing && k in w.scan.todo && k in w.scan.latest
    ensures w.mem.now[w.scan.latest[k]] == w.mem.born[w.scan.latest[k]].state
    ensures Changed(w.scan, w.mem, k) <==> NeedsOpen(p.current, p.latest, k)
  {
    assert Untouched(env, w.mem, Table(w.scan), k, w.scan.latest[k]);
    CompareMovesTable(w, k);
  }

  lemma EmitSimulates(m: Memory, log: seq<Event>, opens: bool, k: string, r: nat)
    requires |m.born| == |m.now| && SameLog(m, log) && r < |m.born| && m.now[r] == m.born[r].state
    ensures SameLog(Emit(m, opens, k, r), log + [if opens then Opened(k, m.born[r]) else Closed(k, m.born[r])])
  {
    var q := Emit(m, opens, k, r);
    assert forall i :: 0 <= i < |m.log| ==> EventOf(q, q.log[i]) == EventOf(m, m.log[i]);
  }

  lemma CompareSimulates(env: Env, w: World, p: Reconciler.Producer, k: string)
    requires RefsOk(w) && Inv(env, w) && Sim(env, w, p) && Intact(w.mem, Table(w.scan))
    ensures Sim(env, ProduceNext(env, w, Reconciler.Compare(k)), Reconciler.Next(env.key, p, Reconciler.Compare(k)))
  {
    if w.scan.phase == Reconciler.Comparing && k in w.scan.todo {
      SameChange(env, w, p, k);
      EmitSimulates(w.mem, p.log, true, k, w.scan.latest[k]);
    }
  }

  lemma CloseSimulates(env: Env, w: World, p: Reconciler.Producer, k: string)
    requires RefsOk(w) && Inv(env, w) && Sim(env, w, p) && Intact(w.mem, Table(w.scan))
    ensures Sim(env, ProduceNext(env, w, Reconciler.Close(k)), Reconciler.Next(env.key, p, Reconciler.Close(k)))
  {
    if w.scan.phase == Reconciler.Closing && k in w.scan.todo && k !in w.scan.latest {
      CloseMovesTable(w.scan, k);
      EmitSimulates(w.mem, p.log, false, k, w.scan.current[k]);
    }
  }

  lemma ProduceSimulates(env: Env, w: World, p: Reconciler.Producer, a: Reconciler.Action)
    requires RefsOk(w) && Inv(env, w) && Sim(env, w, p) && Intact(w.mem, Table(w.scan))
    ensures Sim(env, ProduceNext(env, w, a), Reconciler.Next(env.key, p, a))
  {
    match a
    case Begin(scan) => BeginSimulates(env, w, p, scan);
    case Compare(k) => CompareSimulates(env, w, p, k);
    case StartClosing =>
    case Close(k) => CloseSimulates(env, w, p, k);
    case End =>
  }

  lemma ProduceKeepsClean(env: Env, w: World, a: Reconciler.Action)
    requires RefsOk(w) && Inv(env, w) && Clean(env, w)
    ensures Clean(env, ProduceNext(env, w, a))
  {
    var s, m, q := w.scan, w.mem, ProduceNext(env, w, a);
    match a
    case Begin(scan) =>
      assert q.scan.phase == Reconciler.Comparing ==> q == w || Table(q.scan) == Table(s);
    case Compare(k) =>
      if s.phase == Reconciler.Comparing && k in s.todo {
        CompareMovesTable(w, k);
        assert Untouched(env, m, Table(s), k, s.latest[k]);
      }
    case StartClosing =>
      assert q != w ==> Table(q.scan) == Table(s);
    case Close(k) =>
      if s.phase == Reconciler.Closing && k in s.todo {
        CloseMovesTable(s, k);
      }
    case End =>
      assert q != w ==> Table(q.scan) == Table(s);
  }

  /** Whatever a delivery overwrites, an object that stands for a key keeps its scanned state. */
  lemma OverwriteIsHarmless(env: Env, w: World, k: string)
    requires EnvOk(env) && NoCollision(env) && RefsOk(w) && Inv(env, w) && Clean(env, w)
    requires w.mem.delivered < |w.mem.log| && w.mem.log[w.mem.delivered].opens
    requires Allowed(env, w, Deliver(Refresh))
    requires LogLiveKey(env, w.mem, w.mem.delivered) in w.mem.live
    requires k in Table(w.scan) && Table(w.scan)[k] == w.mem.live[LogLiveKey(env, w.mem, w.mem.delivered)]
    ensures w.mem.now[w.mem.log[w.mem.delivered].ref] == w.mem.born[Table(w.scan)[k]].state
  {
    var m, d := w.mem, w.mem.delivered;
    var c := LogLiveKey(env, m, d);
    SharedIsLast(env, m, Table(w.scan), c, k, d);
    HeadIntact(env, m);
    var shared, read := m.born[m.live[c]], m.born[m.log[d].ref];
    assert View(m, m.log[d].ref) == read;
    assert env.scannable(shared) && env.scannable(read);
    assert env.key(read) == m.log[d].key != c;
    assert !Collide(env, shared, read);
  }

  /** A delivery shares at most the object of its own event, and only to store it. */
  lemma DeliverShares(env: Env, m: Memory, v: Verdict)
    requires Sized(m) && m.delivered < |m.log|
    ensures var q, e := DeliverNext(env, m, v), m.log[m.delivered];
            && m.born <= q.born
            && (q.origin == m.origin || (q.origin == m.origin[e.ref := m.delivered] && e.opens && v == Store
                                         && !env.wildcard(m.born[e.ref])))
  {}

  lemma DeliverKeepsStored(env: Env, w: World, v: Verdict)
    requires EnvOk(env) && RefsOk(w) && Inv(env, w) && StoredLegally(env, w.mem) && Allowed(env, w, Deliver(v))
    ensures StoredLegally(env, Next(env, w, Deliver(v)).mem)
  {
    var m, d := w.mem, w.mem.delivered;
    if d < |m.log| {
      DeliverShares(env, m, v);
      if m.log[d].opens {
        HeadIntact(env, m);
        assert View(m, m.log[d].ref) == m.born[m.log[d].ref];
      }
    }
  }

  /** The object a delivery overwrites, if any. */
  ghost predicate Overwrites(env: Env, m: Memory, v: Verdict)
    requires Sized(m) && m.delivered < |m.log|
  {
    m.log[m.delivered].opens && v == Refresh && LogLiveKey(env, m, m.delivered) in m.live
  }

  lemma DeliverOverwrites(env: Env, m: Memory, v: Verdict)
    requires Sized(m) && m.delivered < |m.log|
    ensures var q, c := DeliverNext(env, m, v), LogLiveKey(env, m, m.delivered);
            if Overwrites(env, m, v) then q == Overwrite(ReadOne(m, c), m.live[c], m.now[m.log[m.delivered].ref])
            else m.born <= q.born && m.now <= q.now
  {}

  lemma GrowKeepsIntact(m: Memory, q: Memory, table: map<string, nat>)
    requires Intact(m, table) && m.born <= q.born && m.now <= q.now
    ensures Intact(q, table)
  {}

  lemma DeliverKeepsIntact(env: Env, w: World, v: Verdict)
    requires EnvOk(env) && NoCollision(env) && RefsOk(w) && Inv(env, w) && Clean(env, w)
    requires Allowed(env, w, Deliver(v))
    ensures Intact(Next(env, w, Deliver(v)).mem, Table(w.scan))
  {
    var m, d, table := w.mem, w.mem.delivered, Table(w.scan);
    if d == |m.log| { return; }
    DeliverOverwrites(env, m, v);
    if Overwrites(env, m, v) {
      var c := LogLiveKey(env, m, d);
      var r, state := m.live[c], m.now[m.log[d].ref];
      forall k | k in table && table[k] == r
        ensures state == m.born[r].state
      {
        OverwriteIsHarmless(env, w, k);
      }
      OverwriteKeepsIntact(ReadOne(m, c), table, r, state);
    } else {
      GrowKeepsIntact(m, DeliverNext(env, m, v), table);
    }
  }

  lemma OverwriteKeepsIntact(m: Memory, table: map<string, nat>, r: nat, state: string)
    requires Intact(m, table) && r < |m.now| && r < |m.born|
    requires r in table.Values ==> state == m.born[r].state
    ensures Intact(Overwrite(m, r, state), table)
  {}

  lemma DeliverKeepsClean(env: Env, w: World, v: Verdict)
    requires EnvOk(env) && NoCollision(env) && RefsOk(w) && Inv(env, w) && Clean(env, w)
    requires Allowed(env, w, Deliver(v))
    ensures Clean(env, Next(env, w, Deliver(v)))
  {
    DeliverKeepsStored(env, w, v);
    DeliverKeepsIntact(env, w, v);
  }

  lemma DeliverSimulates(env: Env, w: World, p: Reconciler.Producer, a: Action)
    requires RefsOk(w) && Sim(env, w, p) && !a.Produce?
    ensures Sim(env, Next(env, w, a), p)
  {
    var m, q := w.mem, Next(env, w, a).mem;
    assert m.born <= q.born && m.log == q.log;
    assert forall i :: 0 <= i < |m.log| ==> EventOf(q, m.log[i]) == EventOf(m, m.log[i]);
  }

  lemma {:induction false} RunSimulates(env: Env, actions: seq<Action>)
    requires EnvOk(env) && NoCollision(env) && Legal(env, actions)
    ensures Inv(env, Run(env, actions)) && Clean(env, Run(env, actions))
    ensures Sim(env, Run(env, actions), ValueRun(env, actions))
  {
    if actions != [] {
      var front, a := actions[..|actions| - 1], actions[|actions| - 1];
      RunSimulates(env, front);
      var w, p := Run(env, front), ValueRun(env, front);
      NextKeepsInv(env, w, a);
      if a.Produce? {
        assert Steps(actions)[..|Steps(actions)| - 1] == Steps(front);
        ProduceSimulates(env, w, p, a.step);
        ProduceKeepsClean(env, w, a.step);
      } else {
        DeliverSimulates(env, w, p, a);
        if a.Deliver? {
          DeliverKeepsClean(env, w, a.verdict);
        }
      }
    }
  }

  // ---------- with a collision: a run that goes wrong ----------

  // Both records are in the first scan, `k` is stored, then `w` refreshes it; the second scan finds
  // `k` as before, yet announces it again.

  lemma FirstOfPair(key: Conn -> string, k: Conn, w: Conn)
    requires key(k) != key(w)
    ensures FirstRefs(key, [k, w], 0) == map[key(k) := 0, key(w) := 1]
    ensures Reconciler.FirstByKey(key, [k, w]) == map[key(k) := k, key(w) := w]
  {
    assert FirstRefsUpTo(key, [k, w], 1, 0) == map[key(k) := 0];
    assert Reconciler.FirstUpTo(key, [k, w], 1) == map[key(k) := k];
  }

  lemma FirstOfOne(key: Conn -> string, k: Conn, base: nat)
    ensures FirstRefs(key, [k], base) == map[key(k) := base]
    ensures Reconciler.FirstByKey(key, [k]) == map[key(k) := k]
  {
    assert FirstRefsUpTo(key, [k], 0, base) == map[];
    assert Reconciler.FirstUpTo(key, [k], 0) == map[];
  }

  // The worlds the bad run passes through, and the value-keeping reconciler beside them.

  function Announced(env: Env, k: Conn, w: Conn): seq<Entry>
  {
    [Entry(true, env.key(k), 0, k.state), Entry(true, env.key(w), 1, w.state)]
  }

  /** While the first scan is being compared; `todo` names the records still to visit. */
  function Scanning(env: Env, k: Conn, w: Conn, todo: set<string>, log: seq<Entry>): World
  {
    World(Scan(map[], Reconciler.Comparing, map[env.key(k) := 0, env.key(w) := 1], todo),
          Memory([k, w], [k.state, w.state], log, 0, map[], {}, map[], map[]))
  }

  function Rested(env: Env, k: Conn, w: Conn, m: Memory): World
  {
    World(Scan(map[env.key(k) := 0, env.key(w) := 1], Reconciler.Idle, map[], {}), m)
  }

  function Quiet(env: Env, k: Conn, w: Conn): Memory
  {
    Memory([k, w], [k.state, w.state], Announced(env, k, w), 0, map[], {}, map[], map[])
  }

  function Stored(env: Env, k: Conn, w: Conn): Memory
  {
    Quiet(env, k, w).(
      delivered := 1, since := map[env.key(k) := 0], live := map[env.key(k) := 0], origin := map[0 := 0])
  }

  function Refreshed(env: Env, k: Conn, w: Conn): Memory
  {
    Stored(env, k, w).(delivered := 2, since := map[env.key(k) := 1], now := [w.state, w.state])
  }

  lemma FirstScan(env: Env, k: Conn, w: Conn)
    requires EnvOk(env) && Collide(env, k, w)
    ensures ProduceNext(env, INITIAL, Reconciler.Begin([k, w])) == Scanning(env, k, w, {env.key(k), env.key(w)}, [])
  {
    FirstOfPair(env.key, k, w);
    assert Grown(INITIAL.mem, [k, w]).now == [k.state, w.state];
  }

  lemma FirstVisits(env: Env, k: Conn, w: Conn)
    requires EnvOk(env) && Collide(env, k, w)
    ensures ProduceNext(env, Scanning(env, k, w, {env.key(k), env.key(w)}, []), Reconciler.Compare(env.key(k)))
         == Scanning(env, k, w, {env.key(w)}, Announced(env, k, w)[..1])
    ensures ProduceNext(env, Scanning(env, k, w, {env.key(w)}, Announced(env, k, w)[..1]),
                        Reconciler.Compare(env.key(w)))
         == Scanning(env, k, w, {}, Announced(env, k, w))
  {}

  lemma Deliveries(env: Env, k: Conn, w: Conn)
    requires EnvOk(env) && Collide(env, k, w)
    ensures DeliverNext(env, Quiet(env, k, w), Store) == Stored(env, k, w)
    ensures DeliverNext(env, Stored(env, k, w), Refresh) == Refreshed(env, k, w)
    ensures View(Quiet(env, k, w), 0) == k && View(Stored(env, k, w), 1) == w
  {}

  lemma SecondScan(env: Env, k: Conn, w: Conn)
    requires EnvOk(env) && Collide(env, k, w)
    ensures var b := ProduceNext(env, Rested(env, k, w, Refreshed(env, k, w)), Reconciler.Begin([k]));
            RefsOk(b)
            && ProduceNext(env, b, Reconciler.Compare(env.key(k))).mem.log
               == Announced(env, k, w) + [Entry(true, env.key(k), 2, k.state)]
  {
    FirstOfOne(env.key, k, 2);
    var b := ProduceNext(env, Rested(env, k, w, Refreshed(env, k, w)), Reconciler.Begin([k]));
    assert b.mem.now == [w.state, w.state, k.state];
  }

  // The value-keeping reconciler over the same steps.

  function Comparing(env: Env, k: Conn, w: Conn, todo: set<string>, log: seq<Event>): Reconciler.Producer
  {
    Reconciler.Producer(map[], Reconciler.Comparing, map[env.key(k) := k, env.key(w) := w], todo, log, 0)
  }

  function BothOpened(env: Env, k: Conn, w: Conn): seq<Event> { [Opened(env.key(k), k), Opened(env.key(w), w)] }

  function AtRest(env: Env, k: Conn, w: Conn): Reconciler.Producer
  {
    Reconciler.Producer(map[env.key(k) := k, env.key(w) := w], Reconciler.Idle, map[], {}, BothOpened(env, k, w), 0)
  }

  lemma FirstValueScan(env: Env, k: Conn, w: Conn)
    requires Collide(env, k, w)
    ensures Reconciler.Next(env.key, Reconciler.INITIAL, Reconciler.Begin([k, w]))
         == Comparing(env, k, w, {env.key(k), env.key(w)}, [])
    ensures Reconciler.Next(env.key, Comparing(env, k, w, {env.key(k), env.key(w)}, []), Reconciler.Compare(env.key(k)))
         == Comparing(env, k, w, {env.key(w)}, BothOpened(env, k, w)[..1])
    ensures Reconciler.Next(env.key, Comparing(env, k, w, {env.key(w)}, BothOpened(env, k, w)[..1]),
                            Reconciler.Compare(env.key(w)))
         == Comparing(env, k, w, {}, BothOpened(env, k, w))
  {
    FirstOfPair(env.key, k, w);
  }

  lemma SecondValueScan(env: Env, k: Conn, w: Conn)
    requires Collide(env, k, w)
    ensures var p := Reconciler.Next(env.key, AtRest(env, k, w), Reconciler.Begin([k]));
            |Reconciler.Next(env.key, p, Reconciler.Compare(env.key(k))).log| == 2
  {
    FirstOfOne(env.key, k, 0);
  }

  lemma Extend(env: Env, actions: seq<Action>, a: Action, b: World, p: Reconciler.Producer)
    returns (longer: seq<Action>)
    requires Legal(env, actions) && Run(env, actions) == b && ValueRun(env, actions) == p
    requires Reports(env, a) && Allowed(env, b, a)
    ensures Legal(env, longer) && Run(env, longer) == Next(env, b, a)
    ensures ValueRun(env, longer) == if a.Produce? then Reconciler.Next(env.key, p, a.step) else p
  {
    longer := actions + [a];
    assert longer[..|longer| - 1] == actions;
    assert a.Produce? ==> Steps(longer)[..|Steps(longer)| - 1] == Steps(actions);
  }

  lemma BadRunCompares(env: Env, k: Conn, w: Conn) returns (actions: seq<Action>)
    requires EnvOk(env) && Collide(env, k, w)
    ensures Legal(env, actions) && Run(env, actions) == Scanning(env, k, w, {}, Announced(env, k, w))
    ensures ValueRun(env, actions) == Comparing(env, k, w, {}, BothOpened(env, k, w))
  {
    FirstScan(env, k, w);
    FirstVisits(env, k, w);
    FirstValueScan(env, k, w);
    actions := Extend(env, [], Produce(Reconciler.Begin([k, w])), INITIAL, Reconciler.INITIAL);
    actions := Extend(env, actions, Produce(Reconciler.Compare(env.key(k))),
                      Scanning(env, k, w, {env.key(k), env.key(w)}, []),
                      Comparing(env, k, w, {env.key(k), env.key(w)}, []));
    actions := Extend(env, actions, Produce(Reconciler.Compare(env.key(w))),
                      Scanning(env, k, w, {env.key(w)}, Announced(env, k, w)[..1]),
                      Comparing(env, k, w, {env.key(w)}, BothOpened(env, k, w)[..1]));
  }

  lemma TurnAndEnd(env: Env, k: Conn, w: Conn)
    ensures var b := Scanning(env, k, w, {}, Announced(env, k, w));
            var closing := b.(scan := b.scan.(phase := Reconciler.Closing));
            RefsOk(b) && RefsOk(closing)
            && ProduceNext(env, b, Reconciler.StartClosing) == closing
            && ProduceNext(env, closing, Reconciler.End) == Rested(env, k, w, Quiet(env, k, w))
    ensures var p := Comparing(env, k, w, {}, BothOpened(env, k, w));
            && Reconciler.Next(env.key, p, Reconciler.StartClosing) == p.(phase := Reconciler.Closing)
            && Reconciler.Next(env.key, p.(phase := Reconciler.Closing), Reconciler.End) == AtRest(env, k, w)
  {}

  lemma BadRunRests(env: Env, k: Conn, w: Conn) returns (actions: seq<Action>)
    requires EnvOk(env) && Collide(env, k, w)
    ensures Legal(env, actions) && Run(env, actions) == Rested(env, k, w, Quiet(env, k, w))
    ensures ValueRun(env, actions) == AtRest(env, k, w)
  {
    actions := BadRunCompares(env, k, w);
    TurnAndEnd(env, k, w);
    var b, p := Scanning(env, k, w, {}, Announced(env, k, w)), Comparing(env, k, w, {}, BothOpened(env, k, w));
    actions := Extend(env, actions, Produce(Reconciler.StartClosing), b, p);
    b, p := b.(scan := b.scan.(phase := Reconciler.Closing)), p.(phase := Reconciler.Closing);
    actions := Extend(env, actions, Produce(Reconciler.End), b, p);
  }

  lemma BadRunDelivers(env: Env, k: Conn, w: Conn) returns (actions: seq<Action>)
    requires EnvOk(env) && Collide(env, k, w)
    ensures Legal(env, actions) && Run(env, actions) == Rested(env, k, w, Refreshed(env, k, w))
    ensures ValueRun(env, actions) == AtRest(env, k, w)
  {
    Deliveries(env, k, w);
    actions := BadRunRests(env, k, w);
    actions := Extend(env, actions, Deliver(Store), Rested(env, k, w, Quiet(env, k, w)), AtRest(env, k, w));
    actions := Extend(env, actions, Deliver(Refresh), Rested(env, k, w, Stored(env, k, w)), AtRest(env, k, w));
  }

  /** Two neighbouring announcements of one key with one state: the second says nothing new. */
  ghost predicate Repeats(log: seq<Entry>, i: int, j: int)
  {
    && 0 <= i < j < |log| && log[i].opens && log[j].opens && log[i].key == log[j].key && log[i].state == log[j].state
    && forall n :: i < n < j ==> log[n].key != log[i].key
  }

  ghost predicate RepeatsAnnouncement(m: Memory) { exists i, j :: Repeats(m.log, i, j) }

  /** The value-keeping reconciler never repeats itself. */
  lemma SameEventsNeverRepeat(env: Env, actions: seq<Action>)
    requires SameEvents(env, actions)
    ensures !RepeatsAnnouncement(Run(env, actions).mem)
  {
    var m, log := Run(env, actions).mem, ValueRun(env, actions).log;
    Reconciler.TraceDiscipline(env.key, Steps(actions));
    forall i, j | Repeats(m.log, i, j)
      ensures false
    {
      assert forall n :: 0 <= n < |log| ==> EventOf(m, m.log[n]) == log[n] && log[n].key == m.log[n].key;
      NeighboursDiffer(log, i, j);
    }
  }

  /** A collision makes some run announce a record again that has not changed. */
  lemma BadRun(env: Env, k: Conn, w: Conn) returns (actions: seq<Action>)
    requires EnvOk(env) && Collide(env, k, w)
    ensures Legal(env, actions) && RepeatsAnnouncement(Run(env, actions).mem) && !SameEvents(env, actions)
  {
    SecondScan(env, k, w);
    SecondValueScan(env, k, w);
    actions := BadRunDelivers(env, k, w);
    var b, p := Rested(env, k, w, Refreshed(env, k, w)), AtRest(env, k, w);
    actions := Extend(env, actions, Produce(Reconciler.Begin([k])), b, p);
    b, p := ProduceNext(env, b, Reconciler.Begin([k])), Reconciler.Next(env.key, p, Reconciler.Begin([k]));
    actions := Extend(env, actions, Produce(Reconciler.Compare(env.key(k))), b, p);
    LastRepeats(env, k, w, Run(env, actions).mem);
  }

  lemma LastRepeats(env: Env, k: Conn, w: Conn, m: Memory)
    requires env.key(w) != env.key(k) && m.log == Announced(env, k, w) + [Entry(true, env.key(k), 2, k.state)]
    ensures RepeatsAnnouncement(m)
  {
    assert Repeats(m.log, 0, 2);
  }

  // ---------- exactly when ----------

  /** Sharing objects changes no event of any run if and only if no wildcard record is rewritten
      onto the key of a concrete one that it may refresh with a different state. */
  lemma SharingIsHarmlessIff(env: Env)
    requires EnvOk(env)
    ensures (forall actions :: Legal(env, actions) ==> SameEvents(env, actions)) <==> NoCollision(env)
  {
    if NoCollision(env) {
      forall actions | Legal(env, actions)
        ensures SameEvents(env, actions)
      {
        RunSimulates(env, actions);
      }
    } else {
      var k, w :| Collide(env, k, w);
      var actions := BadRun(env, k, w);
    }
  }

  /** In particular, sharing is harmless when every scanned local address is already concrete. */
  lemma ConcreteAddressesAreSafe(env: Env, actions: seq<Action>)
    requires EnvOk(env) && Legal(env, actions)
    requires forall c :: env.scannable(c) ==> !env.wildcard(c)
    ensures SameEvents(env, actions)
  {
    SharingIsHarmlessIff(env);
  }
}
