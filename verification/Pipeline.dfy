/** The reconciler, its channel, the live table and the clean-up timer running side by side.
    Connections are objects: the producer's dictionaries, the channel and the live table hold
    references to them, and the consumer overwrites the `State` of an object that the producer may
    still compare against. Any sequence of steps is a run, so every interleaving is covered. */
module Pipeline {
  import opened Connections
  import Reconciler

  /** What a delivered `Opened` event leads to, as the filters answer at that moment. */
  datatype Verdict = Remove | Store | Refresh

  /** The surroundings: the reconciler's key, the test and the rewriting for wildcard local
      addresses, what scans may report, and which verdicts the filters may give. */
  datatype Env = Env(
    key: Conn -> string,
    wildcard: Conn -> bool,
    concrete: Conn -> Conn,
    scannable: Conn -> bool,
    may: (Conn, Verdict) -> bool)

  ghost predicate EnvOk(env: Env) { forall c :: !env.wildcard(c) ==> env.concrete(c) == c }

  function LiveKeyOf(env: Env, c: Conn): string { env.key(env.concrete(c)) }

  /** Records with one reconciler key share one live key. */
  ghost predicate KeyFixesLive(env: Env)
  {
    forall a, b :: env.scannable(a) && env.scannable(b) && env.key(a) == env.key(b)
                   ==> LiveKeyOf(env, a) == LiveKeyOf(env, b)
  }

  /** An event in the channel: a reference, and the `State` the object had when it was written. */
  datatype Entry = Entry(opens: bool, key: string, ref: nat, state: string)

  /** Objects are numbered: `born[r]` is what object `r` was created as, `now[r]` its `State` now.
      `log` is everything ever written to the channel; the first `delivered` entries have been read.
      History only: `copies` are the records made by rewriting, `origin` says which delivered entry
      put a shared object into the live table, `since` which delivered entry last touched a key. */
  datatype Memory = Memory(
    born: seq<Conn>, now: seq<string>,
    log: seq<Entry>, delivered: nat,
    live: map<string, nat>,
    copies: set<nat>, origin: map<nat, nat>, since: map<string, nat>)

  datatype Scan = Scan(current: map<string, nat>, phase: Reconciler.Phase, latest: map<string, nat>, todo: set<string>)

  datatype World = World(scan: Scan, mem: Memory)

  const INITIAL := World(Scan(map[], Reconciler.Idle, map[], {}), Memory([], [], [], 0, map[], {}, map[], map[]))

  datatype Action =
    | Produce(step: Reconciler.Action)
    | Deliver(verdict: Verdict)
    | Tick(key: string)        // the timer removes one entry, for whatever reason

  // ---------- steps ----------

  /** The TryAdd loop over a scan whose i-th record is object `base + i`. */
  function FirstRefs(key: Conn -> string, scan: seq<Conn>, base: nat): map<string, nat>
  {
    FirstRefsUpTo(key, scan, |scan|, base)
  }

  function FirstRefsUpTo(key: Conn -> string, scan: seq<Conn>, n: nat, base: nat): map<string, nat>
    requires n <= |scan|
  {
    if n == 0 then map[]
    else
      var m, k := FirstRefsUpTo(key, scan, n - 1, base), key(scan[n - 1]);
      if k in m then m else m[k := base + n - 1]
  }

  ghost predicate RefersTo(key: Conn -> string, scan: seq<Conn>, base: nat, refs: map<string, nat>)
  {
    forall k :: k in refs ==> base <= refs[k] < base + |scan| && key(scan[refs[k] - base]) == k
  }

  lemma AddRef(key: Conn -> string, scan: seq<Conn>, base: nat, refs: map<string, nat>, i: nat)
    requires RefersTo(key, scan, base, refs) && i < |scan|
    ensures RefersTo(key, scan, base, refs[key(scan[i]) := base + i])
  {}

  lemma {:induction false} FirstRefsRefer(key: Conn -> string, scan: seq<Conn>, n: nat, base: nat)
    requires n <= |scan|
    ensures RefersTo(key, scan, base, FirstRefsUpTo(key, scan, n, base))
  {
    if n > 0 {
      FirstRefsRefer(key, scan, n - 1, base);
      AddRef(key, scan, base, FirstRefsUpTo(key, scan, n - 1, base), n - 1);
    }
  }

  /** A scan's records are new objects. */
  function Grown(m: Memory, scan: seq<Conn>): Memory
  {
    m.(born := m.born + scan, now := m.now + seq(|scan|, i requires 0 <= i < |scan| => scan[i].state))
  }

  function Changed(s: Scan, m: Memory, k: string): bool
    requires k in s.latest && s.latest[k] < |m.now|
    requires k in s.current ==> s.current[k] < |m.now|
  {
    k !in s.current || m.now[s.current[k]] != m.now[s.latest[k]]
  }

  function Emit(m: Memory, opens: bool, k: string, r: nat): Memory
    requires r < |m.now|
  {
    m.(log := m.log + [Entry(opens, k, r, m.now[r])])
  }

  /** References point to existing objects. */
  ghost predicate RefsOk(w: World)
  {
    var m := w.mem;
    && |m.born| == |m.now| && m.delivered <= |m.log|
    && (forall k :: k in w.scan.current ==> w.scan.current[k] < |m.born|)
    && (forall k :: k in w.scan.latest ==> w.scan.latest[k] < |m.born|)
    && (forall k :: k in m.live ==> m.live[k] < |m.born|)
    && (forall i :: 0 <= i < |m.log| ==> m.log[i].ref < |m.born|)
  }

  ghost function ProduceNext(env: Env, w: World, a: Reconciler.Action): World
    requires RefsOk(w)
  {
    var s, m := w.scan, w.mem;
    match a
    case Begin(scan) =>
      if s.phase != Reconciler.Idle then w
      else
        var latest := FirstRefs(env.key, scan, |m.born|);
        World(s.(phase := Reconciler.Comparing, latest := latest, todo := latest.Keys),
              Grown(m, scan))
    case Compare(k) =>
      if s.phase != Reconciler.Comparing || k !in s.todo || k !in s.latest then w
      else World(s.(todo := s.todo - {k}), if Changed(s, m, k) then Emit(m, true, k, s.latest[k]) else m)
    case StartClosing =>
      if s.phase != Reconciler.Comparing || s.todo != {} then w
      else w.(scan := s.(phase := Reconciler.Closing, todo := s.current.Keys))
    case Close(k) =>
      if s.phase != Reconciler.Closing || k !in s.todo || k !in s.current then w
      else World(s.(todo := s.todo - {k}), if k !in s.latest then Emit(m, false, k, s.current[k]) else m)
    case End =>
      if s.phase != Reconciler.Closing || s.todo != {} then w
      else w.(scan := s.(phase := Reconciler.Idle, current := s.latest, latest := map[]))
  }

  function ReadOne(m: Memory, c: string): Memory
  {
    m.(delivered := m.delivered + 1, since := m.since[c := m.delivered])
  }

  function TakeOut(m: Memory, c: string): Memory { m.(live := m.live - {c}) }

  function Overwrite(m: Memory, r: nat, state: string): Memory
    requires r < |m.now|
  {
    m.(now := m.now[r := state])
  }

  function PutCopy(m: Memory, c: string, conn: Conn, state: string): Memory
  {
    m.(born := m.born + [conn], now := m.now + [state], copies := m.copies + {|m.born|}, live := m.live[c := |m.born|])
  }

  function PutShared(m: Memory, c: string, r: nat, d: nat): Memory
  {
    m.(live := m.live[c := r], origin := m.origin[r := d])
  }

  /** Reading one event: a wildcard record is copied first; then the entry is removed, replaced by
      this object, or the object already there has its `State` overwritten. */
  ghost function DeliverNext(env: Env, m: Memory, v: Verdict): Memory
    requires |m.born| == |m.now| && m.delivered < |m.log|
    requires m.log[m.delivered].ref < |m.born|
    requires forall k :: k in m.live ==> m.live[k] < |m.born|
  {
    var e := m.log[m.delivered];
    var c := LiveKeyOf(env, m.born[e.ref]);
    var read := ReadOne(m, c);
    if !e.opens || v == Remove then TakeOut(read, c)
    else if v == Refresh then
      if c in m.live then Overwrite(read, m.live[c], m.now[e.ref]) else read
    else if env.wildcard(m.born[e.ref]) then PutCopy(read, c, env.concrete(m.born[e.ref]), m.now[e.ref])
    else PutShared(read, c, e.ref, m.delivered)
  }

  ghost function Next(env: Env, w: World, a: Action): World
    requires RefsOk(w)
  {
    match a
    case Produce(step) => ProduceNext(env, w, step)
    case Deliver(v) => if w.mem.delivered == |w.mem.log| then w else w.(mem := DeliverNext(env, w.mem, v))
    case Tick(k) => w.(mem := TakeOut(w.mem, k))
  }

  lemma ProduceKeepsRefs(env: Env, w: World, a: Reconciler.Action)
    requires RefsOk(w)
    ensures RefsOk(ProduceNext(env, w, a))
  {
    if a.Begin? { FirstRefsRefer(env.key, a.scan, |a.scan|, |w.mem.born|); }
  }

  lemma DeliverKeepsRefs(env: Env, w: World, v: Verdict)
    requires RefsOk(w)
    ensures RefsOk(Next(env, w, Deliver(v)))
  {}

  lemma NextKeepsRefs(env: Env, w: World, a: Action)
    requires RefsOk(w)
    ensures RefsOk(Next(env, w, a))
  {
    match a
    case Produce(step) => ProduceKeepsRefs(env, w, step);
    case Deliver(v) => DeliverKeepsRefs(env, w, v);
    case Tick(_) =>
  }

  ghost function Run(env: Env, actions: seq<Action>): (w: World)
    ensures RefsOk(w)
  {
    if actions == [] then INITIAL
    else
      var w := Run(env, actions[..|actions| - 1]);
      NextKeepsRefs(env, w, actions[|actions| - 1]);
      Next(env, w, actions[|actions| - 1])
  }

  // ---------- what stays true ----------

  /** Which object stands for each key: entries already visited by the running scan as in the
      latest scan, the others as in the previous one; between scans simply the current table. */
  function Table(s: Scan): map<string, nat>
  {
    match s.phase
    case Idle => s.current
    case Comparing =>
      map k | k in s.current.Keys + s.latest.Keys && (k in s.current || k !in s.todo)
        :: if k in s.latest && k !in s.todo then s.latest[k] else s.current[k]
    case Closing =>
      map k | k in s.latest.Keys + s.current.Keys && (k in s.latest || k in s.todo)
        :: if k in s.latest then s.latest[k] else s.current[k]
  }

  function LogLiveKey(env: Env, m: Memory, i: int): string
    requires 0 <= i < |m.log| && m.log[i].ref < |m.born|
  {
    LiveKeyOf(env, m.born[m.log[i].ref])
  }

  ghost predicate Sized(m: Memory)
  {
    && |m.born| == |m.now| && m.delivered <= |m.log|
    && (forall i :: 0 <= i < |m.log| ==> m.log[i].ref < |m.born|)
    && (forall k :: k in m.live ==> m.live[k] < |m.born|)
    && (forall r :: r in m.copies ==> r < |m.born|)
  }

  ghost predicate TableOk(env: Env, m: Memory, table: map<string, nat>)
  {
    forall k :: k in table ==> table[k] < |m.born| && env.key(m.born[table[k]]) == k && table[k] !in m.copies
  }

  ghost predicate LogOk(env: Env, m: Memory)
    requires Sized(m)
  {
    && (forall i :: 0 <= i < |m.log| ==>
          && m.log[i].key == env.key(m.born[m.log[i].ref]) && m.log[i].ref !in m.copies
          && (m.log[i].opens ==> m.log[i].state == m.born[m.log[i].ref].state))
    && (forall i, j :: 0 <= i < j < |m.log| && m.log[i].opens && m.log[j].opens ==> m.log[i].ref != m.log[j].ref)
    && (forall r :: 0 <= r < |m.born| && r !in m.copies ==> env.scannable(m.born[r]))
  }

  /** An object is in the live table only as a private copy or after its event was delivered, and
      only under its own key; any other object still has the `State` it was created with. */
  ghost predicate SharingOk(env: Env, m: Memory)
    requires Sized(m)
  {
    && (forall r :: r in m.origin ==>
          m.origin[r] < m.delivered && m.log[m.origin[r]].opens && m.log[m.origin[r]].ref == r)
    && (forall k :: k in m.live ==>
          && env.key(m.born[m.live[k]]) == k
          && (m.live[k] in m.copies || (m.live[k] in m.origin && !env.wildcard(m.born[m.live[k]]))))
    && (forall r :: 0 <= r < |m.born| && r !in m.copies && r !in m.origin ==> m.now[r] == m.born[r].state)
  }

  /** Once an object that stands for its key has been announced, nothing more is said about that key. */
  ghost predicate AnnouncedLast(m: Memory, table: map<string, nat>)
  {
    forall k, i, j ::
      k in table && 0 <= i < j < |m.log| && m.log[i].opens && m.log[i].ref == table[k] ==> m.log[j].key != k
  }

  /** The live entry under `k` reflects the last delivered event of its key. */
  ghost predicate HeardAt(env: Env, m: Memory, k: string)
    requires Sized(m)
  {
    k in m.live ==> KnownSince(env, m, k) && m.now[m.live[k]] == m.log[m.since[k]].state
  }

  ghost predicate KnownSince(env: Env, m: Memory, k: string)
    requires Sized(m)
  {
    && k in m.since && m.since[k] < m.delivered
    && LogLiveKey(env, m, m.since[k]) == k
    && m.log[m.since[k]].opens
    && (forall j :: m.since[k] < j < m.delivered ==> LogLiveKey(env, m, j) != k)
  }

  ghost predicate Heard(env: Env, m: Memory)
    requires Sized(m)
  {
    forall k :: k in m.live ==> HeardAt(env, m, k)
  }

  ghost predicate LastSaid(env: Env, m: Memory, i: int)
    requires Sized(m)
  {
    && 0 <= i < |m.log| && m.log[i].opens
    && forall j :: i < j < |m.log| ==> LogLiveKey(env, m, j) != LogLiveKey(env, m, i)
  }

  /** The last thing said about a live key, if it is an `Opened`, still holds in the table. */
  ghost predicate Told(env: Env, m: Memory, table: map<string, nat>)
    requires Sized(m)
  {
    forall i :: LastSaid(env, m, i) ==>
      && m.log[i].key in table
      && table[m.log[i].key] < |m.born|
      && m.now[table[m.log[i].key]] == m.log[i].state
      && m.born[table[m.log[i].key]].state == m.log[i].state
  }

  ghost predicate Core(env: Env, m: Memory, table: map<string, nat>)
  {
    && Sized(m) && TableOk(env, m, table) && LogOk(env, m) && SharingOk(env, m)
    && AnnouncedLast(m, table) && Heard(env, m)
    && (KeyFixesLive(env) ==> Told(env, m, table))
  }

  /** An object created by the running scan and not looked at yet. */
  ghost predicate Untouched(env: Env, m: Memory, table: map<string, nat>, k: string, r: nat)
  {
    && r < |m.born| && r < |m.now| && env.key(m.born[r]) == k && r !in m.copies && r !in m.origin
    && (forall i :: 0 <= i < |m.log| ==> m.log[i].ref != r)
    && (forall x :: x in table ==> table[x] != r)
  }

  // ---------- one visit ----------

  /** More log or more objects change nothing about what is known of the old ones. */
  lemma GrowKeepsKnown(env: Env, m: Memory, q: Memory, k: string)
    requires Sized(m) && Sized(q) && KnownSince(env, m, k)
    requires m.log <= q.log && m.born <= q.born && q.since == m.since && q.delivered == m.delivered
    ensures KnownSince(env, q, k)
  {
    assert forall j :: 0 <= j < |m.log| ==> LogLiveKey(env, q, j) == LogLiveKey(env, m, j);
  }

  lemma EmitKeepsHeard(env: Env, m: Memory, opens: bool, k: string, r: nat)
    requires Sized(m) && Heard(env, m) && r < |m.now|
    ensures Sized(Emit(m, opens, k, r)) && Heard(env, Emit(m, opens, k, r))
  {
    var q := Emit(m, opens, k, r);
    forall x | x in q.live
      ensures HeardAt(env, q, x)
    {
      assert HeardAt(env, m, x);
      GrowKeepsKnown(env, m, q, x);
    }
  }

  lemma LastSaidBefore(env: Env, m: Memory, opens: bool, k: string, r: nat, i: int)
    requires Sized(m) && r < |m.now|
    requires var q := Emit(m, opens, k, r); Sized(q) && LastSaid(env, q, i) && i < |m.log|
    ensures LastSaid(env, m, i)
    ensures LiveKeyOf(env, m.born[r]) != LogLiveKey(env, m, i)
  {
    var q := Emit(m, opens, k, r);
    assert forall j :: 0 <= j < |m.log| ==> LogLiveKey(env, q, j) == LogLiveKey(env, m, j);
    assert LogLiveKey(env, q, |m.log|) == LiveKeyOf(env, m.born[r]);
  }

  lemma EmitKeepsLog(env: Env, m: Memory, opens: bool, k: string, r: nat)
    requires Sized(m) && LogOk(env, m) && SharingOk(env, m)
    requires r < |m.born| && r !in m.copies && env.key(m.born[r]) == k
    requires opens ==> r !in m.origin && forall i :: 0 <= i < |m.log| ==> m.log[i].ref != r
    ensures Sized(Emit(m, opens, k, r)) && LogOk(env, Emit(m, opens, k, r))
  {}

  lemma EmitKeepsSharing(env: Env, m: Memory, opens: bool, k: string, r: nat)
    requires Sized(m) && SharingOk(env, m) && r < |m.born|
    ensures Sized(Emit(m, opens, k, r)) && SharingOk(env, Emit(m, opens, k, r))
  {}

  lemma EmitKeepsAnnounced(env: Env, m: Memory, table: map<string, nat>, opens: bool, k: string, r: nat)
    requires Sized(m) && TableOk(env, m, table) && AnnouncedLast(m, table) && r < |m.born|
    requires opens ==> Untouched(env, m, table, k, r)
    ensures AnnouncedLast(Emit(m, opens, k, r), if opens then table[k := r] else table - {k})
  {}

  /** A new event silences only its own live key, which no other reconciler key may share. */
  lemma OthersStaySaid(env: Env, m: Memory, opens: bool, k: string, r: nat, i: int)
    requires KeyFixesLive(env) && Sized(m) && LogOk(env, m)
    requires r < |m.born| && r !in m.copies && env.key(m.born[r]) == k
    requires var q := Emit(m, opens, k, r); Sized(q) && LastSaid(env, q, i) && i < |m.log|
    ensures LastSaid(env, m, i) && m.log[i].key != k
  {
    LastSaidBefore(env, m, opens, k, r, i);
    assert env.scannable(m.born[m.log[i].ref]) && env.scannable(m.born[r]);
  }

  lemma AnnounceKeepsTold(env: Env, m: Memory, table: map<string, nat>, k: string, r: nat)
    requires KeyFixesLive(env) && Sized(m) && LogOk(env, m) && Told(env, m, table)
    requires Untouched(env, m, table, k, r) && m.now[r] == m.born[r].state
    ensures Sized(Emit(m, true, k, r)) && Told(env, Emit(m, true, k, r), table[k := r])
  {
    var q := Emit(m, true, k, r);
    forall i | LastSaid(env, q, i) && i < |m.log|
      ensures LastSaid(env, m, i) && m.log[i].key != k
    {
      OthersStaySaid(env, m, true, k, r, i);
    }
  }

  lemma AnnounceKeepsCore(env: Env, m: Memory, table: map<string, nat>, k: string, r: nat)
    requires Core(env, m, table) && Untouched(env, m, table, k, r)
    ensures Core(env, Emit(m, true, k, r), table[k := r])
  {
    EmitKeepsHeard(env, m, true, k, r);
    EmitKeepsLog(env, m, true, k, r);
    EmitKeepsSharing(env, m, true, k, r);
    EmitKeepsAnnounced(env, m, table, true, k, r);
    if KeyFixesLive(env) {
      AnnounceKeepsTold(env, m, table, k, r);
    }
  }

  lemma QuietKeepsCore(env: Env, m: Memory, table: map<string, nat>, k: string, r: nat)
    requires Core(env, m, table) && Untouched(env, m, table, k, r)
    requires k in table && m.now[table[k]] == m.now[r]
    ensures Core(env, m, table[k := r])
  {}

  lemma CloseKeepsTold(env: Env, m: Memory, table: map<string, nat>, k: string)
    requires KeyFixesLive(env) && Sized(m) && TableOk(env, m, table) && LogOk(env, m) && Told(env, m, table)
             && k in table
    ensures Sized(Emit(m, false, k, table[k])) && Told(env, Emit(m, false, k, table[k]), table - {k})
  {
    var q := Emit(m, false, k, table[k]);
    forall i | LastSaid(env, q, i)
      ensures LastSaid(env, m, i) && m.log[i].key != k
    {
      OthersStaySaid(env, m, false, k, table[k], i);
    }
  }

  lemma CloseKeepsCore(env: Env, m: Memory, table: map<string, nat>, k: string)
    requires Core(env, m, table) && k in table
    ensures Core(env, Emit(m, false, k, table[k]), table - {k})
  {
    var r := table[k];
    EmitKeepsHeard(env, m, false, k, r);
    EmitKeepsLog(env, m, false, k, r);
    EmitKeepsSharing(env, m, false, k, r);
    EmitKeepsAnnounced(env, m, table, false, k, r);
    if KeyFixesLive(env) {
      CloseKeepsTold(env, m, table, k);
    }
  }

  // ---------- one delivery ----------

  /** An announced object is intact until its own event is delivered. */
  lemma HeadIntact(env: Env, m: Memory)
    requires Sized(m) && LogOk(env, m) && SharingOk(env, m)
    requires m.delivered < |m.log| && m.log[m.delivered].opens
    ensures var e := m.log[m.delivered];
            && e.ref !in m.origin && e.ref !in m.copies
            && m.now[e.ref] == e.state && m.born[e.ref].state == e.state
  {
    var e := m.log[m.delivered];
    assert forall r :: r in m.origin ==> m.log[m.origin[r]].ref == r && m.origin[r] < m.delivered;
  }

  /** An object in the live table that still stands for its key was announced by the last event of that key. */
  lemma SharedIsLast(env: Env, m: Memory, table: map<string, nat>, c: string, k: string, j: int)
    requires Sized(m) && TableOk(env, m, table) && SharingOk(env, m) && AnnouncedLast(m, table)
    requires c in m.live && k in table && table[k] == m.live[c]
    requires m.delivered <= j < |m.log|
    ensures k == c && m.live[c] in m.origin && !env.wildcard(m.born[m.live[c]])
    ensures m.log[j].key != k
    ensures forall i :: m.origin[m.live[c]] < i < |m.log| ==> m.log[i].key != k
  {
    assert m.live[c] !in m.copies;
    assert m.log[m.origin[m.live[c]]].opens;
  }

  /** If the object a delivery is about to overwrite stands for a key, the last word on that key's
      live key is not older than the delivery. */
  lemma OverwrittenIsSuperseded(env: Env, m: Memory, table: map<string, nat>, i: int)
    requires EnvOk(env) && KeyFixesLive(env)
    requires Sized(m) && TableOk(env, m, table) && LogOk(env, m) && SharingOk(env, m) && AnnouncedLast(m, table)
    requires m.delivered < |m.log| && LogLiveKey(env, m, m.delivered) in m.live
    requires 0 <= i < |m.log| && m.log[i].key in table
    requires table[m.log[i].key] == m.live[LogLiveKey(env, m, m.delivered)]
    ensures i < m.delivered && LogLiveKey(env, m, i) == LogLiveKey(env, m, m.delivered)
  {
    var c, k := LogLiveKey(env, m, m.delivered), m.log[i].key;
    SharedIsLast(env, m, table, c, k, m.delivered);
    assert i <= m.origin[m.live[c]];
    SameKeySameLive(env, m, i, m.live[c]);
  }

  lemma SameKeySameLive(env: Env, m: Memory, i: int, r: nat)
    requires EnvOk(env) && KeyFixesLive(env) && Sized(m) && LogOk(env, m)
    requires 0 <= i < |m.log| && r < |m.born| && r !in m.copies && env.key(m.born[r]) == m.log[i].key
    ensures LogLiveKey(env, m, i) == LiveKeyOf(env, m.born[r])
  {
    assert env.scannable(m.born[r]) && env.scannable(m.born[m.log[i].ref]);
  }

  lemma OverwriteMissesTold(env: Env, m: Memory, table: map<string, nat>, i: int)
    requires EnvOk(env) && KeyFixesLive(env)
    requires Sized(m) && TableOk(env, m, table) && LogOk(env, m) && SharingOk(env, m) && AnnouncedLast(m, table)
    requires Told(env, m, table)
    requires m.delivered < |m.log| && LogLiveKey(env, m, m.delivered) in m.live
    requires LastSaid(env, m, i)
    ensures m.log[i].key in table && table[m.log[i].key] != m.live[LogLiveKey(env, m, m.delivered)]
  {
    if table[m.log[i].key] == m.live[LogLiveKey(env, m, m.delivered)] {
      OverwrittenIsSuperseded(env, m, table, i);
    }
  }

  lemma OverwriteKeepsTold(env: Env, m: Memory, table: map<string, nat>, r: nat, state: string)
    requires Sized(m) && Told(env, m, table) && r < |m.born|
    requires forall i :: LastSaid(env, m, i) ==> m.log[i].key in table && table[m.log[i].key] != r
    ensures Sized(Overwrite(m, r, state)) && Told(env, Overwrite(m, r, state), table)
  {
    var q := Overwrite(m, r, state);
    forall i | LastSaid(env, q, i)
      ensures LastSaid(env, m, i)
    {
      assert forall j :: 0 <= j < |m.log| ==> LogLiveKey(env, q, j) == LogLiveKey(env, m, j);
    }
  }

  lemma GrowKeepsTold(env: Env, m: Memory, q: Memory, table: map<string, nat>)
    requires Sized(m) && Sized(q) && Told(env, m, table)
    requires m.log == q.log && m.born <= q.born && m.now <= q.now
    ensures Told(env, q, table)
  {
    forall i | LastSaid(env, q, i)
      ensures LastSaid(env, m, i)
    {
      assert forall j :: 0 <= j < |m.log| ==> LogLiveKey(env, q, j) == LogLiveKey(env, m, j);
    }
  }

  lemma RefreshKeepsTold(env: Env, m: Memory, table: map<string, nat>, r: nat, state: string)
    requires EnvOk(env) && KeyFixesLive(env)
    requires Sized(m) && TableOk(env, m, table) && LogOk(env, m) && SharingOk(env, m) && AnnouncedLast(m, table)
    requires Told(env, m, table)
    requires m.delivered < |m.log| && LogLiveKey(env, m, m.delivered) in m.live
    requires r == m.live[LogLiveKey(env, m, m.delivered)]
    ensures Sized(Overwrite(m, r, state)) && Told(env, Overwrite(m, r, state), table)
  {
    forall i | LastSaid(env, m, i)
      ensures m.log[i].key in table && table[m.log[i].key] != r
    {
      OverwriteMissesTold(env, m, table, i);
    }
    OverwriteKeepsTold(env, m, table, r, state);
  }

  lemma DeliverKeepsTold(env: Env, m: Memory, table: map<string, nat>, v: Verdict)
    requires EnvOk(env) && KeyFixesLive(env)
    requires Sized(m) && TableOk(env, m, table) && LogOk(env, m) && SharingOk(env, m) && AnnouncedLast(m, table)
    requires Told(env, m, table) && m.delivered < |m.log|
    ensures Sized(DeliverNext(env, m, v)) && Told(env, DeliverNext(env, m, v), table)
  {
    DeliverKeepsSized(env, m, v);
    var e, c := m.log[m.delivered], LogLiveKey(env, m, m.delivered);
    if e.opens && v == Refresh && c in m.live {
      RefreshKeepsTold(env, m, table, m.live[c], m.now[e.ref]);
      GrowKeepsTold(env, Overwrite(m, m.live[c], m.now[e.ref]), DeliverNext(env, m, v), table);
    } else {
      GrowKeepsTold(env, m, DeliverNext(env, m, v), table);
    }
  }

  /** Reading an event of live key `c` makes the entries of all other keys no staler. */
  lemma ReadKeepsOthers(env: Env, m: Memory, k: string)
    requires Sized(m) && m.delivered < |m.log| && k != LogLiveKey(env, m, m.delivered) && KnownSince(env, m, k)
    ensures Sized(ReadOne(m, LogLiveKey(env, m, m.delivered)))
    ensures KnownSince(env, ReadOne(m, LogLiveKey(env, m, m.delivered)), k)
  {
    var q := ReadOne(m, LogLiveKey(env, m, m.delivered));
    assert forall j :: 0 <= j < |m.log| ==> LogLiveKey(env, q, j) == LogLiveKey(env, m, j);
  }

  lemma ReadKnowsItself(env: Env, m: Memory)
    requires Sized(m) && m.delivered < |m.log| && m.log[m.delivered].opens
    ensures Sized(ReadOne(m, LogLiveKey(env, m, m.delivered)))
    ensures KnownSince(env, ReadOne(m, LogLiveKey(env, m, m.delivered)), LogLiveKey(env, m, m.delivered))
  {}

  lemma DeliverGrows(env: Env, m: Memory, v: Verdict)
    requires Sized(m) && m.delivered < |m.log|
    ensures var read, q := ReadOne(m, LogLiveKey(env, m, m.delivered)), DeliverNext(env, m, v);
            && Sized(read) && q.log == read.log && read.born <= q.born
            && q.since == read.since && q.delivered == read.delivered
    ensures LogLiveKey(env, m, m.delivered) in DeliverNext(env, m, v).live ==> m.log[m.delivered].opens
    ensures DeliverNext(env, m, v).live.Keys <= m.live.Keys + {LogLiveKey(env, m, m.delivered)}
  {}

  lemma DeliverKnows(env: Env, m: Memory, v: Verdict, k: string)
    requires EnvOk(env) && Sized(m) && Heard(env, m) && m.delivered < |m.log|
    requires Sized(DeliverNext(env, m, v)) && k in DeliverNext(env, m, v).live
    ensures KnownSince(env, DeliverNext(env, m, v), k)
  {
    var q, c := DeliverNext(env, m, v), LogLiveKey(env, m, m.delivered);
    var read := ReadOne(m, c);
    DeliverGrows(env, m, v);
    if k == c {
      ReadKnowsItself(env, m);
    } else {
      assert HeardAt(env, m, k);
      ReadKeepsOthers(env, m, k);
    }
    GrowKeepsKnown(env, read, q, k);
  }

  /** After a delivery the entry of the event's key shows the event's state, and no other entry changes. */
  lemma DeliverShows(env: Env, m: Memory, v: Verdict, k: string)
    requires EnvOk(env) && Sized(m) && LogOk(env, m) && SharingOk(env, m) && m.delivered < |m.log|
    requires Sized(DeliverNext(env, m, v)) && k in DeliverNext(env, m, v).live
    ensures var q, d := DeliverNext(env, m, v), m.delivered;
            if k == LogLiveKey(env, m, d) then m.log[d].opens && q.now[q.live[k]] == m.log[d].state
            else k in m.live && q.live[k] == m.live[k] && q.now[q.live[k]] == m.now[m.live[k]]
  {
    var c := LogLiveKey(env, m, m.delivered);
    if m.log[m.delivered].opens {
      HeadIntact(env, m);
    }
    assert k in m.live && c in m.live && k != c ==> m.live[k] != m.live[c];
  }

  lemma DeliverKeepsSized(env: Env, m: Memory, v: Verdict)
    requires Sized(m) && m.delivered < |m.log|
    ensures Sized(DeliverNext(env, m, v))
  {}

  /** `q` is `m` after one more event of live key `c` was read, as far as the log is concerned. */
  ghost predicate ReadMore(m: Memory, q: Memory, c: string) {
    m.delivered < |m.log| && q.log == m.log && q.since == m.since[c := m.delivered]
  }

  lemma HearsMore(env: Env, m: Memory, q: Memory, c: string, k: string)
    requires Sized(m) && Sized(q) && ReadMore(m, q, c) && k in q.live && KnownSince(env, q, k)
    requires k == c ==> q.now[q.live[k]] == m.log[m.delivered].state
    requires k != c ==> k in m.live && HeardAt(env, m, k) && q.now[q.live[k]] == m.now[m.live[k]]
    ensures HeardAt(env, q, k)
  {}

  lemma DeliverReads(env: Env, m: Memory, v: Verdict)
    requires Sized(m) && m.delivered < |m.log|
    ensures ReadMore(m, DeliverNext(env, m, v), LogLiveKey(env, m, m.delivered))
  {}

  lemma DeliverHears(env: Env, m: Memory, v: Verdict, k: string)
    requires EnvOk(env) && Sized(m) && LogOk(env, m) && SharingOk(env, m) && Heard(env, m) && m.delivered < |m.log|
    requires Sized(DeliverNext(env, m, v)) && k in DeliverNext(env, m, v).live
    ensures HeardAt(env, DeliverNext(env, m, v), k)
  {
    DeliverKnows(env, m, v, k);
    DeliverShows(env, m, v, k);
    DeliverReads(env, m, v);
    if k != LogLiveKey(env, m, m.delivered) {
      assert k in m.live && HeardAt(env, m, k);
    }
    HearsMore(env, m, DeliverNext(env, m, v), LogLiveKey(env, m, m.delivered), k);
  }

  lemma DeliverKeepsHeard(env: Env, m: Memory, v: Verdict)
    requires EnvOk(env) && Sized(m) && LogOk(env, m) && SharingOk(env, m) && Heard(env, m)
    requires m.delivered < |m.log|
    ensures Sized(DeliverNext(env, m, v)) && Heard(env, DeliverNext(env, m, v))
  {
    DeliverKeepsSized(env, m, v);
    forall k | k in DeliverNext(env, m, v).live
      ensures HeardAt(env, DeliverNext(env, m, v), k)
    {
      DeliverHears(env, m, v, k);
    }
  }

  /** `q` has the log of `m`, and at most one more object, a private copy. */
  ghost predicate SameHistory(m: Memory, q: Memory) {
    && q.log == m.log && m.born <= q.born
    && (|q.born| == |m.born| || (|q.born| == |m.born| + 1 && |m.born| in q.copies))
    && (forall r :: 0 <= r < |m.born| ==> (r in q.copies <==> r in m.copies))
  }

  lemma DeliverKeepsHistory(env: Env, m: Memory, v: Verdict)
    requires Sized(m) && m.delivered < |m.log|
    ensures SameHistory(m, DeliverNext(env, m, v))
  {}

  lemma HistoryKeepsLog(env: Env, m: Memory, q: Memory)
    requires Sized(m) && Sized(q) && LogOk(env, m) && SameHistory(m, q)
    ensures LogOk(env, q)
  {}

  lemma HistoryKeepsTable(env: Env, m: Memory, q: Memory, table: map<string, nat>)
    requires Sized(m) && Sized(q) && SameHistory(m, q)
    requires TableOk(env, m, table) && AnnouncedLast(m, table)
    ensures TableOk(env, q, table) && AnnouncedLast(q, table)
  {}

  lemma DeliverKeepsLog(env: Env, m: Memory, table: map<string, nat>, v: Verdict)
    requires Sized(m) && LogOk(env, m) && m.delivered < |m.log|
    requires TableOk(env, m, table) && AnnouncedLast(m, table)
    ensures Sized(DeliverNext(env, m, v)) && LogOk(env, DeliverNext(env, m, v))
    ensures TableOk(env, DeliverNext(env, m, v), table) && AnnouncedLast(DeliverNext(env, m, v), table)
  {
    DeliverKeepsSized(env, m, v);
    DeliverKeepsHistory(env, m, v);
    HistoryKeepsLog(env, m, DeliverNext(env, m, v));
    HistoryKeepsTable(env, m, DeliverNext(env, m, v), table);
  }

  lemma PutCopyKeepsSharing(env: Env, m: Memory, c: string, conn: Conn, state: string)
    requires Sized(m) && SharingOk(env, m) && env.key(conn) == c
    ensures Sized(PutCopy(m, c, conn, state)) && SharingOk(env, PutCopy(m, c, conn, state))
  {}

  lemma PutSharedKeepsSharing(env: Env, m: Memory, r: nat, d: nat)
    requires Sized(m) && SharingOk(env, m)
    requires d < m.delivered && m.log[d].opens && m.log[d].ref == r && !env.wildcard(m.born[r])
    ensures var c := env.key(m.born[r]);
            Sized(PutShared(m, c, r, d)) && SharingOk(env, PutShared(m, c, r, d))
  {}

  lemma OverwriteKeepsSharing(env: Env, m: Memory, c: string, state: string)
    requires Sized(m) && SharingOk(env, m) && c in m.live
    ensures Sized(Overwrite(m, m.live[c], state)) && SharingOk(env, Overwrite(m, m.live[c], state))
  {}

  lemma DeliverKeepsSharing(env: Env, m: Memory, v: Verdict)
    requires EnvOk(env) && Sized(m) && SharingOk(env, m) && m.delivered < |m.log|
    ensures Sized(DeliverNext(env, m, v)) && SharingOk(env, DeliverNext(env, m, v))
  {
    var e, c := m.log[m.delivered], LogLiveKey(env, m, m.delivered);
    var read := ReadOne(m, c);
    assert Sized(read) && SharingOk(env, read);
    if e.opens && v == Refresh && c in m.live {
      OverwriteKeepsSharing(env, read, c, m.now[e.ref]);
    } else if e.opens && v == Store {
      if env.wildcard(m.born[e.ref]) {
        PutCopyKeepsSharing(env, read, c, env.concrete(m.born[e.ref]), m.now[e.ref]);
      } else {
        PutSharedKeepsSharing(env, read, e.ref, m.delivered);
      }
    }
  }

  lemma DeliverKeepsCore(env: Env, m: Memory, table: map<string, nat>, v: Verdict)
    requires EnvOk(env) && Core(env, m, table) && m.delivered < |m.log|
    ensures Core(env, DeliverNext(env, m, v), table)
  {
    DeliverKeepsHeard(env, m, v);
    DeliverKeepsLog(env, m, table, v);
    DeliverKeepsSharing(env, m, v);
    if KeyFixesLive(env) {
      DeliverKeepsTold(env, m, table, v);
    }
  }

  // ---------- whole runs ----------

  ghost predicate ScanOk(env: Env, w: World)
  {
    var s, m := w.scan, w.mem;
    && s.todo <= (match s.phase case Idle => {} case Comparing => s.latest.Keys case Closing => s.current.Keys)
    && (s.phase == Reconciler.Idle ==> s.latest == map[])
    && (s.phase == Reconciler.Comparing ==> forall k :: k in s.todo ==> Untouched(env, m, Table(s), k, s.latest[k]))
  }

  ghost predicate Inv(env: Env, w: World) { Core(env, w.mem, Table(w.scan)) && ScanOk(env, w) }

  /** Everything a run's scans report is scannable. */
  ghost predicate Reports(env: Env, a: Action)
  {
    a.Produce? && a.step.Begin? ==> forall c :: c in a.step.scan ==> env.scannable(c)
  }

  lemma GrownKeepsLog(env: Env, m: Memory, scan: seq<Conn>)
    requires Sized(m) && LogOk(env, m) && forall c :: c in scan ==> env.scannable(c)
    ensures Sized(Grown(m, scan)) && LogOk(env, Grown(m, scan))
  {}

  lemma GrownKeepsSharing(env: Env, m: Memory, scan: seq<Conn>)
    requires Sized(m) && SharingOk(env, m)
    ensures Sized(Grown(m, scan)) && SharingOk(env, Grown(m, scan))
  {
    assert forall i :: 0 <= i < |scan| ==> Grown(m, scan).now[|m.now| + i] == scan[i].state;
  }

  lemma GrownKeepsHeard(env: Env, m: Memory, scan: seq<Conn>)
    requires Sized(m) && Heard(env, m)
    ensures Sized(Grown(m, scan)) && Heard(env, Grown(m, scan))
  {
    var q := Grown(m, scan);
    forall k | k in q.live
      ensures HeardAt(env, q, k)
    {
      assert HeardAt(env, m, k);
      GrowKeepsKnown(env, m, q, k);
    }
  }

  lemma BeginKeepsCore(env: Env, m: Memory, table: map<string, nat>, scan: seq<Conn>)
    requires Core(env, m, table) && forall c :: c in scan ==> env.scannable(c)
    ensures Core(env, Grown(m, scan), table)
  {
    GrownKeepsLog(env, m, scan);
    GrownKeepsSharing(env, m, scan);
    GrownKeepsHeard(env, m, scan);
    if KeyFixesLive(env) {
      GrowKeepsTold(env, m, Grown(m, scan), table);
    }
  }

  lemma NewIsUntouched(env: Env, m: Memory, table: map<string, nat>, scan: seq<Conn>, r: nat)
    requires Sized(m) && TableOk(env, m, table) && SharingOk(env, m) && |m.born| <= r < |m.born| + |scan|
    ensures Untouched(env, Grown(m, scan), table, env.key(scan[r - |m.born|]), r)
  {
    assert forall o :: o in m.origin ==> m.log[m.origin[o]].ref == o;
  }

  lemma BeginKeepsInv(env: Env, w: World, scan: seq<Conn>)
    requires RefsOk(w) && Inv(env, w) && forall c :: c in scan ==> env.scannable(c)
    ensures Inv(env, ProduceNext(env, w, Reconciler.Begin(scan)))
  {
    if w.scan.phase == Reconciler.Idle {
      var q := ProduceNext(env, w, Reconciler.Begin(scan));
      BeginKeepsCore(env, w.mem, Table(w.scan), scan);
      FirstRefsRefer(env.key, scan, |scan|, |w.mem.born|);
      assert Table(q.scan) == Table(w.scan);
      forall k | k in q.scan.todo
        ensures Untouched(env, q.mem, Table(q.scan), k, q.scan.latest[k])
      {
        NewIsUntouched(env, w.mem, Table(w.scan), scan, q.scan.latest[k]);
      }
    }
  }

  lemma CompareMovesTable(w: World, k: string)
    requires w.scan.phase == Reconciler.Comparing && k in w.scan.todo && k in w.scan.latest
    ensures Table(w.scan.(todo := w.scan.todo - {k})) == Table(w.scan)[k := w.scan.latest[k]]
    ensures k in Table(w.scan) <==> k in w.scan.current
    ensures k in w.scan.current ==> Table(w.scan)[k] == w.scan.current[k]
  {}

  lemma CompareKeepsScanOk(env: Env, w: World, k: string)
    requires RefsOk(w) && Inv(env, w) && w.scan.phase == Reconciler.Comparing && k in w.scan.todo
    ensures ScanOk(env, ProduceNext(env, w, Reconciler.Compare(k)))
  {
    CompareMovesTable(w, k);
    var q := ProduceNext(env, w, Reconciler.Compare(k));
    forall x | x in q.scan.todo
      ensures Untouched(env, q.mem, Table(q.scan), x, q.scan.latest[x])
    {
      assert Untouched(env, w.mem, Table(w.scan), x, w.scan.latest[x]);
      assert Untouched(env, w.mem, Table(w.scan), k, w.scan.latest[k]);
    }
  }

  lemma CompareKeepsInv(env: Env, w: World, k: string)
    requires RefsOk(w) && Inv(env, w)
    ensures Inv(env, ProduceNext(env, w, Reconciler.Compare(k)))
  {
    var s, m := w.scan, w.mem;
    if s.phase == Reconciler.Comparing && k in s.todo {
      CompareKeepsScanOk(env, w, k);
      CompareMovesTable(w, k);
      assert Untouched(env, m, Table(s), k, s.latest[k]);
      if Changed(s, m, k) {
        AnnounceKeepsCore(env, m, Table(s), k, s.latest[k]);
      } else {
        QuietKeepsCore(env, m, Table(s), k, s.latest[k]);
      }
    }
  }

  lemma CloseMovesTable(s: Scan, k: string)
    requires s.phase == Reconciler.Closing && k in s.todo && k in s.current
    ensures Table(s.(todo := s.todo - {k})) == if k in s.latest then Table(s) else Table(s) - {k}
    ensures k !in s.latest ==> k in Table(s) && Table(s)[k] == s.current[k]
  {}

  lemma ProduceKeepsInv(env: Env, w: World, a: Reconciler.Action)
    requires RefsOk(w) && Inv(env, w) && Reports(env, Produce(a))
    ensures Inv(env, ProduceNext(env, w, a))
  {
    var s, m := w.scan, w.mem;
    match a
    case Begin(scan) => BeginKeepsInv(env, w, scan);
    case Compare(k) => CompareKeepsInv(env, w, k);
    case StartClosing =>
      assert ProduceNext(env, w, a) != w ==> Table(ProduceNext(env, w, a).scan) == Table(s);
    case Close(k) =>
      if s.phase == Reconciler.Closing && k in s.todo {
        CloseMovesTable(s, k);
        if k !in s.latest {
          CloseKeepsCore(env, m, Table(s), k);
        }
      }
    case End =>
      assert ProduceNext(env, w, a) != w ==> Table(ProduceNext(env, w, a).scan) == Table(s);
  }

  lemma DeliverKeepsUntouched(env: Env, m: Memory, table: map<string, nat>, v: Verdict, k: string, r: nat)
    requires Sized(m) && m.delivered < |m.log| && Untouched(env, m, table, k, r)
    ensures Untouched(env, DeliverNext(env, m, v), table, k, r)
  {}

  lemma DeliverKeepsScanOk(env: Env, w: World, v: Verdict)
    requires RefsOk(w) && Sized(w.mem) && ScanOk(env, w)
    ensures ScanOk(env, Next(env, w, Deliver(v)))
  {
    if w.mem.delivered < |w.mem.log| {
      forall k | w.scan.phase == Reconciler.Comparing && k in w.scan.todo
        ensures Untouched(env, DeliverNext(env, w.mem, v), Table(w.scan), k, w.scan.latest[k])
      {
        assert Untouched(env, w.mem, Table(w.scan), k, w.scan.latest[k]);
        DeliverKeepsUntouched(env, w.mem, Table(w.scan), v, k, w.scan.latest[k]);
      }
    }
  }

  lemma DeliverKeepsInv(env: Env, w: World, v: Verdict)
    requires EnvOk(env) && RefsOk(w) && Inv(env, w)
    ensures Inv(env, Next(env, w, Deliver(v)))
  {
    DeliverKeepsScanOk(env, w, v);
    if w.mem.delivered < |w.mem.log| {
      DeliverKeepsCore(env, w.mem, Table(w.scan), v);
    }
  }

  lemma NextKeepsInv(env: Env, w: World, a: Action)
    requires EnvOk(env) && RefsOk(w) && Inv(env, w) && Reports(env, a)
    ensures Inv(env, Next(env, w, a))
  {
    match a
    case Produce(step) => ProduceKeepsInv(env, w, step);
    case Deliver(v) =>
      DeliverKeepsInv(env, w, v);
    case Tick(k) => TickKeepsInv(env, w, k);
  }

  lemma TakeOutKeepsHeard(env: Env, m: Memory, c: string)
    requires Sized(m) && Heard(env, m)
    ensures Sized(TakeOut(m, c)) && Heard(env, TakeOut(m, c))
  {
    var q := TakeOut(m, c);
    forall k | k in q.live
      ensures HeardAt(env, q, k)
    {
      assert HeardAt(env, m, k);
      GrowKeepsKnown(env, m, q, k);
    }
  }

  lemma TickKeepsCore(env: Env, m: Memory, table: map<string, nat>, k: string)
    requires Core(env, m, table)
    ensures Core(env, TakeOut(m, k), table)
  {
    TakeOutKeepsHeard(env, m, k);
    if KeyFixesLive(env) {
      GrowKeepsTold(env, m, TakeOut(m, k), table);
    }
  }

  lemma SameScanKeepsScanOk(env: Env, w: World, m: Memory)
    requires Inv(env, w)
    requires m.born == w.mem.born && m.log == w.mem.log && m.copies == w.mem.copies && m.origin == w.mem.origin
             && m.now == w.mem.now
    ensures ScanOk(env, w.(mem := m))
  {
    forall k | w.scan.phase == Reconciler.Comparing && k in w.scan.todo
      ensures Untouched(env, m, Table(w.scan), k, w.scan.latest[k])
    {
      assert Untouched(env, w.mem, Table(w.scan), k, w.scan.latest[k]);
    }
  }

  lemma TickKeepsInv(env: Env, w: World, k: string)
    requires RefsOk(w) && Inv(env, w)
    ensures Inv(env, Next(env, w, Tick(k)))
  {
    TickKeepsCore(env, w.mem, Table(w.scan), k);
    SameScanKeepsScanOk(env, w, TakeOut(w.mem, k));
  }

  ghost predicate AllReport(env: Env, actions: seq<Action>) { forall a :: a in actions ==> Reports(env, a) }

  lemma {:induction false} RunKeepsInv(env: Env, actions: seq<Action>)
    requires EnvOk(env) && AllReport(env, actions)
    ensures Inv(env, Run(env, actions))
  {
    if actions != [] {
      var front := actions[..|actions| - 1];
      RunKeepsInv(env, front);
      NextKeepsInv(env, Run(env, front), actions[|actions| - 1]);
    }
  }

  ghost predicate Drained(m: Memory) { m.delivered == |m.log| }

  /** The live entry under `c` is the live key of the record that stands for `k` in the producer's
      table, and shows the `State` that was scanned for it. */
  ghost predicate ShowsScanned(env: Env, w: World, c: string, k: string)
  {
    var m, table := w.mem, Table(w.scan);
    && k in table && table[k] < |m.born| && c in m.live && m.live[c] < |m.now|
    && env.key(m.born[table[k]]) == k
    && LiveKeyOf(env, m.born[table[k]]) == c
    && m.now[m.live[c]] == m.born[table[k]].state
  }

  lemma DrainedShowsScanned(env: Env, w: World, c: string) returns (k: string)
    requires EnvOk(env) && KeyFixesLive(env) && Inv(env, w) && Drained(w.mem) && c in w.mem.live
    ensures ShowsScanned(env, w, c, k)
  {
    var m := w.mem;
    var i := m.since[c];
    assert HeardAt(env, m, c);
    assert LastSaid(env, m, i);
    k := m.log[i].key;
    SameKeySameLive(env, m, i, Table(w.scan)[k]);
  }

  /** No ghosts, end to end. For any scans, any verdicts of the filters and any interleaving of
      scanning, delivery and timer: whenever the channel is drained, every live entry shows what was
      scanned for a key the producer's table holds. */
  lemma NoGhosts(env: Env, actions: seq<Action>)
    requires EnvOk(env) && KeyFixesLive(env) && AllReport(env, actions)
    ensures var w := Run(env, actions);
            Drained(w.mem) ==> forall c :: c in w.mem.live ==> exists k :: ShowsScanned(env, w, c, k)
  {
    RunKeepsInv(env, actions);
    var w := Run(env, actions);
    if Drained(w.mem) {
      forall c | c in w.mem.live
        ensures exists k :: ShowsScanned(env, w, c, k)
      {
        var k := DrainedShowsScanned(env, w, c);
      }
    }
  }
}
