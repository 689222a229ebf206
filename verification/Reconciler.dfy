/** The change-detecting scan loop over plain values, one dictionary visit at a time: first the
    entries of the latest scan are compared with the previous one, then vanished entries are closed. */
module Reconciler {
  import opened Connections
  import opened EventLog

  /** How a connection is turned into a dictionary key. */
  type Keying = Conn -> string

  /** The dictionary built by the TryAdd loop: the first record of a key wins. */
  function FirstByKey(key: Keying, scan: seq<Conn>): map<string, Conn> { FirstUpTo(key, scan, |scan|) }

  function FirstUpTo(key: Keying, scan: seq<Conn>, n: nat): map<string, Conn>
    requires n <= |scan|
  {
    if n == 0 then map[]
    else
      var m, c := FirstUpTo(key, scan, n - 1), scan[n - 1];
      if key(c) in m then m else m[key(c) := c]
  }

  /** Each key stands for the first record that has it. */
  lemma {:induction false} FirstIsKept(key: Keying, scan: seq<Conn>, n: nat, i: nat)
    requires i < n <= |scan| && forall j :: 0 <= j < i ==> key(scan[j]) != key(scan[i])
    ensures key(scan[i]) in FirstUpTo(key, scan, n) && FirstUpTo(key, scan, n)[key(scan[i])] == scan[i]
  {
    if i < n - 1 {
      FirstIsKept(key, scan, n - 1, i);
    } else {
      NoRecordNoKey(key, scan, i, key(scan[i]));
    }
  }

  lemma {:induction false} NoRecordNoKey(key: Keying, scan: seq<Conn>, n: nat, k: string)
    requires n <= |scan|
    ensures k in FirstUpTo(key, scan, n) ==> exists j :: 0 <= j < n && key(scan[j]) == k
  {
    if n > 0 { NoRecordNoKey(key, scan, n - 1, k); }
  }

  datatype Phase = Idle | Comparing | Closing

  /** `todo` holds the entries the running foreach has still to visit; `mark` is where the
      running scan's events start in `log`. */
  datatype Producer = Producer(
    current: map<string, Conn>,
    phase: Phase,
    latest: map<string, Conn>,
    todo: set<string>,
    log: seq<Event>,
    mark: nat)

  const INITIAL := Producer(map[], Idle, map[], {}, [], 0)

  datatype Action =
    | Begin(scan: seq<Conn>)   // a scan has returned; latestMap is built
    | Compare(key: string)     // one iteration of the first foreach
    | StartClosing             // the first foreach is done
    | Close(key: string)       // one iteration of the second foreach
    | End                      // _currentState = latestMap

  /** One step. An action whose turn it is not leaves the state alone, so every sequence of
      actions is a run. */
  function Next(key: Keying, p: Producer, a: Action): Producer
  {
    match a
    case Begin(scan) =>
      if p.phase != Idle then p
      else
        var latest := FirstByKey(key, scan);
        p.(phase := Comparing, latest := latest, todo := latest.Keys, mark := |p.log|)
    case Compare(k) =>
      if p.phase != Comparing || k !in p.todo || k !in p.latest then p
      else if NeedsOpen(p.current, p.latest, k) then p.(todo := p.todo - {k}, log := p.log + [Opened(k, p.latest[k])])
      else p.(todo := p.todo - {k})
    case StartClosing =>
      if p.phase != Comparing || p.todo != {} then p
      else p.(phase := Closing, todo := p.current.Keys)
    case Close(k) =>
      if p.phase != Closing || k !in p.todo || k !in p.current then p
      else if NeedsClose(p.current, p.latest, k) then p.(todo := p.todo - {k}, log := p.log + [Closed(k, p.current[k])])
      else p.(todo := p.todo - {k})
    case End =>
      if p.phase != Closing || p.todo != {} then p
      else p.(phase := Idle, current := p.latest, latest := map[])
  }

  function Run(key: Keying, actions: seq<Action>): Producer
  {
    if actions == [] then INITIAL else Next(key, Run(key, actions[..|actions| - 1]), actions[|actions| - 1])
  }

  // ---------- what the log says at any moment ----------

  function LogKeys(p: Producer): set<string>
  {
    match p.phase
    case Idle => p.current.Keys
    case Comparing => p.current.Keys + (p.latest.Keys - p.todo)
    case Closing => p.latest.Keys + p.todo
  }

  /** The table a listener should have: entries already visited as in the latest scan, the others
      as in the previous one. */
  ghost predicate Believed(p: Producer, m: map<string, string>)
  {
    && m.Keys == LogKeys(p)
    && forall k :: k in m ==>
         if k in p.latest && (p.phase == Comparing ==> k !in p.todo) then m[k] == p.latest[k].state
         else k in p.current && m[k] == p.current[k].state
  }

  ghost predicate Visited(p: Producer, k: string)
  {
    match p.phase
    case Idle => false
    case Comparing => k in p.latest && k !in p.todo
    case Closing => k in p.latest || (k in p.current && k !in p.todo)
  }

  ghost function Seen(p: Producer): iset<string> { iset k | Visited(p, k) }

  /** Due events of the visited keys in `seen`, each once, none missing. */
  ghost predicate Covers(cur: map<string, Conn>, latest: map<string, Conn>, batch: seq<Event>, seen: iset<string>)
  {
    && DistinctKeys(batch)
    && (forall i :: 0 <= i < |batch| ==> Due(cur, latest, batch[i]) && batch[i].key in seen)
    && (forall k :: k in seen && (NeedsOpen(cur, latest, k) || NeedsClose(cur, latest, k)) ==> Mentions(batch, k))
  }

  /** The running scan has reported exactly the due changes of the entries visited so far. */
  ghost predicate BatchSoFar(p: Producer)
  {
    p.phase != Idle ==>
      p.mark <= |p.log| && Covers(p.current, p.latest, p.log[p.mark..], Seen(p))
  }

  ghost predicate Inv(p: Producer)
  {
    && p.todo <= (match p.phase case Idle => {} case Comparing => p.latest.Keys case Closing => p.current.Keys)
    && (p.phase == Idle ==> p.latest == map[])
    && Believed(p, Replay(map[], p.log))
    && Disciplined(p.log)
    && BatchSoFar(p)
  }

  lemma VisitMore(p: Producer, q: Producer, k: string)
    requires p.phase != Idle && k in p.todo && q == p.(todo := p.todo - {k}, log := q.log)
    requires p.todo <= (if p.phase == Comparing then p.latest.Keys else p.current.Keys)
    ensures forall x :: Visited(q, x) <==> Visited(p, x) || x == k
    ensures p.phase == Comparing || k !in p.latest ==> !Visited(p, k)
  {}

  lemma CoversOneMore(cur: map<string, Conn>, latest: map<string, Conn>, batch: seq<Event>, seen: iset<string>,
                      e: Event)
    requires Covers(cur, latest, batch, seen) && e.key !in seen && Due(cur, latest, e)
    ensures Covers(cur, latest, batch + [e], seen + iset{e.key})
  {
    var batch' := batch + [e];
    forall k | k in seen + iset{e.key} && (NeedsOpen(cur, latest, k) || NeedsClose(cur, latest, k))
      ensures Mentions(batch', k)
    {
      if k == e.key {
        assert batch'[|batch|].key == k;
      } else {
        var i :| 0 <= i < |batch| && batch[i].key == k;
        assert batch'[i].key == k;
      }
    }
  }

  lemma EmitKeepsBatch(p: Producer, e: Event, k: string)
    requires Inv(p) && p.phase != Idle && e.key == k && k in p.todo
    requires p.phase == Comparing ==> e.Opened? && k in p.latest
    requires p.phase == Closing ==> e.Closed?
    requires Due(p.current, p.latest, e)
    ensures BatchSoFar(p.(todo := p.todo - {k}, log := p.log + [e]))
  {
    var q := p.(todo := p.todo - {k}, log := p.log + [e]);
    assert q.log[q.mark..] == p.log[p.mark..] + [e];
    VisitMore(p, q, k);
    CoversOneMore(p.current, p.latest, p.log[p.mark..], Seen(p), e);
    assert Seen(q) == Seen(p) + iset{k};
  }

  lemma SkipKeepsBatch(p: Producer, k: string)
    requires Inv(p) && p.phase != Idle && k in p.todo
    requires p.phase == Comparing ==> !NeedsOpen(p.current, p.latest, k)
    requires p.phase == Closing ==> !NeedsClose(p.current, p.latest, k)
    ensures BatchSoFar(p.(todo := p.todo - {k}))
  {
    var q := p.(todo := p.todo - {k});
    VisitMore(p, q, k);
    assert p.phase == Closing && k in p.latest ==> Visited(p, k);
    assert Seen(q) == Seen(p) + iset{k};
  }

  /** A change of phase moves no entry in or out of the visited ones that are due. */
  lemma TurnKeepsBatch(p: Producer)
    requires Inv(p) && p.phase == Comparing && p.todo == {}
    ensures BatchSoFar(p.(phase := Closing, todo := p.current.Keys))
  {
    var q := p.(phase := Closing, todo := p.current.Keys);
    assert Seen(q) == Seen(p);
  }

  lemma EmitKeepsBelief(p: Producer, e: Event, k: string, m: map<string, string>)
    requires p.phase != Idle && e.key == k && k in p.todo && Due(p.current, p.latest, e)
    requires p.phase == Comparing ==> e.Opened?
    requires p.phase == Closing ==> e.Closed?
    requires Believed(p, m)
    ensures Informative(m, e)
    ensures Believed(p.(todo := p.todo - {k}, log := p.log + [e]), Apply(m, e))
  {}

  lemma EmitKeepsInv(p: Producer, e: Event, k: string)
    requires Inv(p) && p.phase != Idle && e.key == k && k in p.todo
    requires p.phase == Comparing ==> e.Opened? && k in p.latest
    requires p.phase == Closing ==> e.Closed?
    requires Due(p.current, p.latest, e)
    ensures Inv(p.(todo := p.todo - {k}, log := p.log + [e]))
  {
    ReplaySnoc(map[], p.log, e);
    EmitKeepsBelief(p, e, k, Replay(map[], p.log));
    DisciplinedSnoc(p.log, e);
    EmitKeepsBatch(p, e, k);
  }

  lemma SkipKeepsInv(p: Producer, k: string)
    requires Inv(p) && p.phase != Idle && k in p.todo
    requires p.phase == Comparing ==> !NeedsOpen(p.current, p.latest, k)
    requires p.phase == Closing ==> !NeedsClose(p.current, p.latest, k)
    ensures Inv(p.(todo := p.todo - {k}))
  {
    SkipKeepsBatch(p, k);
  }

  lemma NextKeepsInv(key: Keying, p: Producer, a: Action)
    requires Inv(p)
    ensures Inv(Next(key, p, a))
  {
    var q := Next(key, p, a);
    if q != p {
      match a
      case Begin(scan) =>
        assert q.log[q.mark..] == [];
      case Compare(k) =>
        if NeedsOpen(p.current, p.latest, k) {
          EmitKeepsInv(p, Opened(k, p.latest[k]), k);
        } else {
          SkipKeepsInv(p, k);
        }
      case StartClosing =>
        TurnKeepsBatch(p);
      case Close(k) =>
        if NeedsClose(p.current, p.latest, k) {
          EmitKeepsInv(p, Closed(k, p.current[k]), k);
        } else {
          SkipKeepsInv(p, k);
        }
      case End =>
    }
  }

  lemma {:induction false} RunKeepsInv(key: Keying, actions: seq<Action>)
    ensures Inv(Run(key, actions))
  {
    if actions != [] {
      RunKeepsInv(key, actions[..|actions| - 1]);
      NextKeepsInv(key, Run(key, actions[..|actions| - 1]), actions[|actions| - 1]);
    }
  }

  // ---------- the promises ----------

  /** After any run, replaying the whole log gives the keys and states of the current table. */
  lemma LogRefinesState(key: Keying, actions: seq<Action>)
    ensures var p := Run(key, actions);
            && Believed(p, Replay(map[], p.log))
            && (p.phase == Idle ==> Replay(map[], p.log) == States(p.current))
  {
    RunKeepsInv(key, actions);
  }

  /** When a scan is about to finish, its events are exactly the changes it found; so replaying
      them in any other order would have led to the same table. */
  lemma ScanReportsDiff(key: Keying, actions: seq<Action>)
    requires Run(key, actions).phase == Closing && Run(key, actions).todo == {}
    ensures var p := Run(key, actions);
            && p.mark <= |p.log|
            && IsDiff(p.current, p.latest, p.log[p.mark..])
            && Replay(States(p.current), p.log[p.mark..]) == States(Next(key, p, End).current)
  {
    RunKeepsInv(key, actions);
    var p := Run(key, actions);
    assert forall k :: k in p.latest || k in p.current ==> k in Seen(p);
    DiffReplays(p.current, p.latest, p.log[p.mark..]);
  }

  /** Over whole runs: no scan mentions a key twice, every `Closed` answers an `Opened`, and two
      neighbouring `Opened` of a key carry different states. */
  lemma TraceDiscipline(key: Keying, actions: seq<Action>)
    ensures var p := Run(key, actions);
            && (p.phase != Idle ==> p.mark <= |p.log| && DistinctKeys(p.log[p.mark..]))
            && Disciplined(p.log)
  {
    RunKeepsInv(key, actions);
  }
}
