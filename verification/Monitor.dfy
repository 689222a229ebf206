/** The objects of the live monitor: connection records shared by reference, the change-detecting
    event source that fills the channel, and the consumer with its clean-up timer. */
module Monitor {
  import opened Connections
  import opened EventLog
  import opened Filters
  import Pipeline
  import Reconciler

  /** A captured connection. Only the state and the capture time can change after creation. */
  class NetworkConnection {
    const identity: Conn   // the field values at creation
    var state: string
    var capturedAt: int

    constructor (c: Conn)
      ensures identity == c && View() == c
    {
      identity, state, capturedAt := c, c.state, c.capturedAt;
    }

    function View(): (c: Conn)
      reads this
      ensures c.state == state && c.capturedAt == capturedAt
      ensures c.(state := identity.state, capturedAt := identity.capturedAt) == identity
    {
      identity.(state := state, capturedAt := capturedAt)
    }
  }

  type Table = map<string, NetworkConnection>

  function Values(t: Table): (m: map<string, Conn>)
    reads t.Values
  {
    map k | k in t :: t[k].View()
  }

  ghost function KeySet(t: Table): iset<string> { iset k | k in t }

  /** The channel is handed to each scan and comes back longer. */
  type Channel = seq<NetworkEvent>

  datatype NetworkEvent = NetworkEvent(opens: bool, key: string, connection: NetworkConnection)

  /** `v` is what event `e` says now. */
  ghost predicate Shows(e: NetworkEvent, v: Event)
    reads e.connection
  {
    v == if e.opens then Opened(e.key, e.connection.View()) else Closed(e.key, e.connection.View())
  }

  /** `after` is `channel` followed by events that say `views`. */
  ghost predicate Extends(channel: Channel, after: Channel, views: seq<Event>)
    reads set e | e in after :: e.connection
  {
    && |after| == |channel| + |views| && channel <= after
    && forall i :: 0 <= i < |views| ==> Shows(after[|channel| + i], views[i])
  }

  /** What was written to the channel, as its objects are now. */
  function Written(channel: Channel, after: Channel): (views: seq<Event>)
    requires channel <= after
    reads set e | e in after :: e.connection
    ensures Extends(channel, after, views)
    decreases |after|
  {
    if |after| == |channel| then []
    else
      var last := after[|after| - 1];
      Written(channel, after[..|after| - 1])
      + [if last.opens then Opened(last.key, last.connection.View()) else Closed(last.key, last.connection.View())]
  }

  lemma ExtendsIsWritten(channel: Channel, after: Channel, views: seq<Event>)
    requires Extends(channel, after, views)
    ensures Written(channel, after) == views
  {
    var written := Written(channel, after);
    forall i | 0 <= i < |views|
      ensures written[i] == views[i]
    {
      assert Shows(after[|channel| + i], views[i]) && Shows(after[|channel| + i], written[i]);
    }
  }

  function ConnViews(conns: seq<NetworkConnection>): (views: seq<Conn>)
    reads set c | c in conns
    ensures |views| == |conns| && forall i :: 0 <= i < |conns| ==> views[i] == conns[i].View()
  {
    if conns == [] then [] else ConnViews(conns[..|conns| - 1]) + [conns[|conns| - 1].View()]
  }

  // ---------- the event source ----------

  class LinuxNetworkEventSource {
    const key: Conn -> string   // the program's GetConnectionKey
    var currentState: Table

    constructor (key: Conn -> string)
      ensures this.key == key && currentState == map[]
    {
      this.key, currentState := key, map[];
    }

    /** The TryAdd loop that turns a scan into a dictionary. */
    method BuildMap(scan: seq<NetworkConnection>) returns (result: Table)
      ensures Values(result) == Reconciler.FirstByKey(key, ConnViews(scan))
    {
      result := map[];
      for i := 0 to |scan|
        invariant Values(result) == Reconciler.FirstUpTo(key, ConnViews(scan), i)
      {
        var k := key(scan[i].View());
        if k !in result {
          result := result[k := scan[i]];
        }
      }
    }

    /** The first foreach: entries that are new or whose state changed are announced. */
    method AnnounceChanges(channel: Channel, latestMap: Table) returns (after: Channel)
      ensures channel <= after
      ensures Reconciler.Covers(Values(currentState), Values(latestMap), Written(channel, after), KeySet(latestMap))
    {
      ghost var cur, latest, seen: iset<string> := Values(currentState), Values(latestMap), iset{};
      ghost var views: seq<Event> := [];
      after := channel;
      var todo := latestMap.Keys;
      while todo != {}
        invariant todo <= latestMap.Keys
        invariant forall k :: k in seen <==> k in latestMap && k !in todo
        invariant Extends(channel, after, views) && Reconciler.Covers(cur, latest, views, seen)
      {
        var k :| k in todo;
        var c := latestMap[k];
        if k !in currentState || currentState[k].state != c.state {
          Reconciler.CoversOneMore(cur, latest, views, seen, Opened(k, c.View()));
          after, views := after + [NetworkEvent(true, k, c)], views + [Opened(k, c.View())];
        } else {
          CoversQuietly(cur, latest, views, seen, k);
        }
        todo, seen := todo - {k}, seen + iset{k};
      }
      assert seen == KeySet(latestMap);
      ExtendsIsWritten(channel, after, views);
    }

    /** The second foreach: entries the latest scan no longer has are closed. `changes` is what the
        first one wrote. */
    method CloseVanished(channel: Channel, latestMap: Table, ghost changes: seq<Event>) returns (after: Channel)
      requires Reconciler.Covers(Values(currentState), Values(latestMap), changes, KeySet(latestMap))
      ensures channel <= after
      ensures IsDiff(Values(currentState), Values(latestMap), changes + Written(channel, after))
    {
      ghost var cur, latest, seen := Values(currentState), Values(latestMap), KeySet(latestMap);
      ghost var views, closes: seq<Event> := changes, [];
      after := channel;
      var todo := currentState.Keys;
      while todo != {}
        invariant todo <= currentState.Keys
        invariant forall k :: k in seen <==> k in latestMap || (k in currentState && k !in todo)
        invariant Extends(channel, after, closes) && views == changes + closes
        invariant Reconciler.Covers(cur, latest, views, seen)
      {
        var k :| k in todo;
        var c := currentState[k];
        if k !in latestMap {
          Reconciler.CoversOneMore(cur, latest, views, seen, Closed(k, c.View()));
          after, closes := after + [NetworkEvent(false, k, c)], closes + [Closed(k, c.View())];
          views := views + [Closed(k, c.View())];
        } else {
          assert seen + iset{k} == seen;
        }
        todo, seen := todo - {k}, seen + iset{k};
      }
      CoversAll(cur, latest, views, seen);
      ExtendsIsWritten(channel, after, closes);
    }

    /** Everything a reconciliation scan does before it replaces the table. */
    method Reconcile(channel: Channel, latest: seq<NetworkConnection>) returns (after: Channel, latestMap: Table)
      ensures Values(latestMap) == Reconciler.FirstByKey(key, ConnViews(latest))
      ensures channel <= after && IsDiff(Values(currentState), Values(latestMap), Written(channel, after))
    {
      latestMap := BuildMap(latest);
      var middle := AnnounceChanges(channel, latestMap);
      ghost var changes := Written(channel, middle);
      after := CloseVanished(middle, latestMap, changes);
      ExtendsTwice(channel, middle, after, changes, Written(middle, after));
      ExtendsIsWritten(channel, after, changes + Written(middle, after));
    }

    method SetCurrentState(table: Table, ghost channel: Channel, ghost after: Channel)
      requires channel <= after
      modifies this`currentState
      ensures Values(currentState) == old(Values(table)) && Written(channel, after) == old(Written(channel, after))
    {
      currentState := table;
    }

    /** One reconciliation scan: the channel receives exactly the changes between the old and the
        new table, each once, and the new table is the latest scan, first record of each key. */
    method PerformReconciliationScan(channel: Channel, latest: seq<NetworkConnection>)
      returns (after: Channel)
      modifies this`currentState
      ensures Values(currentState) == old(Reconciler.FirstByKey(key, ConnViews(latest)))
      ensures channel <= after && IsDiff(old(Values(currentState)), Values(currentState), Written(channel, after))
    {
      var latestMap;
      ghost var before := Values(currentState);
      after, latestMap := Reconcile(channel, latest);
      ghost var values, views := Values(latestMap), Written(channel, after);
      assert IsDiff(before, values, views);
      SetCurrentState(latestMap, channel, after);
    }

    /** TryAdd, and a write to the channel if the key was new. */
    method AnnounceIfNew(ghost channel: Channel, after: Channel, initialMap: Table, c: NetworkConnection,
                         ghost views: seq<Event>)
      returns (longer: Channel, larger: Table, ghost more: seq<Event>)
      requires Extends(channel, after, views) && IsDiff(map[], Values(initialMap), views)
      ensures Extends(channel, longer, more) && IsDiff(map[], Values(larger), more)
      ensures var before, k := Values(initialMap), key(c.View());
              Values(larger) == if k in before then before else before[k := c.View()]
    {
      var k := key(c.View());
      longer, larger, more := after, initialMap, views;
      if k !in initialMap {
        OpenOneMore(Values(initialMap), views, k, c.View());
        PutOne(initialMap, k, c);
        ExtendsByOne(channel, after, views, k, c);
        larger := initialMap[k := c];
        longer, more := after + [NetworkEvent(true, k, c)], views + [Opened(k, c.View())];
      }
    }

    /** The first scan is announced record by record while the table is being built. */
    method AnnounceInitial(channel: Channel, initial: seq<NetworkConnection>)
      returns (after: Channel, initialMap: Table)
      ensures Values(initialMap) == Reconciler.FirstByKey(key, ConnViews(initial))
      ensures channel <= after && IsDiff(map[], Values(initialMap), Written(channel, after))
    {
      initialMap, after := map[], channel;
      ghost var views: seq<Event> := [];
      ghost var values: map<string, Conn>, conns := map[], ConnViews(initial);
      for i := 0 to |initial|
        invariant values == Values(initialMap) && values == Reconciler.FirstUpTo(key, conns, i)
        invariant Extends(channel, after, views) && IsDiff(map[], values, views)
      {
        after, initialMap, views := AnnounceIfNew(channel, after, initialMap, initial[i], views);
        values := Values(initialMap);
      }
      ExtendsIsWritten(channel, after, views);
    }

    /** Phase 1 of the scan loop. */
    method InitialSnapshot(channel: Channel, initial: seq<NetworkConnection>)
      returns (after: Channel)
      modifies this`currentState
      ensures Values(currentState) == old(Reconciler.FirstByKey(key, ConnViews(initial)))
      ensures channel <= after && IsDiff(map[], Values(currentState), Written(channel, after))
    {
      var initialMap;
      after, initialMap := AnnounceInitial(channel, initial);
      SetCurrentState(initialMap, channel, after);
    }
  }

  lemma ExtendsTwice(channel: Channel, middle: Channel, after: Channel, a: seq<Event>, b: seq<Event>)
    requires Extends(channel, middle, a) && Extends(middle, after, b)
    ensures Extends(channel, after, a + b)
  {}

  lemma PutOne(t: Table, k: string, c: NetworkConnection)
    ensures Values(t[k := c]) == Values(t)[k := c.View()]
  {}

  lemma ExtendsByOne(channel: Channel, after: Channel, views: seq<Event>, k: string, c: NetworkConnection)
    requires Extends(channel, after, views)
    ensures Extends(channel, after + [NetworkEvent(true, k, c)], views + [Opened(k, c.View())])
  {}

  lemma CoversAll(cur: map<string, Conn>, latest: map<string, Conn>, batch: seq<Event>, seen: iset<string>)
    requires Reconciler.Covers(cur, latest, batch, seen)
    requires forall k :: k in cur || k in latest ==> k in seen
    ensures IsDiff(cur, latest, batch)
  {}

  lemma OpenOneMore(latest: map<string, Conn>, batch: seq<Event>, k: string, c: Conn)
    requires IsDiff(map[], latest, batch) && k !in latest
    ensures IsDiff(map[], latest[k := c], batch + [Opened(k, c)])
  {
    var batch' := batch + [Opened(k, c)];
    forall x | NeedsOpen(map[], latest[k := c], x) || NeedsClose(map[], latest[k := c], x)
      ensures Mentions(batch', x)
    {
      if x == k {
        assert batch'[|batch|].key == k;
      } else {
        assert Mentions(batch, x);
        var i :| 0 <= i < |batch| && batch[i].key == x;
        assert batch'[i].key == x;
      }
    }
    forall i | 0 <= i < |batch|
      ensures batch[i].key != k
    {
      assert Due(map[], latest, batch[i]);
    }
  }

  lemma CoversQuietly(cur: map<string, Conn>, latest: map<string, Conn>, batch: seq<Event>, seen: iset<string>,
                      k: string)
    requires Reconciler.Covers(cur, latest, batch, seen) && !NeedsOpen(cur, latest, k) && !NeedsClose(cur, latest, k)
    ensures Reconciler.Covers(cur, latest, batch, seen + iset{k})
  {}

  // ---------- the consumer ----------

  class LiveMonitorService {
    const options: Options
    const daemons: Daemons
    const resolve: Resolver
    var liveConnections: Table
    var totalNewEvents: nat

    /** Every row is under its own key and passes the filters that do not depend on other processes. */
    ghost predicate Valid()
      reads this, liveConnections.Values
    {
      TableShown(options, daemons, Values(liveConnections))
    }

    constructor (options: Options, daemons: Daemons, resolve: Resolver)
      ensures this.options == options && this.daemons == daemons && this.resolve == resolve
      ensures liveConnections == map[] && totalNewEvents == 0 && Valid()
    {
      this.options, this.daemons, this.resolve := options, daemons, resolve;
      liveConnections, totalNewEvents := map[], 0;
    }

    /** The record the consumer works with: the event's own object, or a rewritten copy of it. */
    method MakeConcrete(shared: NetworkConnection) returns (c: NetworkConnection)
      ensures c.View() == Concrete(resolve, shared.View())
      ensures if IsWildcard(shared.View()) then fresh(c) else c == shared
    {
      c := shared;
      if shared.identity.localAddress == "0.0.0.0" || shared.identity.localAddress == "::" {
        c := new NetworkConnection(Concrete(resolve, shared.View()));
      }
    }

    /** One turn of the consumer loop. The table changes as the decision says; the only object
        written to is the one already stored under the event's key, and only to refresh it. */
    method HandleEvent(opens: bool, shared: NetworkConnection, parentAnswer: bool)
      requires Valid()
      modifies this, liveConnections.Values
      ensures Valid()
      ensures Values(liveConnections) ==
              old(Delivered(options, daemons, resolve, Values(liveConnections), opens, shared.View(), parentAnswer))
      ensures liveConnections.Keys <= old(liveConnections.Keys) + {old(LiveKey(resolve, shared.View()))}
      ensures totalNewEvents == old(totalNewEvents) +
              (if old(Decide(options, daemons, parentAnswer, opens, Concrete(resolve, shared.View()))) == Pipeline.Store
               then 1 else 0)
    {
      ghost var before := Values(liveConnections);
      RowsAreDistinct(options, daemons, liveConnections);
      var connection := MakeConcrete(shared);
      var c := connection.View();
      DeliveredKeepsShown(options, daemons, resolve, before, opens, shared.View(), parentAnswer);
      Act(GetConnectionKey(c), connection, Decide(options, daemons, parentAnswer, opens, c));
    }

    method Act(key: string, connection: NetworkConnection, verdict: Pipeline.Verdict)
      requires forall k1, k2 :: k1 in liveConnections && k2 in liveConnections && k1 != k2
                                ==> liveConnections[k1] != liveConnections[k2]
      modifies this, liveConnections.Values
      ensures Values(liveConnections) == Applied(old(Values(liveConnections)), key, old(connection.View()), verdict)
      ensures liveConnections == match verdict
                                 case Remove => old(liveConnections) - {key}
                                 case Store => old(liveConnections)[key := connection]
                                 case Refresh => old(liveConnections)
      ensures totalNewEvents == old(totalNewEvents) + (if verdict.Store? then 1 else 0)
    {
      match verdict
      case Remove => liveConnections := liveConnections - {key};
      case Refresh => RefreshRow(key, connection);
      case Store =>
        PutOne(liveConnections, key, connection);
        liveConnections := liveConnections[key := connection];
        totalNewEvents := totalNewEvents + 1;
    }

    /** Overwrites the object already stored, if there is one; the table itself stays. */
    method RefreshRow(key: string, connection: NetworkConnection)
      requires forall k1, k2 :: k1 in liveConnections && k2 in liveConnections && k1 != k2
                                ==> liveConnections[k1] != liveConnections[k2]
      modifies liveConnections.Values
      ensures Values(liveConnections)
           == Applied(old(Values(liveConnections)), key, old(connection.View()), Pipeline.Refresh)
    {
      if key in liveConnections {
        var existing := liveConnections[key];
        existing.state, existing.capturedAt := connection.state, connection.capturedAt;
      }
    }

    /** One tick of the timer: exactly the expired rows go, and the caller learns whether any did. */
    method CleanUp(now: int, alive: int -> bool) returns (cleanedAny: bool)
      requires Valid()
      modifies this`liveConnections
      ensures Valid()
      ensures Values(liveConnections) == Swept(old(Values(liveConnections)), now, alive)
      ensures cleanedAny <==> Values(liveConnections) != old(Values(liveConnections))
      ensures RowsAfterTick(old(Values(liveConnections)), Values(liveConnections), now, alive)
    {
      SweptRows(Values(liveConnections), now, alive);
      SweptKeepsShown(options, daemons, Values(liveConnections), now, alive);
      cleanedAny := Sweep(now, alive);
    }

    /** The loop visits the entries there were when it started and removes expired ones as it goes. */
    method Sweep(now: int, alive: int -> bool) returns (cleanedAny: bool)
      modifies this`liveConnections
      ensures Values(liveConnections) == Swept(old(Values(liveConnections)), now, alive)
      ensures cleanedAny <==> Values(liveConnections) != old(Values(liveConnections))
      ensures RowsAfterTick(old(Values(liveConnections)), Values(liveConnections), now, alive)
    {
      cleanedAny := false;
      var snapshot := liveConnections;
      ghost var values := Values(snapshot);
      ghost var stale := set k | k in values && Expired(values[k], now, alive);
      var todo := snapshot.Keys;
      while todo != {}
        invariant todo <= snapshot.Keys && Values(snapshot) == values
        invariant liveConnections.Keys == snapshot.Keys - (stale - todo)
        invariant forall k :: k in liveConnections ==> liveConnections[k] == snapshot[k]
        invariant cleanedAny <==> stale - todo != {}
      {
        var k :| k in todo;
        assert snapshot[k].View() == Values(snapshot)[k] == values[k];
        if Expired(snapshot[k].View(), now, alive) {
          liveConnections := liveConnections - {k};
          cleanedAny := true;
        }
        todo := todo - {k};
      }
      SweptTable(snapshot, liveConnections, now, alive);
    }
  }

  lemma SweptTable(snapshot: Table, left: Table, now: int, alive: int -> bool)
    requires forall k :: k in left <==> k in snapshot && !Expired(Values(snapshot)[k], now, alive)
    requires forall k :: k in left ==> left[k] == snapshot[k]
    ensures Values(left) == Swept(Values(snapshot), now, alive)
    ensures left.Keys != snapshot.Keys <==> Values(left) != Values(snapshot)
    ensures RowsAfterTick(Values(snapshot), Values(left), now, alive)
  {
    SweptRows(Values(snapshot), now, alive);
    assert Values(left).Keys == left.Keys && Values(snapshot).Keys == snapshot.Keys;
    if left.Keys == snapshot.Keys {
      assert Values(left) == Values(snapshot);
    }
  }

  lemma SweptKeepsShown(options: Options, daemons: Daemons, table: map<string, Conn>, now: int, alive: int -> bool)
    requires TableShown(options, daemons, table)
    ensures TableShown(options, daemons, Swept(table, now, alive))
  {}

  lemma RowsAreDistinct(options: Options, daemons: Daemons, t: Table)
    requires TableShown(options, daemons, Values(t))
    ensures forall k1, k2 :: k1 in t && k2 in t && k1 != k2 ==> t[k1] != t[k2]
  {
    forall k1, k2 | k1 in t && k2 in t && k1 != k2
      ensures t[k1] != t[k2]
    {
      assert RowOk(options, daemons, k1, Values(t)[k1]) && RowOk(options, daemons, k2, Values(t)[k2]);
    }
  }
}
