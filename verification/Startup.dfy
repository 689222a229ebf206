/** Starting up while connections come and go: hooks first, then the ring consumer, then a scan that
    looks at different connections at different moments, and only then the kernel's log. */
module Startup {
  import opened Text

  datatype Op = Open(key: string) | Close(key: string)

  /** The connections that are open after `ops`, starting from none: the kernel's own view of its
      history, and equally what a listener believes after hearing these events. */
  function OpenKeys(ops: seq<Op>): set<string>
  {
    if ops == [] then {}
    else
      var before, last := OpenKeys(ops[..|ops| - 1]), ops[|ops| - 1];
      if last.Open? then before + {last.key} else before - {last.key}
  }

  /** The operation at `i` opens the connection, and nothing later is about it. */
  ghost predicate OpenedLast(ops: seq<Op>, k: string, i: int)
  {
    0 <= i < |ops| && ops[i] == Open(k) && forall j :: i < j < |ops| ==> ops[j].key != k
  }

  lemma OpenedLastSnoc(front: seq<Op>, last: Op, k: string, i: int)
    requires last.key != k
    ensures OpenedLast(front + [last], k, i) <==> OpenedLast(front, k, i)
  {
    var ops := front + [last];
    assert forall j :: 0 <= j < |front| ==> ops[j] == front[j];
    assert ops[|front|] == last;
  }

  /** A connection is open exactly when the last operation on it opened it. */
  lemma {:induction false} OpenIff(ops: seq<Op>, k: string)
    ensures k in OpenKeys(ops) <==> exists i :: OpenedLast(ops, k, i)
  {
    if ops != [] {
      var n := |ops| - 1;
      OpenIff(ops[..n], k);
      assert ops == ops[..n] + [ops[n]];
      if ops[n].key != k {
        forall i
          ensures OpenedLast(ops, k, i) <==> OpenedLast(ops[..n], k, i)
        {
          OpenedLastSnoc(ops[..n], ops[n], k, i);
        }
      } else if ops[n].Open? {
        assert OpenedLast(ops, k, n);
      }
    }
  }

  /** A ring buffer record. */
  datatype Record = Record(eventType: nat, key: string)

  const CONNECT := 1
  const ACCEPT := 2
  const CLOSE := 3
  const STATE := 4

  function ConvertToNetworkEvent(r: Record): Option<Op>
  {
    if r.eventType == CONNECT || r.eventType == ACCEPT || r.eventType == STATE then Some(Open(r.key))
    else if r.eventType == CLOSE then Some(Close(r.key))
    else None
  }

  function Just(op: Option<Op>): seq<Op> { if op.Some? then [op.value] else [] }

  /** What the hooks write for an operation of the kernel: an opened connection as a connect, an accept
      or a state record, a closed one as a close record; records of other types stand for nothing. */
  predicate LoggedAs(op: Option<Op>, r: Record)
  {
    match op
    case Some(Open(key)) => r.key == key && (r.eventType == 1 || r.eventType == 2 || r.eventType == 4)
    case Some(Close(key)) => r.key == key && r.eventType == 3
    case None => r.eventType == 0 || r.eventType > 4
  }

  /** What a listener hears of some records; the callback drops the unknown ones. */
  function Heard(records: seq<Record>): seq<Op>
  {
    if records == [] then []
    else
      var op := ConvertToNetworkEvent(records[|records| - 1]);
      Heard(records[..|records| - 1]) + if op.Some? then [op.value] else []
  }

  function Announced(snapshot: seq<string>): seq<Op>
  {
    seq(|snapshot|, i requires 0 <= i < |snapshot| => Open(snapshot[i]))
  }

  // ---------- the start-up machine ----------

  /** Something the kernel does, and the record a hook makes of it. */
  datatype Activity = Activity(op: Option<Op>, record: Record)

  /** Where the program is: before attaching, before creating the ring consumer, in the scan, writing
      the snapshot, polling, or handed over to the fallback. */
  datatype Pc = Loading | Loaded | Scanning | Writing | Polling | FellBack

  /** `ops` is what happened in the kernel and `log` what the hooks recorded of it; `read` records have
      been handed to the callback. `attachedAt`, `scanStart`, `scanEnd` and `seenAt` note how much had
      happened when the hooks were attached, the scan began and ended, and a connection was looked at. */
  datatype World = World(
    pc: Pc, ops: seq<Op>, hooked: bool, log: seq<Record>, read: nat, channel: seq<Op>,
    found: seq<string>, written: nat,
    attachedAt: nat, scanStart: nat, scanEnd: nat, seenAt: map<string, nat>)

  const INITIAL := World(Loading, [], false, [], 0, [], [], 0, 0, 0, 0, map[])

  datatype Step =
    | Happens(activity: Activity)      // in the kernel, at any moment
    | LoadAndAttach(ok: bool)
    | CreateRing(ok: bool)
    | Look(key: string)                // the scan reads the line where this connection would be
    | EndScan
    | WriteOne
    | PollOne

  function HappensNext(w: World, a: Activity): World
  {
    if !LoggedAs(a.op, a.record) then w
    else w.(ops := w.ops + Just(a.op), log := if w.hooked then w.log + [a.record] else w.log)
  }

  function LookNext(w: World, key: string): World
  {
    w.(seenAt := w.seenAt[key := |w.ops|], found := if key in OpenKeys(w.ops) then w.found + [key] else w.found)
  }

  function PollNext(w: World): World
    requires w.read < |w.log|
  {
    w.(read := w.read + 1, channel := w.channel + Heard([w.log[w.read]]))
  }

  /** One step; a program step out of its turn does nothing. */
  function Next(w: World, s: Step): World
  {
    match s
    case Happens(a) => HappensNext(w, a)
    case LoadAndAttach(ok) =>
      if w.pc != Loading then w
      else if ok then w.(pc := Loaded, hooked := true, attachedAt := |w.ops|) else w.(pc := FellBack)
    case CreateRing(ok) =>
      if w.pc != Loaded then w else if ok then w.(pc := Scanning, scanStart := |w.ops|) else w.(pc := FellBack)
    case Look(key) => if w.pc != Scanning || key in w.seenAt then w else LookNext(w, key)
    case EndScan => if w.pc != Scanning then w else w.(pc := Writing, scanEnd := |w.ops|)
    case WriteOne =>
      if w.pc != Writing then w
      else if w.written < |w.found| then w.(written := w.written + 1, channel := w.channel + [Open(w.found[w.written])])
      else w.(pc := Polling)
    case PollOne => if w.pc != Polling || w.read >= |w.log| then w else PollNext(w)
  }

  function Run(steps: seq<Step>): World
  {
    if steps == [] then INITIAL else Next(Run(steps[..|steps| - 1]), steps[|steps| - 1])
  }

  // ---------- what every run keeps ----------

  predicate Started(w: World) { w.pc == Scanning || w.pc == Writing || w.pc == Polling }

  /** Hooks first: everything that happened since they were attached is in the log, and the scan and
      each of its looks came later. */
  ghost predicate OrderOk(w: World)
  {
    && (w.hooked ==> w.attachedAt <= |w.ops| && Heard(w.log) == w.ops[w.attachedAt..])
    && (!w.hooked ==> w.log == [])
    && (w.pc == Loading ==> !w.hooked) && (w.pc == Loaded || Started(w) ==> w.hooked)
    && (Started(w) ==> w.attachedAt <= w.scanStart <= |w.ops|)
    && (w.pc == Writing || w.pc == Polling ==> w.scanStart <= w.scanEnd <= |w.ops|)
  }

  ghost predicate SeenOk(w: World, k: string, n: nat)
  {
    && w.scanStart <= n <= (if w.pc == Scanning then |w.ops| else w.scanEnd)
    && n <= |w.ops|
    && (k in w.found <==> k in OpenKeys(w.ops[..n]))
  }

  ghost predicate ScanOk(w: World)
  {
    && (!Started(w) ==> w.seenAt == map[] && w.found == [])
    && (Started(w) ==> forall k :: k in w.seenAt ==> SeenOk(w, k, w.seenAt[k]))
    && (forall k :: k in w.found ==> k in w.seenAt)
  }

  ghost predicate ChannelOk(w: World)
  {
    && w.read <= |w.log| && w.written <= |w.found|
    && w.channel == (if w.pc == Polling then Announced(w.found) + Heard(w.log[..w.read])
                     else if w.pc == Writing then Announced(w.found)[..w.written] else [])
    && (w.pc != Polling ==> w.read == 0) && (w.pc != Writing && w.pc != Polling ==> w.written == 0)
    && (w.pc == Polling ==> w.written == |w.found|)
  }

  ghost predicate Inv(w: World) { OrderOk(w) && ScanOk(w) && ChannelOk(w) }

  lemma HeardOne(r: Record)
    ensures var op := ConvertToNetworkEvent(r); Heard([r]) == if op.Some? then [op.value] else []
  {
    assert [r][..0] == [] && Heard([]) == [];
  }

  /** The callback makes of a record what the hook meant by it. */
  lemma HeardAsMeant(op: Option<Op>, r: Record)
    requires LoggedAs(op, r)
    ensures Heard([r]) == Just(op)
  {
    HeardOne(r);
  }

  lemma HeardSnoc(records: seq<Record>, r: Record)
    ensures Heard(records + [r]) == Heard(records) + Heard([r])
  {
    assert (records + [r])[..|records|] == records && [r][..0] == [];
    assert Heard([]) == [] && Heard([r]) == [] + Heard([r]);
  }

  lemma {:induction false} HeardConcat(a: seq<Record>, b: seq<Record>)
    ensures Heard(a + b) == Heard(a) + Heard(b)
  {
    if b == [] {
      assert a + b == a;
    } else {
      var n := |b| - 1;
      assert (a + b)[..|a| + n] == a + b[..n];
      HeardConcat(a, b[..n]);
    }
  }

  lemma HappensKeepsOrder(w: World, a: Activity)
    requires OrderOk(w) && LoggedAs(a.op, a.record)
    ensures OrderOk(HappensNext(w, a))
  {
    if w.hooked {
      HeardSnoc(w.log, a.record);
      HeardAsMeant(a.op, a.record);
      assert (w.ops + Just(a.op))[w.attachedAt..] == w.ops[w.attachedAt..] + Just(a.op);
    }
  }

  lemma HappensKeepsScan(w: World, a: Activity)
    requires OrderOk(w) && ScanOk(w) && LoggedAs(a.op, a.record)
    ensures ScanOk(HappensNext(w, a))
  {
    var q := HappensNext(w, a);
    forall k | Started(w) && k in w.seenAt
      ensures SeenOk(q, k, w.seenAt[k])
    {
      assert SeenOk(w, k, w.seenAt[k]);
      assert q.ops[..w.seenAt[k]] == w.ops[..w.seenAt[k]];
    }
  }

  lemma HappensKeepsInv(w: World, a: Activity)
    requires Inv(w)
    ensures Inv(HappensNext(w, a))
  {
    if LoggedAs(a.op, a.record) {
      HappensKeepsOrder(w, a);
      HappensKeepsScan(w, a);
      assert w.hooked ==> (w.log + [a.record])[..w.read] == w.log[..w.read];
    }
  }

  lemma LookKeepsInv(w: World, key: string)
    requires Inv(w) && w.pc == Scanning && key !in w.seenAt
    ensures Inv(LookNext(w, key))
  {
    var q := LookNext(w, key);
    assert w.ops[..|w.ops|] == w.ops;
    forall k | k in q.seenAt
      ensures SeenOk(q, k, q.seenAt[k])
    {
      if k != key { assert SeenOk(w, k, w.seenAt[k]); }
    }
  }

  lemma WriteKeepsInv(w: World)
    requires Inv(w) && w.pc == Writing
    ensures Inv(Next(w, WriteOne))
  {
    SameScan(w, Next(w, WriteOne));
    assert Announced(w.found)[..|w.found|] == Announced(w.found);
    assert Heard(w.log[..0]) == [];
  }

  /** Steps after the scan leave what it saw alone. */
  lemma SameScan(w: World, q: World)
    requires ScanOk(w) && Started(w) && Started(q) && w.pc != Scanning && q.pc != Scanning
    requires q.ops == w.ops && q.seenAt == w.seenAt && q.found == w.found
    requires q.scanStart == w.scanStart && q.scanEnd == w.scanEnd
    ensures ScanOk(q)
  {
    forall k | k in w.seenAt
      ensures SeenOk(q, k, w.seenAt[k])
    {
      assert SeenOk(w, k, w.seenAt[k]);
    }
  }

  lemma HeardUpTo(log: seq<Record>, n: nat)
    requires n < |log|
    ensures Heard(log[..n + 1]) == Heard(log[..n]) + Heard([log[n]])
  {
    HeardSnoc(log[..n], log[n]);
    assert log[..n + 1] == log[..n] + [log[n]];
  }

  lemma PollKeepsChannel(w: World)
    requires ChannelOk(w) && w.pc == Polling && w.read < |w.log|
    ensures ChannelOk(PollNext(w))
  {
    HeardUpTo(w.log, w.read);
    Regroup(Announced(w.found), Heard(w.log[..w.read]), Heard([w.log[w.read]]));
  }

  lemma Regroup(a: seq<Op>, b: seq<Op>, c: seq<Op>)
    ensures a + b + c == a + (b + c)
  {}

  lemma PollKeepsInv(w: World)
    requires Inv(w) && w.pc == Polling && w.read < |w.log|
    ensures Inv(PollNext(w))
  {
    PollKeepsChannel(w);
    SameScan(w, PollNext(w));
  }

  lemma EndScanKeepsInv(w: World)
    requires Inv(w) && w.pc == Scanning
    ensures Inv(Next(w, EndScan))
  {
    var q := Next(w, EndScan);
    forall k | k in w.seenAt
      ensures SeenOk(q, k, w.seenAt[k])
    {
      assert SeenOk(w, k, w.seenAt[k]);
    }
  }

  lemma AttachKeepsInv(w: World, ok: bool)
    requires Inv(w)
    ensures Inv(Next(w, LoadAndAttach(ok))) && Inv(Next(w, CreateRing(ok)))
  {
    assert w.ops[|w.ops|..] == [];
  }

  lemma NextKeepsInv(w: World, s: Step)
    requires Inv(w)
    ensures Inv(Next(w, s))
  {
    match s
    case Happens(a) => HappensKeepsInv(w, a);
    case LoadAndAttach(ok) => AttachKeepsInv(w, ok);
    case CreateRing(ok) => AttachKeepsInv(w, ok);
    case Look(key) => if w.pc == Scanning && key !in w.seenAt { LookKeepsInv(w, key); }
    case EndScan => if w.pc == Scanning { EndScanKeepsInv(w); }
    case WriteOne => if w.pc == Writing { WriteKeepsInv(w); }
    case PollOne => if w.pc == Polling && w.read < |w.log| { PollKeepsInv(w); }
  }

  lemma {:induction false} RunKeepsInv(steps: seq<Step>)
    ensures Inv(Run(steps))
  {
    if steps != [] {
      RunKeepsInv(steps[..|steps| - 1]);
      NextKeepsInv(Run(steps[..|steps| - 1]), steps[|steps| - 1]);
    }
  }

  // ---------- convergence ----------

  /** A connection the scan never looked at was closed at some moment of the scan: it had no line to read. */
  ghost predicate NothingOverlooked(w: World)
  {
    forall k :: k !in w.seenAt ==> exists n :: AbsentAt(w, k, n)
  }

  ghost predicate AbsentAt(w: World, k: string, n: nat)
  {
    w.scanStart <= n <= w.scanEnd && n <= |w.ops| && k !in OpenKeys(w.ops[..n])
  }

  /** The moment at which the scan's answer about a connection was true. */
  ghost function Moment(w: World, k: string): (n: nat)
    requires Inv(w) && w.pc == Polling && NothingOverlooked(w)
    ensures w.attachedAt <= n <= |w.ops| && (k in w.found <==> k in OpenKeys(w.ops[..n]))
  {
    if k in w.seenAt then
      assert SeenOk(w, k, w.seenAt[k]);
      w.seenAt[k]
    else
      var n :| AbsentAt(w, k, n);
      n
  }

  lemma HeardInTwo(log: seq<Record>, n: nat)
    requires n <= |log|
    ensures Heard(log) == Heard(log[..n]) + Heard(log[n..])
  {
    HeardConcat(log[..n], log[n..]);
    assert log == log[..n] + log[n..];
  }

  lemma HeardAndWaiting(w: World)
    requires OrderOk(w) && ChannelOk(w) && w.pc == Polling
    ensures w.channel + Heard(w.log[w.read..]) == Announced(w.found) + w.ops[w.attachedAt..]
  {
    HeardInTwo(w.log, w.read);
    Regroup(Announced(w.found), Heard(w.log[..w.read]), Heard(w.log[w.read..]));
  }

  ghost function Moments(w: World): string -> nat
    requires Inv(w) && w.pc == Polling && NothingOverlooked(w)
  {
    (k: string) => if Inv(w) && w.pc == Polling && NothingOverlooked(w) then Moment(w, k) else 0
  }

  /** While polling, what the listener has heard together with what waits in the ring buffer adds up to
      the kernel's open connections. */
  lemma PollingConverges(w: World)
    requires Inv(w) && w.pc == Polling && NothingOverlooked(w)
    ensures w.read <= |w.log| && OpenKeys(w.channel + Heard(w.log[w.read..])) == OpenKeys(w.ops)
  {
    var f := Moments(w);
    assert forall k :: f(k) == Moment(w, k);
    HeardAndWaiting(w);
    SnapshotPlusLog(w.ops, w.attachedAt, f, w.found, |w.ops|);
    assert w.ops[w.attachedAt..|w.ops|] == w.ops[w.attachedAt..] && w.ops[..|w.ops|] == w.ops;
  }

  /** The scan reports exactly the connections that were open when it looked at them. */
  ghost predicate FuzzyScan(ops: seq<Op>, seenAt: string -> nat, snapshot: seq<string>)
  {
    && (forall k :: seenAt(k) <= |ops|)
    && (forall k :: k in snapshot <==> seenAt(k) <= |ops| && k in OpenKeys(ops[..seenAt(k)]))
  }

  // ---------- why it converges ----------

  predicate Touches(ops: seq<Op>, k: string) { exists i :: 0 <= i < |ops| && ops[i].key == k }

  /** Operations on other keys leave a key as it was. */
  lemma {:induction false} UntouchedStays(a: seq<Op>, b: seq<Op>, k: string)
    requires !Touches(b, k)
    ensures k in OpenKeys(a + b) <==> k in OpenKeys(a)
  {
    if b == [] {
      assert a + b == a;
    } else {
      var n := |b| - 1;
      assert (a + b)[..|a + b| - 1] == a + b[..n];
      assert b[n].key != k;
      forall i | 0 <= i < n
        ensures b[..n][i].key != k
      {
        assert b[i].key != k;
      }
      UntouchedStays(a, b[..n], k);
    }
  }

  /** Operations on a key decide about it, whatever was believed before. */
  lemma {:induction false} TouchedForgets(a: seq<Op>, a': seq<Op>, b: seq<Op>, k: string)
    requires Touches(b, k)
    ensures k in OpenKeys(a + b) <==> k in OpenKeys(a' + b)
  {
    var n := |b| - 1;
    assert (a + b)[..|a + b| - 1] == a + b[..n] && (a' + b)[..|a' + b| - 1] == a' + b[..n];
    if b[n].key != k {
      var i :| 0 <= i < |b| && b[i].key == k;
      assert b[..n][i].key == k;
      TouchedForgets(a, a', b[..n], k);
    }
  }

  lemma {:induction false} AnnouncedKeys(snapshot: seq<string>)
    ensures forall k :: k in OpenKeys(Announced(snapshot)) <==> k in snapshot
  {
    if snapshot != [] {
      var n := |snapshot| - 1;
      AnnouncedKeys(snapshot[..n]);
      assert Announced(snapshot)[..n] == Announced(snapshot[..n]);
    }
  }

  /** From the end of the scan on, the listener agrees with the kernel after every single record. */
  lemma SnapshotPlusLog(ops: seq<Op>, attachedAt: nat, seenAt: string -> nat, snapshot: seq<string>, drained: nat)
    requires attachedAt <= drained <= |ops| && FuzzyScan(ops, seenAt, snapshot)
    requires forall k :: attachedAt <= seenAt(k) <= drained
    ensures OpenKeys(Announced(snapshot) + ops[attachedAt..drained]) == OpenKeys(ops[..drained])
  {
    var log := ops[attachedAt..drained];
    AnnouncedKeys(snapshot);
    assert ops[..drained] == ops[..attachedAt] + log;
    forall k: string
      ensures k in OpenKeys(Announced(snapshot) + log) <==> k in OpenKeys(ops[..drained])
    {
      if Touches(log, k) {
        TouchedForgets(Announced(snapshot), ops[..attachedAt], log, k);
      } else {
        UntouchedStays(Announced(snapshot), log, k);
        UntouchedStays(ops[..attachedAt], log, k);
        var early := ops[attachedAt..seenAt(k)];
        assert ops[..seenAt(k)] == ops[..attachedAt] + early;
        forall i | 0 <= i < |early|
          ensures early[i].key != k
        {
          assert log[i].key != k;
        }
        UntouchedStays(ops[..attachedAt], early, k);
      }
    }
  }

  // ---------- the order of the phases is necessary ----------

  ghost predicate AlwaysConverges(attachedAt: nat, seenAt: string -> nat, scanEnd: nat)
  {
    forall ops, snapshot, drained ::
      attachedAt <= drained && scanEnd <= drained <= |ops| && FuzzyScan(ops, seenAt, snapshot)
      ==> OpenKeys(Announced(snapshot) + ops[attachedAt..drained]) == OpenKeys(ops[..drained])
  }

  /** `k` opens right after the scan has looked at it; all other operations are about another key. */
  function MissedOpen(k: string, at: nat, n: nat): seq<Op> { seq(n, i => if i == at then Open(k) else Close(k + "'")) }

  lemma {:induction false} MissedOpenKeys(k: string, at: nat, n: nat, m: nat)
    requires m <= n
    ensures OpenKeys(MissedOpen(k, at, n)[..m]) == if at < m then {k} else {}
  {
    if m > 0 {
      MissedOpenKeys(k, at, n, m - 1);
      assert MissedOpen(k, at, n)[..m][..m - 1] == MissedOpen(k, at, n)[..m - 1];
      assert |k + "'"| != |k|;
    }
  }

  lemma MissedOpenDiverges(k: string, attachedAt: nat, seenAt: string -> nat, scanEnd: nat)
    requires (forall x :: seenAt(x) <= scanEnd) && seenAt(k) < attachedAt
    ensures !AlwaysConverges(attachedAt, seenAt, scanEnd)
  {
    var n := if attachedAt <= scanEnd then scanEnd else attachedAt;
    var at, ops := seenAt(k), MissedOpen(k, seenAt(k), n);
    forall x: string
      ensures x !in OpenKeys(ops[..seenAt(x)])
    {
      MissedOpenKeys(k, at, n, seenAt(x));
    }
    assert FuzzyScan(ops, seenAt, []);
    MissedOpenKeys(k, at, n, n);
    var log := ops[attachedAt..n];
    assert Announced([]) + log == [] + log;
    forall i | 0 <= i < |log|
      ensures log[i].key != k
    {
      assert |k + "'"| != |k|;
    }
    UntouchedStays([], log, k);
    assert ops[..n] == ops;
  }

  /** Whatever the operations, the listener converges, if and only if no connection is looked at
      before the hooks are attached. */
  lemma ConvergesIffAttachedFirst(attachedAt: nat, seenAt: string -> nat, scanEnd: nat)
    requires forall k :: seenAt(k) <= scanEnd
    ensures AlwaysConverges(attachedAt, seenAt, scanEnd) <==> forall k :: attachedAt <= seenAt(k)
  {
    if forall k :: attachedAt <= seenAt(k) {
      forall ops, snapshot, drained |
        attachedAt <= drained && scanEnd <= drained <= |ops| && FuzzyScan(ops, seenAt, snapshot)
        ensures OpenKeys(Announced(snapshot) + ops[attachedAt..drained]) == OpenKeys(ops[..drained])
      {
        SnapshotPlusLog(ops, attachedAt, seenAt, snapshot, drained);
      }
    } else {
      var k :| seenAt(k) < attachedAt;
      MissedOpenDiverges(k, attachedAt, seenAt, scanEnd);
    }
  }

  /** Handing over one record: the oldest leaves the buffer, and what it says is written. */
  lemma PolledOne(w: World)
    requires w.pc == Polling && w.read < |w.log|
    ensures var q, waiting := PollNext(w), w.log[w.read..];
            var op := ConvertToNetworkEvent(waiting[0]);
            && Next(w, PollOne) == q && q.pc == Polling && q.ops == w.ops && q.hooked == w.hooked
            && q.channel == w.channel + (if op.Some? then [op.value] else [])
            && q.log[q.read..] == waiting[1..]
  {
    HeardOne(w.log[w.read]);
  }

  /** What is written while the first `n` records are handed over. */
  function AfterPolls(channel: seq<Op>, records: seq<Record>, n: nat): seq<Op>
    requires n <= |records|
  {
    if n == 0 then channel else AfterPolls(channel, records, n - 1) + Heard([records[n - 1]])
  }

  lemma {:induction false} AfterPollsIsHeard(channel: seq<Op>, records: seq<Record>, n: nat)
    requires n <= |records|
    ensures AfterPolls(channel, records, n) == channel + Heard(records[..n])
  {
    if n == 0 {
      assert Heard(records[..0]) == [];
    } else {
      var m := n - 1;
      AfterPollsIsHeard(channel, records, m);
      HeardUpTo(records, m);
      Regroup(channel, Heard(records[..m]), Heard([records[m]]));
    }
  }

  lemma DropOldest(records: seq<Record>, n: nat)
    requires n < |records|
    ensures records[n..][0] == records[n] && records[n..][1..] == records[n + 1..]
  {}

  /** What the kernel does is recorded, if the hooks are attached. */
  lemma HappenedOne(w: World, a: Activity)
    requires w.read <= |w.log| && LoggedAs(a.op, a.record)
    ensures var q := HappensNext(w, a);
            && Next(w, Happens(a)) == q && q.pc == w.pc && q.channel == w.channel && q.hooked == w.hooked
            && q.ops == w.ops + Just(a.op)
            && q.log[q.read..] == w.log[w.read..] + (if w.hooked then [a.record] else [])
  {}

  /** What a polling program has written and not yet read makes up the kernel's open connections. */
  ghost predicate Converged(w: World)
  {
    && w.read <= |w.log|
    && OpenKeys(w.channel + Heard(w.log[w.read..])) == OpenKeys(w.ops)
    && (w.read == |w.log| ==> OpenKeys(w.channel) == OpenKeys(w.ops))
  }

  lemma PollingIsConverged(w: World)
    requires Inv(w) && w.pc == Polling
    ensures NothingOverlooked(w) ==> Converged(w)
  {
    if NothingOverlooked(w) {
      PollingConverges(w);
      assert w.read == |w.log| ==> w.log[w.read..] == [] && w.channel + [] == w.channel;
    }
  }

  /** For every interleaving of kernel activity with the program's phases: while polling, what the
      listener has heard and what waits in the ring buffer add up to the kernel's open connections, so
      once the buffer is drained the listener has exactly those, wherever opens and closes fell around
      attaching, scanning, writing and polling. */
  lemma StartupConverges(steps: seq<Step>)
    ensures var w := Run(steps); w.pc == Polling && NothingOverlooked(w) ==> Converged(w)
    ensures Run(steps).pc == FellBack ==> Run(steps).channel == []
  {
    RunKeepsInv(steps);
    if Run(steps).pc == Polling { PollingIsConverged(Run(steps)); }
  }

  ghost predicate Reachable(w: World) { exists steps :: Run(steps) == w }

  lemma StillReachable(w: World, s: Step)
    requires Reachable(w)
    ensures Reachable(Next(w, s))
  {
    var steps :| Run(steps) == w;
    assert (steps + [s])[..|steps|] == steps;
    assert Run(steps + [s]) == Next(w, s);
  }

  lemma ReachableKeepsInv(w: World)
    requires Reachable(w)
    ensures Inv(w)
  {
    var steps :| Run(steps) == w;
    RunKeepsInv(steps);
  }

  // ---------- the poll loop itself ----------

  /** What the surroundings do while the loop runs: kernel activity before each of its actions, the
      outcome of each call, and what the scan looks at. */
  datatype Script = Script(
    beforeAttach: seq<Activity>, attached: bool,
    beforeRing: seq<Activity>, mapFound: bool, mapFd: int, ringCreated: bool,
    scan: seq<ScanStep>, beforeWrites: seq<seq<Activity>>, polls: seq<Poll>)

  datatype ScanStep = LooksAt(key: string) | Meanwhile(activity: Activity)

  /** Kernel activity, then a poll that hands over at most `limit` records. */
  datatype Poll = Poll(before: seq<Activity>, limit: nat)

  class EbpfNetworkEventSource {
    // the kernel's side
    var ops: seq<Op>
    var hooked: bool
    var ring: seq<Record>              // records not yet consumed
    // the program's side
    var isEbpfActive: bool
    var channel: seq<Op>
    ghost var world: World

    /** The fields are what some run of the machine leads to. */
    ghost predicate Valid()
      reads this
    {
      && Reachable(world) && world.read <= |world.log|
      && ops == world.ops && hooked == world.hooked && ring == world.log[world.read..]
      && channel == world.channel && isEbpfActive == Started(world)
    }

    constructor ()
      ensures Valid() && world == INITIAL
    {
      ops, hooked, ring, isEbpfActive, channel, world := [], false, [], false, [], INITIAL;
      assert Run([]) == INITIAL;
    }

    /** The kernel does something; a hook, once attached, records it. */
    method Happen(a: Activity)
      requires Valid()
      modifies this
      ensures Valid() && world == Next(old(world), Happens(a))
    {
      StillReachable(world, Happens(a));
      if LoggedAs(a.op, a.record) {
        HappenedOne(world, a);
        ops := ops + Just(a.op);
        if hooked { ring := ring + [a.record]; }
      }
      world := Next(world, Happens(a));
    }

    method HappenAll(activities: seq<Activity>)
      requires Valid()
      modifies this
      ensures Valid() && world == old(world).(ops := world.ops, log := world.log)
    {
      for i := 0 to |activities|
        invariant Valid() && world == old(world).(ops := world.ops, log := world.log)
      {
        Happen(activities[i]);
      }
    }

    method LoadAndAttachEbpfProgram(ok: bool)
      requires Valid() && world.pc == Loading
      modifies this
      ensures Valid() && world == Next(old(world), LoadAndAttach(ok))
    {
      StillReachable(world, LoadAndAttach(ok));
      if ok { hooked := true; }
      world := Next(world, LoadAndAttach(ok));
    }

    method CreateRingBuffer(mapFound: bool, mapFd: int, created: bool)
      requires Valid() && world.pc == Loaded
      modifies this
      ensures Valid() && world == Next(old(world), CreateRing(mapFound && mapFd >= 0 && created))
    {
      var ok := mapFound && mapFd >= 0 && created;
      StillReachable(world, CreateRing(ok));
      isEbpfActive := ok;
      world := Next(world, CreateRing(ok));
    }

    /** The scan reads its tables line by line while the kernel goes on. */
    method Scan(schedule: seq<ScanStep>) returns (snapshot: seq<string>)
      requires Valid() && world.pc == Scanning && world.seenAt == map[] && world.found == [] && world.written == 0
      modifies this
      ensures Valid() && world.pc == Writing && world.written == 0 && snapshot == world.found
    {
      snapshot := [];
      var looked: set<string> := {};
      for i := 0 to |schedule|
        invariant Valid() && world.pc == Scanning && world.written == 0
        invariant snapshot == world.found && looked == world.seenAt.Keys
      {
        match schedule[i]
        case Meanwhile(a) => Happen(a);
        case LooksAt(key) =>
          if key !in looked {
            StillReachable(world, Look(key));
            looked := looked + {key};
            if key in OpenKeys(ops) { snapshot := snapshot + [key]; }
            world := Next(world, Look(key));
          }
      }
      StillReachable(world, EndScan);
      world := Next(world, EndScan);
    }

    /** The snapshot is written one connection at a time. */
    method WriteSnapshot(snapshot: seq<string>, beforeWrites: seq<seq<Activity>>)
      requires Valid() && world.pc == Writing && world.written == 0 && snapshot == world.found
      modifies this
      ensures Valid() && world.pc == Polling
    {
      for i := 0 to |snapshot|
        invariant Valid() && world.pc == Writing && world.written == i && snapshot == world.found
      {
        if i < |beforeWrites| { HappenAll(beforeWrites[i]); }
        StillReachable(world, WriteOne);
        channel := channel + [Open(snapshot[i])];
        world := Next(world, WriteOne);
      }
      StillReachable(world, WriteOne);
      world := Next(world, WriteOne);
    }

    /** One call of ring_buffer__poll: the callback gets the oldest records in turn, at most `limit` of
        them, and what they say is written in the same order. */
    method PollRingBuffer(limit: nat)
      requires Valid() && world.pc == Polling
      modifies this
      ensures Valid() && world.pc == Polling
      ensures var n := if limit < |old(ring)| then limit else |old(ring)|;
              ring == old(ring)[n..] && channel == old(channel) + Heard(old(ring)[..n])
    {
      var n := if limit < |ring| then limit else |ring|;
      ghost var records, before := ring, channel;
      for i := 0 to n
        invariant Valid() && world.pc == Polling
        invariant ring == records[i..] && channel == AfterPolls(before, records, i)
      {
        DropOldest(records, i);
        HandleEbpfEvent();
      }
      AfterPollsIsHeard(before, records, n);
    }

    /** The callback: converts the oldest record and writes it to the channel, or drops it. */
    method HandleEbpfEvent()
      requires Valid() && world.pc == Polling && ring != []
      modifies this
      ensures Valid() && world.pc == Polling
      ensures ring == old(ring)[1..] && channel == old(channel) + Heard([old(ring)[0]])
      ensures forall op :: LoggedAs(op, old(ring)[0]) ==> channel == old(channel) + Just(op)
    {
      forall op | LoggedAs(op, ring[0])
        ensures Heard([ring[0]]) == Just(op)
      {
        HeardAsMeant(op, ring[0]);
      }
      HeardOne(ring[0]);
      PolledOne(world);
      StillReachable(world, PollOne);
      var op := ConvertToNetworkEvent(ring[0]);
      if op.Some? { channel := channel + [op.value]; }
      ring := ring[1..];
      world := Next(world, PollOne);
    }

    /** The loop around it, with whatever the kernel does in between. */
    method PollAll(polls: seq<Poll>)
      requires Valid() && world.pc == Polling
      modifies this
      ensures Valid() && world.pc == Polling
    {
      for i := 0 to |polls|
        invariant Valid() && world.pc == Polling
      {
        HappenAll(polls[i].before);
        PollRingBuffer(polls[i].limit);
      }
    }

    /** The phases in the order of the code. If a step before the scan fails the loop writes nothing
        itself. Otherwise what it has written, with what waits in the ring buffer, adds up to the
        kernel's open connections, and once the buffer is empty it is the whole of them. */
    method EbpfPollLoop(script: Script)
      requires Valid() && world == INITIAL
      modifies this
      ensures Valid()
      ensures isEbpfActive <==> script.attached && script.mapFound && script.mapFd >= 0 && script.ringCreated
      ensures !isEbpfActive ==> channel == []
      ensures isEbpfActive && NothingOverlooked(world) ==>
                OpenKeys(channel + Heard(ring)) == OpenKeys(ops) && (ring == [] ==> OpenKeys(channel) == OpenKeys(ops))
    {
      HappenAll(script.beforeAttach);
      LoadAndAttachEbpfProgram(script.attached);
      if !script.attached { return; }
      HappenAll(script.beforeRing);
      CreateRingBuffer(script.mapFound, script.mapFd, script.ringCreated);
      ReachableKeepsInv(world);
      if !isEbpfActive { return; }
      var snapshot := Scan(script.scan);
      WriteSnapshot(snapshot, script.beforeWrites);
      PollAll(script.polls);
      ReachableKeepsInv(world);
      PollingIsConverged(world);
    }
  }
}
