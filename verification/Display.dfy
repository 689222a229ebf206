/** What the screen shows of the live table: one row per protocol, remote address and process, no
    anonymous row beside a named one, sorted, and cut to the height of the window. */
module Display {
  import opened Connections

  const UNKNOWN := "Unknown"

  // ---------- reduction ----------

  predicate SameGroup(a: Conn, b: Conn) {
    a.protocol == b.protocol && a.remoteAddress == b.remoteAddress && a.processName == b.processName
  }

  predicate HasGroup(rows: seq<Conn>, c: Conn) { exists i :: 0 <= i < |rows| && SameGroup(rows[i], c) }

  /** GroupBy and First: a connection stays if no earlier one is of its group. */
  function FirstOfEach(conns: seq<Conn>): seq<Conn>
  {
    if conns == [] then []
    else
      var kept, last := FirstOfEach(conns[..|conns| - 1]), conns[|conns| - 1];
      if HasGroup(kept, last) then kept else kept + [last]
  }

  predicate Known(c: Conn) { c.processName != UNKNOWN && c.processId > 0 }

  predicate KnownRemote(conns: seq<Conn>, remote: string) {
    exists i :: 0 <= i < |conns| && Known(conns[i]) && conns[i].remoteAddress == remote
  }

  predicate Shadowed(conns: seq<Conn>, c: Conn) { c.processName == UNKNOWN && KnownRemote(conns, c.remoteAddress) }

  function Unshadowed(all: seq<Conn>, conns: seq<Conn>): seq<Conn>
  {
    if conns == [] then []
    else
      var kept, last := Unshadowed(all, conns[..|conns| - 1]), conns[|conns| - 1];
      if Shadowed(all, last) then kept else kept + [last]
  }

  function Reduced(conns: seq<Conn>): seq<Conn> { Unshadowed(FirstOfEach(conns), FirstOfEach(conns)) }

  // ---------- what the reduction keeps ----------

  predicate OnePerGroup(conns: seq<Conn>) {
    forall i, j :: 0 <= i < j < |conns| ==> !SameGroup(conns[i], conns[j])
  }

  /** Every connection has a row for its group, and every row is one of the connections. */
  ghost predicate Represents(rows: seq<Conn>, conns: seq<Conn>) {
    && (forall r :: r in rows ==> r in conns)
    && (forall c :: c in conns ==> HasGroup(rows, c))
  }

  lemma {:induction false} FirstOfEachIsSound(conns: seq<Conn>)
    ensures OnePerGroup(FirstOfEach(conns)) && Represents(FirstOfEach(conns), conns)
  {
    if conns != [] {
      var before, last := conns[..|conns| - 1], conns[|conns| - 1];
      FirstOfEachIsSound(before);
      assert conns == before + [last];
      var kept, rows := FirstOfEach(before), FirstOfEach(conns);
      assert kept <= rows;
      forall c | c in conns ensures HasGroup(rows, c) {
        if c in before {
          var i :| 0 <= i < |kept| && SameGroup(kept[i], c);
          assert rows[i] == kept[i];
        } else if rows != kept {
          assert SameGroup(rows[|kept|], c);
        }
      }
    }
  }

  lemma {:induction false} UnshadowedIsSound(all: seq<Conn>, conns: seq<Conn>)
    ensures forall c :: c in Unshadowed(all, conns) <==> c in conns && !Shadowed(all, c)
    ensures OnePerGroup(conns) ==> OnePerGroup(Unshadowed(all, conns))
  {
    if conns != [] {
      var before, last := conns[..|conns| - 1], conns[|conns| - 1];
      UnshadowedIsSound(all, before);
      assert conns == before + [last];
      if OnePerGroup(conns) {
        var kept := Unshadowed(all, before);
        forall i | 0 <= i < |kept| ensures !SameGroup(kept[i], last) {
          assert kept[i] in kept;
          var j :| 0 <= j < |before| && before[j] == kept[i];
          assert conns[j] == before[j];
        }
      }
    }
  }

  lemma RowFor(conns: seq<Conn>, c: Conn) returns (r: Conn)
    requires c in conns
    ensures r in Reduced(conns) && r.remoteAddress == c.remoteAddress && (c.processName != UNKNOWN ==> SameGroup(r, c))
  {
    var rows := FirstOfEach(conns);
    FirstOfEachIsSound(conns);
    UnshadowedIsSound(rows, rows);
    var i :| 0 <= i < |rows| && SameGroup(rows[i], c);
    if Shadowed(rows, rows[i]) {
      var k :| 0 <= k < |rows| && Known(rows[k]) && rows[k].remoteAddress == rows[i].remoteAddress;
      r := rows[k];
    } else {
      r := rows[i];
    }
    assert r in rows;
  }

  lemma FewerShadows(some: seq<Conn>, all: seq<Conn>, c: Conn)
    requires (forall r :: r in some ==> r in all) && Shadowed(some, c)
    ensures Shadowed(all, c)
  {
    var k :| 0 <= k < |some| && Known(some[k]) && some[k].remoteAddress == c.remoteAddress;
    assert some[k] in some;
    var j :| 0 <= j < |all| && all[j] == some[k];
  }

  ghost predicate RemoteHasRow(conns: seq<Conn>, c: Conn) {
    exists r :: r in Reduced(conns) && r.remoteAddress == c.remoteAddress
  }

  ghost predicate GroupHasRow(conns: seq<Conn>, c: Conn) { exists r :: r in Reduced(conns) && SameGroup(r, c) }

  /** No two rows share protocol, remote address and process name, no row is shadowed, and every live
      remote address still has a row; so has every group with a named process. */
  lemma ReductionIsSound(conns: seq<Conn>)
    ensures OnePerGroup(Reduced(conns))
    ensures forall r :: r in Reduced(conns) ==> r in conns && !Shadowed(Reduced(conns), r)
    ensures forall c :: c in conns ==> RemoteHasRow(conns, c) && (c.processName != UNKNOWN ==> GroupHasRow(conns, c))
  {
    var rows := FirstOfEach(conns);
    FirstOfEachIsSound(conns);
    UnshadowedIsSound(rows, rows);
    forall c | c in conns ensures RemoteHasRow(conns, c) && (c.processName != UNKNOWN ==> GroupHasRow(conns, c)) {
      var r := RowFor(conns, c);
    }
    forall r | r in Reduced(conns) ensures !Shadowed(Reduced(conns), r) {
      if Shadowed(Reduced(conns), r) { FewerShadows(Reduced(conns), rows, r); }
    }
  }

  /** The first connection with its protocol, remote address and process name. */
  ghost predicate IsFirst(conns: seq<Conn>, i: nat)
    requires i < |conns|
  {
    forall j :: 0 <= j < i ==> conns[j].protocol != conns[i].protocol
                               || conns[j].remoteAddress != conns[i].remoteAddress
                               || conns[j].processName != conns[i].processName
  }

  ghost predicate FirstAndKnown(conns: seq<Conn>, i: nat, remote: string)
    requires i < |conns|
  {
    && IsFirst(conns, i) && conns[i].processName != "Unknown" && conns[i].processId > 0
    && conns[i].remoteAddress == remote
  }

  /** The connections that get a row: the first of each group, but not one of an unknown process when the first of
      another group has the same remote address, a process name and a process number. */
  ghost predicate GetsRow(conns: seq<Conn>, i: nat)
    requires i < |conns|
  {
    IsFirst(conns, i)
    && (conns[i].processName == "Unknown" ==>
          !exists k: nat :: k < |conns| && FirstAndKnown(conns, k, conns[i].remoteAddress))
  }

  lemma FirstInFront(conns: seq<Conn>, n: nat, i: nat)
    requires i < n <= |conns|
    ensures IsFirst(conns[..n], i) <==> IsFirst(conns, i)
  {
    assert forall j :: 0 <= j <= i ==> conns[..n][j] == conns[j];
  }

  lemma IsFirstIff(conns: seq<Conn>, i: nat)
    requires i < |conns|
    ensures IsFirst(conns, i) <==> forall j :: 0 <= j < i ==> !SameGroup(conns[j], conns[i])
  {}

  lemma GroupHasRowIff(conns: seq<Conn>, c: Conn)
    ensures HasGroup(FirstOfEach(conns), c) <==> HasGroup(conns, c)
  {
    var rows := FirstOfEach(conns);
    FirstOfEachIsSound(conns);
    if HasGroup(rows, c) {
      var i :| 0 <= i < |rows| && SameGroup(rows[i], c);
      assert rows[i] in conns;
      var j :| 0 <= j < |conns| && conns[j] == rows[i];
    }
    if HasGroup(conns, c) {
      var j :| 0 <= j < |conns| && SameGroup(conns[j], c);
      assert conns[j] in conns;
      var i :| 0 <= i < |rows| && SameGroup(rows[i], conns[j]);
    }
  }

  /** The last connection is added unless its group has a row already. */
  lemma LastIsFirstIff(conns: seq<Conn>)
    requires conns != []
    ensures var n := |conns| - 1;
            FirstOfEach(conns) == FirstOfEach(conns[..n]) + if IsFirst(conns, n) then [conns[n]] else []
  {
    var n := |conns| - 1;
    GroupHasRowIff(conns[..n], conns[n]);
    IsFirstIff(conns, n);
    assert forall j :: 0 <= j < n ==> conns[..n][j] == conns[j];
    assert HasGroup(conns[..n], conns[n]) <==> !IsFirst(conns, n);
  }

  ghost predicate IsFirstOf(conns: seq<Conn>, i: nat, r: Conn) { i < |conns| && IsFirst(conns, i) && conns[i] == r }

  lemma {:induction false} FirstOfEachIff(conns: seq<Conn>, r: Conn)
    ensures r in FirstOfEach(conns) <==> exists i: nat :: IsFirstOf(conns, i, r)
  {
    if conns != [] {
      var n: nat := |conns| - 1;
      FirstOfEachIff(conns[..n], r);
      LastIsFirstIff(conns);
      if i: nat :| IsFirstOf(conns[..n], i, r) {
        FirstInFront(conns, n, i);
        assert IsFirstOf(conns, i, r);
      }
      if i: nat :| IsFirstOf(conns, i, r) && i < n {
        FirstInFront(conns, n, i);
        assert IsFirstOf(conns[..n], i, r);
      }
      assert IsFirst(conns, n) ==> IsFirstOf(conns, n, conns[n]);
    }
  }

  lemma KnownRemoteIff(conns: seq<Conn>, remote: string)
    ensures KnownRemote(FirstOfEach(conns), remote) <==>
            exists k: nat :: k < |conns| && FirstAndKnown(conns, k, remote)
  {
    var rows := FirstOfEach(conns);
    if KnownRemote(rows, remote) {
      var i :| 0 <= i < |rows| && Known(rows[i]) && rows[i].remoteAddress == remote;
      FirstOfEachIff(conns, rows[i]);
      var k: nat :| IsFirstOf(conns, k, rows[i]);
      assert FirstAndKnown(conns, k, remote);
    }
    if k: nat :| k < |conns| && FirstAndKnown(conns, k, remote) {
      FirstOfEachIff(conns, conns[k]);
      assert IsFirstOf(conns, k, conns[k]);
      var i :| 0 <= i < |rows| && rows[i] == conns[k];
    }
  }

  /** Exactly which connections get a row. */
  lemma RowsAre(conns: seq<Conn>, r: Conn)
    ensures r in Reduced(conns) <==> exists i: nat :: i < |conns| && GetsRow(conns, i) && conns[i] == r
  {
    var rows := FirstOfEach(conns);
    UnshadowedIsSound(rows, rows);
    FirstOfEachIff(conns, r);
    KnownRemoteIff(conns, r.remoteAddress);
    if r in Reduced(conns) {
      var i: nat :| IsFirstOf(conns, i, r);
      assert GetsRow(conns, i);
    }
    if i: nat :| i < |conns| && GetsRow(conns, i) && conns[i] == r {
      assert IsFirstOf(conns, i, r);
    }
  }

  lemma {:induction false} FirstOfEachKeeps(conns: seq<Conn>)
    requires OnePerGroup(conns)
    ensures FirstOfEach(conns) == conns
  {
    if conns != [] {
      var before, last := conns[..|conns| - 1], conns[|conns| - 1];
      FirstOfEachKeeps(before);
      assert conns == before + [last];
      assert forall i :: 0 <= i < |before| ==> before[i] == conns[i] && !SameGroup(conns[i], last);
      assert !HasGroup(before, last);
    }
  }

  lemma {:induction false} UnshadowedKeeps(all: seq<Conn>, conns: seq<Conn>)
    requires forall c :: c in conns ==> !Shadowed(all, c)
    ensures Unshadowed(all, conns) == conns
  {
    if conns != [] {
      var before := conns[..|conns| - 1];
      assert conns == before + [conns[|conns| - 1]];
      UnshadowedKeeps(all, before);
    }
  }

  /** Reducing again changes nothing. */
  lemma ReductionIsIdempotent(conns: seq<Conn>)
    ensures Reduced(Reduced(conns)) == Reduced(conns)
  {
    ReductionIsSound(conns);
    FirstOfEachKeeps(Reduced(conns));
    UnshadowedKeeps(Reduced(conns), Reduced(conns));
  }

  // ---------- order ----------

  /** The comparison of protocol names, in whatever culture. */
  datatype Rank = Rank(of: string -> real)

  predicate Established(c: Conn) { c.state == "ESTABLISHED" }

  /** Newest first, established before others, then by protocol, then by local port. */
  predicate Before(a: Conn, b: Conn, rank: Rank) {
    if a.capturedAt != b.capturedAt then a.capturedAt > b.capturedAt
    else if Established(a) != Established(b) then Established(a)
    else if rank.of(a.protocol) != rank.of(b.protocol) then rank.of(a.protocol) < rank.of(b.protocol)
    else a.localPort < b.localPort
  }

  /** The order of two rows, field by field: newest first, then established ones, then by protocol, then by port. */
  predicate MayStandAbove(a: Conn, b: Conn, rank: Rank) {
    && a.capturedAt >= b.capturedAt
    && (a.capturedAt == b.capturedAt ==>
          && (b.state == "ESTABLISHED" ==> a.state == "ESTABLISHED")
          && ((a.state == "ESTABLISHED" <==> b.state == "ESTABLISHED") ==>
                && rank.of(a.protocol) <= rank.of(b.protocol)
                && (rank.of(a.protocol) == rank.of(b.protocol) ==> a.localPort <= b.localPort)))
  }

  lemma NotBeforeIff(a: Conn, b: Conn, rank: Rank)
    ensures !Before(b, a, rank) <==> MayStandAbove(a, b, rank)
  {}

  /** Rows that tie agree in all four respects. */
  lemma TiesIff(a: Conn, b: Conn, rank: Rank)
    ensures Ties(a, b, rank) <==>
            && a.capturedAt == b.capturedAt && (a.state == "ESTABLISHED" <==> b.state == "ESTABLISHED")
            && rank.of(a.protocol) == rank.of(b.protocol) && a.localPort == b.localPort
  {}

  /** Stable insertion from the right: after everything that is not behind it. */
  function Insert(sorted: seq<Conn>, c: Conn, rank: Rank): seq<Conn>
  {
    if sorted == [] || !Before(c, sorted[|sorted| - 1], rank) then sorted + [c]
    else Insert(sorted[..|sorted| - 1], c, rank) + [sorted[|sorted| - 1]]
  }

  function Sorted(conns: seq<Conn>, rank: Rank): seq<Conn>
  {
    if conns == [] then [] else Insert(Sorted(conns[..|conns| - 1], rank), conns[|conns| - 1], rank)
  }

  predicate InOrder(rows: seq<Conn>, rank: Rank) {
    forall i, j :: 0 <= i < j < |rows| ==> !Before(rows[j], rows[i], rank)
  }

  /** The same in terms of fields. */
  predicate Ordered(rows: seq<Conn>, rank: Rank) {
    forall i, j :: 0 <= i < j < |rows| ==> MayStandAbove(rows[i], rows[j], rank)
  }

  lemma InOrderIff(rows: seq<Conn>, rank: Rank)
    ensures InOrder(rows, rank) <==> Ordered(rows, rank)
  {
    forall i, j | 0 <= i < j < |rows|
      ensures !Before(rows[j], rows[i], rank) <==> MayStandAbove(rows[i], rows[j], rank)
    {
      NotBeforeIff(rows[i], rows[j], rank);
    }
  }

  lemma {:induction false} InsertAdds(rows: seq<Conn>, c: Conn, rank: Rank)
    ensures multiset(Insert(rows, c, rank)) == multiset(rows) + multiset{c}
  {
    if rows != [] && Before(c, rows[|rows| - 1], rank) {
      InsertAdds(rows[..|rows| - 1], c, rank);
      assert rows == rows[..|rows| - 1] + [rows[|rows| - 1]];
    }
  }

  lemma OneMoreInOrder(rows: seq<Conn>, last: Conn, rank: Rank)
    requires InOrder(rows, rank) && forall r :: r in rows ==> !Before(last, r, rank)
    ensures InOrder(rows + [last], rank)
  {}

  lemma NotBeforeEarlier(c: Conn, last: Conn, earlier: Conn, rank: Rank)
    requires !Before(c, last, rank) && !Before(last, earlier, rank)
    ensures !Before(c, earlier, rank)
  {}

  lemma {:induction false} InsertKeepsOrder(rows: seq<Conn>, c: Conn, rank: Rank)
    requires InOrder(rows, rank)
    ensures InOrder(Insert(rows, c, rank), rank)
  {
    if rows == [] { return; }
    var front, last := rows[..|rows| - 1], rows[|rows| - 1];
    if Before(c, last, rank) {
      InsertKeepsOrder(front, c, rank);
      InsertAdds(front, c, rank);
      var put := Insert(front, c, rank);
      forall r | r in put ensures !Before(last, r, rank) {
        assert r in multiset(put);
        assert r == c || r in front;
      }
      OneMoreInOrder(put, last, rank);
    } else {
      forall r | r in rows ensures !Before(c, r, rank) {
        if r != last { NotBeforeEarlier(c, last, r, rank); }
      }
      OneMoreInOrder(rows, c, rank);
    }
  }

  predicate Ties(a: Conn, b: Conn, rank: Rank) { !Before(a, b, rank) && !Before(b, a, rank) }

  /** The rows level with `c`, in order. */
  function Level(rows: seq<Conn>, c: Conn, rank: Rank): seq<Conn>
  {
    if rows == [] then []
    else
      var last := rows[|rows| - 1];
      Level(rows[..|rows| - 1], c, rank) + if Ties(last, c, rank) then [last] else []
  }

  lemma LevelSnoc(rows: seq<Conn>, last: Conn, c: Conn, rank: Rank)
    ensures Level(rows + [last], c, rank) == Level(rows, c, rank) + if Ties(last, c, rank) then [last] else []
  {
    assert (rows + [last])[..|rows|] == rows;
  }

  lemma {:induction false} InsertIsStable(rows: seq<Conn>, c: Conn, x: Conn, rank: Rank)
    ensures Level(Insert(rows, c, rank), x, rank) == Level(rows, x, rank) + if Ties(c, x, rank) then [c] else []
  {
    if rows != [] && Before(c, rows[|rows| - 1], rank) {
      var front, last := rows[..|rows| - 1], rows[|rows| - 1];
      InsertIsStable(front, c, x, rank);
      LevelSnoc(Insert(front, c, rank), last, x, rank);
    } else {
      LevelSnoc(rows, c, x, rank);
    }
  }

  /** The sort is in order, loses and invents no row, and leaves level rows in the order they had. */
  lemma {:induction false} SortedIsSound(conns: seq<Conn>, rank: Rank)
    ensures InOrder(Sorted(conns, rank), rank) && Ordered(Sorted(conns, rank), rank)
    ensures multiset(Sorted(conns, rank)) == multiset(conns)
    ensures forall x :: Level(Sorted(conns, rank), x, rank) == Level(conns, x, rank)
  {
    if conns != [] {
      var before, last := conns[..|conns| - 1], conns[|conns| - 1];
      assert conns == before + [last];
      SortedIsSound(before, rank);
      InsertAdds(Sorted(before, rank), last, rank);
      InsertKeepsOrder(Sorted(before, rank), last, rank);
      forall x ensures Level(Sorted(conns, rank), x, rank) == Level(conns, x, rank) {
        InsertIsStable(Sorted(before, rank), last, x, rank);
      }
      InOrderIff(Sorted(conns, rank), rank);
    }
  }

  // ---------- the rows on screen ----------

  /** `maxRows` of zero or less means no limit. */
  function Capped(rows: seq<Conn>, maxRows: int): seq<Conn>
  {
    if maxRows > 0 && |rows| > maxRows then rows[..maxRows] else rows
  }

  function Displayed(conns: seq<Conn>, rank: Rank, maxRows: int): seq<Conn>
  {
    Capped(Sorted(Reduced(conns), rank), maxRows)
  }

  lemma FrontBeforeRest(rows: seq<Conn>, n: nat, rank: Rank)
    requires n <= |rows| && InOrder(rows, rank)
    ensures InOrder(rows[..n], rank)
    ensures multiset(rows) == multiset(rows[..n]) + multiset(rows[n..])
    ensures forall r, h :: r in rows[..n] && h in rows[n..] ==> !Before(h, r, rank)
  {
    assert rows == rows[..n] + rows[n..];
  }

  /** `hidden` are the rows left out for lack of room: shown and hidden rows together are the reduced
      rows, as many are shown as fit, and nothing hidden belongs above anything shown. */
  lemma ShownBeforeHidden(conns: seq<Conn>, rank: Rank, maxRows: int) returns (hidden: seq<Conn>)
    ensures var rows, shown := Reduced(conns), Displayed(conns, rank, maxRows);
            && Ordered(shown, rank)
            && multiset(rows) == multiset(shown) + multiset(hidden)
            && (hidden != [] ==> |shown| == maxRows)
            && (maxRows > 0 ==> |shown| <= maxRows)
            && forall r, h :: r in shown && h in hidden ==> MayStandAbove(r, h, rank)
  {
    var all := Sorted(Reduced(conns), rank);
    var n := |Displayed(conns, rank, maxRows)|;
    SortedIsSound(Reduced(conns), rank);
    FrontBeforeRest(all, n, rank);
    hidden := all[n..];
    InOrderIff(all[..n], rank);
    forall r, h | r in all[..n] && h in hidden
      ensures MayStandAbove(r, h, rank)
    {
      NotBeforeIff(r, h, rank);
    }
  }
}
