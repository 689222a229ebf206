/** Event streams of a change-detecting source and the state that replaying them yields. */
module EventLog {
  import opened Connections

  /** `key` is the dictionary key under which the source found the connection. */
  datatype Event = Opened(key: string, conn: Conn) | Closed(key: string, conn: Conn)

  function States(m: map<string, Conn>): map<string, string> { map k | k in m :: m[k].state }

  function Apply(m: map<string, string>, e: Event): map<string, string>
  {
    match e
    case Opened(k, c) => m[k := c.state]
    case Closed(k, _) => m - {k}
  }

  /** What a listener that started from `m` believes after hearing `log`. */
  function Replay(m: map<string, string>, log: seq<Event>): map<string, string>
  {
    if log == [] then m else Apply(Replay(m, log[..|log| - 1]), log[|log| - 1])
  }

  lemma ReplaySnoc(m: map<string, string>, log: seq<Event>, e: Event)
    ensures Replay(m, log + [e]) == Apply(Replay(m, log), e)
  {
    assert (log + [e])[..|log|] == log;
  }

  lemma {:induction false} ReplayConcat(m: map<string, string>, a: seq<Event>, b: seq<Event>)
    ensures Replay(m, a + b) == Replay(Replay(m, a), b)
  {
    if b == [] {
      assert a + b == a;
    } else {
      assert (a + b)[..|a + b| - 1] == a + b[..|b| - 1];
      ReplayConcat(m, a, b[..|b| - 1]);
    }
  }

  // ---------- the last event of a key decides ----------

  predicate Mentions(log: seq<Event>, k: string) { exists i :: 0 <= i < |log| && log[i].key == k }

  ghost predicate IsLast(log: seq<Event>, k: string, i: int)
  {
    && 0 <= i < |log| && log[i].key == k
    && forall j :: i < j < |log| ==> log[j].key != k
  }

  /** Replaying leaves a key that no event mentions alone. */
  lemma {:induction false} UnmentionedStays(m: map<string, string>, log: seq<Event>, k: string)
    requires !Mentions(log, k)
    ensures k in Replay(m, log) <==> k in m
    ensures k in m ==> Replay(m, log)[k] == m[k]
  {
    if log != [] {
      var front, n := log[..|log| - 1], |log| - 1;
      assert log[n].key != k;
      forall i | 0 <= i < |front|
        ensures front[i].key != k
      {
        assert log[i].key != k;
      }
      UnmentionedStays(m, front, k);
    }
  }

  /** For any other key, replaying follows the last event. */
  lemma {:induction false} LastEventDecides(m: map<string, string>, log: seq<Event>, k: string, i: int)
    requires IsLast(log, k, i)
    ensures k in Replay(m, log) <==> log[i].Opened?
    ensures log[i].Opened? ==> Replay(m, log)[k] == log[i].conn.state
  {
    var front, n := log[..|log| - 1], |log| - 1;
    if i < n {
      assert log[n].key != k;
      assert IsLast(front, k, i);
      LastEventDecides(m, front, k, i);
    }
  }

  lemma {:induction false} HasLast(log: seq<Event>, k: string) returns (i: int)
    requires Mentions(log, k)
    ensures IsLast(log, k, i)
  {
    i := |log| - 1;
    if log[i].key != k {
      var j :| 0 <= j < |log| && log[j].key == k;
      var front := log[..i];
      assert front[j].key == k;
      i := HasLast(front, k);
      forall j | i < j < |log|
        ensures log[j].key != k
      {
        if j < |front| {
          assert log[j] == front[j];
        }
      }
    }
  }

  // ---------- the events of one scan ----------

  predicate NeedsOpen(cur: map<string, Conn>, latest: map<string, Conn>, k: string)
  {
    k in latest && (k !in cur || cur[k].state != latest[k].state)
  }

  predicate NeedsClose(cur: map<string, Conn>, latest: map<string, Conn>, k: string)
  {
    k in cur && k !in latest
  }

  ghost predicate DistinctKeys(batch: seq<Event>)
  {
    forall i, j :: 0 <= i < j < |batch| ==> batch[i].key != batch[j].key
  }

  predicate Due(cur: map<string, Conn>, latest: map<string, Conn>, e: Event)
  {
    var k := e.key;
    if e.Opened? then NeedsOpen(cur, latest, k) && e.conn == latest[k]
    else NeedsClose(cur, latest, k) && e.conn == cur[k]
  }

  /** `batch` reports every change from `cur` to `latest`, each once, nothing else, in any order. */
  ghost predicate IsDiff(cur: map<string, Conn>, latest: map<string, Conn>, batch: seq<Event>)
  {
    && DistinctKeys(batch)
    && (forall i :: 0 <= i < |batch| ==> Due(cur, latest, batch[i]))
    && (forall k :: NeedsOpen(cur, latest, k) || NeedsClose(cur, latest, k) ==> Mentions(batch, k))
  }

  /** Replaying a scan's batch, in whatever order it was written, turns the old table into the new one. */
  lemma DiffReplays(cur: map<string, Conn>, latest: map<string, Conn>, batch: seq<Event>)
    requires IsDiff(cur, latest, batch)
    ensures Replay(States(cur), batch) == States(latest)
  {
    var r := Replay(States(cur), batch);
    forall k: string
      ensures k in r <==> k in latest
      ensures k in r ==> r[k] == latest[k].state
    {
      if Mentions(batch, k) {
        var i := HasLast(batch, k);
        LastEventDecides(States(cur), batch, k, i);
        assert Due(cur, latest, batch[i]);
      } else {
        UnmentionedStays(States(cur), batch, k);
      }
    }
  }

  /** Reordering a batch is harmless: every permutation is again a report of the same change. */
  lemma ReorderedDiff(cur: map<string, Conn>, latest: map<string, Conn>, batch: seq<Event>, other: seq<Event>)
    requires IsDiff(cur, latest, batch)
    requires multiset(other) == multiset(batch)
    ensures IsDiff(cur, latest, other)
    ensures Replay(States(cur), other) == Replay(States(cur), batch)
  {
    DistinctInAnyOrder(batch, other);
    forall i | 0 <= i < |other|
      ensures Due(cur, latest, other[i])
    {
      var j := SameElement(other, batch, i);
    }
    forall k | NeedsOpen(cur, latest, k) || NeedsClose(cur, latest, k)
      ensures Mentions(other, k)
    {
      var i :| 0 <= i < |batch| && batch[i].key == k;
      var j := SameElement(batch, other, i);
    }
    DiffReplays(cur, latest, batch);
    DiffReplays(cur, latest, other);
  }

  lemma SameElement(a: seq<Event>, b: seq<Event>, i: int) returns (j: int)
    requires multiset(a) == multiset(b) && 0 <= i < |a|
    ensures 0 <= j < |b| && b[j] == a[i]
  {
    assert a[i] in multiset(a);
    assert a[i] in multiset(b);
    j :| 0 <= j < |b| && b[j] == a[i];
  }

  lemma DistinctInAnyOrder(a: seq<Event>, b: seq<Event>)
    requires multiset(a) == multiset(b) && DistinctKeys(a)
    ensures DistinctKeys(b)
  {
    forall i, j | 0 <= i < j < |b|
      ensures b[i].key != b[j].key
    {
      var i' := SameElement(b, a, i);
      var j' := SameElement(b, a, j);
      if b[i] == b[j] {
        TwiceInSeq(b, i, j);
        OnceInSeq(a, i');
      }
    }
  }

  lemma TwiceInSeq(b: seq<Event>, i: int, j: int)
    requires 0 <= i < j < |b| && b[i] == b[j]
    ensures multiset(b)[b[i]] >= 2
  {
    assert b == b[..j] + b[j..];
    assert b[i] in multiset(b[..j]) && b[j] in multiset(b[j..]);
  }

  lemma OnceInSeq(a: seq<Event>, i: int)
    requires 0 <= i < |a| && DistinctKeys(a)
    ensures multiset(a)[a[i]] == 1
  {
    assert a == a[..i] + [a[i]] + a[i + 1..];
    assert a[i] !in a[..i] && a[i] !in a[i + 1..];
    assert multiset(a) == multiset(a[..i]) + multiset([a[i]]) + multiset(a[i + 1..]);
  }

  // ---------- trace discipline ----------

  /** An event that tells a listener in state `m` something new. */
  predicate Informative(m: map<string, string>, e: Event)
  {
    if e.Opened? then e.key !in m || m[e.key] != e.conn.state else e.key in m
  }

  ghost predicate Disciplined(log: seq<Event>)
  {
    forall i :: 0 <= i < |log| ==> Informative(Replay(map[], log[..i]), log[i])
  }

  lemma DisciplinedSnoc(log: seq<Event>, e: Event)
    requires Disciplined(log) && Informative(Replay(map[], log), e)
    ensures Disciplined(log + [e])
  {
    forall i | 0 <= i < |log + [e]|
      ensures Informative(Replay(map[], (log + [e])[..i]), (log + [e])[i])
    {
      assert (log + [e])[..i] == log[..i];
      if i == |log| {
        assert log[..i] == log;
      }
    }
  }

  /** Two neighbouring events of one key: `Closed` is followed by `Opened`, and two `Opened` differ in state. */
  lemma NeighboursDiffer(log: seq<Event>, i: int, j: int)
    requires Disciplined(log)
    requires 0 <= i < j < |log| && log[i].key == log[j].key
    requires forall n :: i < n < j ==> log[n].key != log[i].key
    ensures log[i].Closed? ==> log[j].Opened?
    ensures log[i].Opened? && log[j].Opened? ==> log[i].conn.state != log[j].conn.state
  {
    assert IsLast(log[..j], log[i].key, i);
    LastEventDecides(map[], log[..j], log[i].key, i);
    assert Informative(Replay(map[], log[..j]), log[j]);
  }

  /** Every `Closed` answers an earlier `Opened` of its key with nothing about that key in between. */
  lemma ClosedAnswersOpened(log: seq<Event>, j: int) returns (i: int)
    requires Disciplined(log)
    requires 0 <= j < |log| && log[j].Closed?
    ensures 0 <= i < j && log[i].Opened? && log[i].key == log[j].key
    ensures forall n :: i < n < j ==> log[n].key != log[j].key
  {
    var k, before := log[j].key, log[..j];
    assert Informative(Replay(map[], before), log[j]);
    if !Mentions(before, k) {
      UnmentionedStays(map[], before, k);
    }
    i := HasLast(before, k);
    LastEventDecides(map[], before, k, i);
    assert before[i] == log[i];
    forall n | i < n < j
      ensures log[n].key != k
    {
      assert before[n] == log[n];
    }
  }
}
