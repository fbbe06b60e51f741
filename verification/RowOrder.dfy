/** The order that "below" requests put on rows, drained from the top.

What stays undrained is characterised without the algorithm: a row is trapped
when it belongs to a set of rows each of which waits for another of the set. */
module RowOrder {
  import opened Sets
  import opened Groups

  type Links = map<Name, set<Name>>

  /** `previous` lists the rows that must come before a row. */
  ghost predicate Mirrored(vertices: set<Name>, following: Links, previous: Links) {
    && (forall t :: t in previous <==> t in vertices)
    && (forall t :: t in following <==> t in vertices)
    && (forall s, t :: t in vertices && s in previous[t] ==> s in vertices && t in following[s])
    && (forall s, t :: s in vertices && t in following[s] ==> t in vertices && s in previous[t])
  }

  /** Everything before a drained row was drained earlier. */
  ghost predicate Drained(previous: Links, done: set<Name>, time: map<Name, nat>) {
    && (forall t :: t in done ==> t in previous && t in time)
    && (forall s, t :: t in done && t in previous && s in previous[t] ==> s in done && s in time && t in time && time[s] < time[t])
  }

  ghost predicate Waits(previous: Links, stuck: set<Name>, t: Name) {
    t in previous && exists s :: s in previous[t] && s in stuck
  }

  ghost predicate SelfWaiting(previous: Links, stuck: set<Name>) {
    forall u {:trigger Waits(previous, stuck, u)} :: u in stuck ==> Waits(previous, stuck, u)
  }

  ghost predicate Trapped(previous: Links, t: Name) {
    exists stuck: set<Name> :: t in stuck && SelfWaiting(previous, stuck)
  }

  lemma {:induction false} StuckUndrained(previous: Links, done: set<Name>, time: map<Name, nat>, stuck: set<Name>, t: Name, n: nat)
    requires Drained(previous, done, time) && SelfWaiting(previous, stuck) && t in stuck
    ensures !(t in done && t in time && time[t] <= n)
    decreases n
  {
    if t in done && t in time && time[t] <= n {
      assert Waits(previous, stuck, t);
      var s :| s in previous[t] && s in stuck;
      assert time[s] < time[t];
      StuckUndrained(previous, done, time, stuck, s, n - 1);
    }
  }

  /** A drained row is not trapped. */
  lemma DrainedIsFree(previous: Links, done: set<Name>, time: map<Name, nat>, t: Name)
    requires Drained(previous, done, time) && t in done
    ensures !Trapped(previous, t)
  {
    if stuck: set<Name> :| t in stuck && SelfWaiting(previous, stuck) {
      StuckUndrained(previous, done, time, stuck, t, time[t]);
    }
  }

  function Waiting(previous: Links, done: set<Name>, t: Name): nat {
    if t in previous then |previous[t] - done| else 0
  }

  ghost predicate Counted(previous: Links, done: set<Name>, indegree: map<Name, nat>, t: Name) {
    t in indegree && t in previous && indegree[t] == Waiting(previous, done, t)
  }

  /** The counts: for every row, how many rows before it are not drained yet. */
  ghost predicate Tallied(vertices: set<Name>, previous: Links, done: set<Name>, indegree: map<Name, nat>) {
    && (forall t :: t in indegree <==> t in vertices)
    && (forall t {:trigger Counted(previous, done, indegree, t)} :: t in vertices ==> Counted(previous, done, indegree, t))
  }

  ghost predicate Uncounted(previous: Links, done: set<Name>, source: Name, todo: set<Name>, indegree: map<Name, nat>, t: Name) {
    Counted(previous, if t in todo then done else done + {source}, indegree, t)
  }

  /** The counts while `source` is being taken out: only the rows of `todo` still count it. */
  ghost predicate Releasing(vertices: set<Name>, previous: Links, done: set<Name>, source: Name, todo: set<Name>, indegree: map<Name, nat>) {
    && (forall t :: t in indegree <==> t in vertices)
    && (forall t {:trigger Uncounted(previous, done, source, todo, indegree, t)} ::
          t in vertices ==> Uncounted(previous, done, source, todo, indegree, t))
  }

  /** Rows that are ready or drained are those waiting for none. */
  ghost predicate Fronted(vertices: set<Name>, done: set<Name>, ready: set<Name>, indegree: map<Name, nat>) {
    && (forall t :: t in ready ==> t in vertices && t !in done)
    && (forall t :: t in done ==> t in vertices)
    && (forall t :: t in vertices && t in indegree ==> (t in done || t in ready <==> indegree[t] == 0))
  }

  lemma LessOne(previous: Links, done: set<Name>, s: Name, t: Name)
    requires s !in done && t in previous
    ensures Waiting(previous, done, t) == Waiting(previous, done + {s}, t) + (if s in previous[t] then 1 else 0)
  {
    var before := previous[t];
    if s in before {
      assert before - done == (before - (done + {s})) + {s};
    } else {
      assert before - done == before - (done + {s});
    }
  }

  lemma BeginRelease(vertices: set<Name>, following: Links, previous: Links, done: set<Name>, source: Name, indegree: map<Name, nat>)
    requires Mirrored(vertices, following, previous) && source in vertices && source !in done
    requires Tallied(vertices, previous, done, indegree)
    ensures Releasing(vertices, previous, done, source, following[source], indegree)
  {
    forall t | t in vertices
      ensures Uncounted(previous, done, source, following[source], indegree, t)
    {
      assert Counted(previous, done, indegree, t);
      LessOne(previous, done, source, t);
    }
  }

  lemma ReleaseStep(vertices: set<Name>, following: Links, previous: Links, done: set<Name>, source: Name, todo: set<Name>,
      indegree: map<Name, nat>, target: Name)
    requires Mirrored(vertices, following, previous) && source in vertices && source !in done
    requires Releasing(vertices, previous, done, source, todo, indegree) && target in todo && target in following[source]
    ensures target in indegree && indegree[target] > 0
    ensures Releasing(vertices, previous, done, source, todo - {target}, indegree[target := indegree[target] - 1])
  {
    LessOne(previous, done, source, target);
    assert Uncounted(previous, done, source, todo, indegree, target);
    var lowered := indegree[target := indegree[target] - 1];
    forall t | t in vertices
      ensures Uncounted(previous, done, source, todo - {target}, lowered, t)
    {
      assert Uncounted(previous, done, source, todo, indegree, t);
    }
  }

  lemma EndRelease(vertices: set<Name>, previous: Links, done: set<Name>, source: Name, indegree: map<Name, nat>)
    requires Releasing(vertices, previous, done, source, {}, indegree)
    ensures Tallied(vertices, previous, done + {source}, indegree)
  {
    forall t | t in vertices
      ensures Counted(previous, done + {source}, indegree, t)
    {
      assert Uncounted(previous, done, source, {}, indegree, t);
    }
  }

  /** Takes a drained row out of the counts, one follower at a time. */
  method Release(vertices: set<Name>, following: Links, ghost previous: Links, ghost done: set<Name>, source: Name,
      indegree0: map<Name, nat>, ready0: set<Name>) returns (indegree: map<Name, nat>, ready: set<Name>)
    requires Mirrored(vertices, following, previous) && source in vertices && source !in done
    requires Tallied(vertices, previous, done, indegree0)
    requires Fronted(vertices, done + {source}, ready0, indegree0)
    ensures Tallied(vertices, previous, done + {source}, indegree)
    ensures Fronted(vertices, done + {source}, ready, indegree)
  {
    indegree, ready := indegree0, ready0;
    var todo := following[source];
    BeginRelease(vertices, following, previous, done, source, indegree);
    while todo != {}
      invariant forall t :: t in todo ==> t in following[source]
      invariant Releasing(vertices, previous, done, source, todo, indegree)
      invariant Fronted(vertices, done + {source}, ready, indegree)
      decreases todo
    {
      var target := Pick(todo);
      ReleaseStep(vertices, following, previous, done, source, todo, indegree, target);
      indegree := indegree[target := indegree[target] - 1];
      if indegree[target] == 0 {
        ready := ready + {target};
      }
      todo := todo - {target};
    }
    EndRelease(vertices, previous, done, source, indegree);
  }

  /** What a drain keeps before each turn. */
  ghost predicate Draining(vertices: set<Name>, following: Links, previous: Links, done: set<Name>, ready: set<Name>,
      indegree: map<Name, nat>, time: map<Name, nat>)
  {
    && Mirrored(vertices, following, previous)
    && Tallied(vertices, previous, done, indegree)
    && Fronted(vertices, done, ready, indegree)
    && Drained(previous, done, time)
    && (forall t :: t in done ==> t in time && time[t] < |done|)
  }

  /** The rows that wait for nothing. */
  method Start(vertices: set<Name>, following: Links, previous: Links) returns (indegree: map<Name, nat>, ready: set<Name>)
    requires Mirrored(vertices, following, previous)
    ensures Draining(vertices, following, previous, {}, ready, indegree, map[])
  {
    indegree := map t | t in vertices :: |previous[t]|;
    ready := set t | t in vertices && indegree[t] == 0;
    forall t | t in vertices
      ensures Counted(previous, {}, indegree, t)
    {
      assert previous[t] - {} == previous[t];
    }
  }

  /** Draining one ready row. */
  method Turn(vertices: set<Name>, following: Links, ghost previous: Links, ghost done: set<Name>, ready0: set<Name>,
      indegree0: map<Name, nat>, ghost time: map<Name, nat>, source: Name) returns (indegree: map<Name, nat>, ready: set<Name>)
    requires Draining(vertices, following, previous, done, ready0, indegree0, time) && source in ready0
    ensures source !in done && source in vertices && source in previous && previous[source] <= done
    ensures Draining(vertices, following, previous, done + {source}, ready, indegree, time[source := |done|])
  {
    TurnDrains(vertices, following, previous, done, ready0, indegree0, time, source);
    indegree, ready := Release(vertices, following, previous, done, source, indegree0, ready0 - {source});
  }

  lemma DrainedGrow(previous: Links, done: set<Name>, time: map<Name, nat>, source: Name, n: nat)
    requires Drained(previous, done, time) && source !in done && source in previous
    requires forall s :: s in previous[source] ==> s in done
    requires forall t :: t in done ==> t in time && time[t] < n
    ensures Drained(previous, done + {source}, time[source := n])
  {
    var more, later := done + {source}, time[source := n];
    forall s, t | t in more && t in previous && s in previous[t]
      ensures s in more && s in later && t in later && later[s] < later[t]
    {
      if t != source {
        assert t in done;
      }
    }
  }

  lemma TurnDrains(vertices: set<Name>, following: Links, previous: Links, done: set<Name>, ready: set<Name>,
      indegree: map<Name, nat>, time: map<Name, nat>, source: Name)
    requires Draining(vertices, following, previous, done, ready, indegree, time) && source in ready
    ensures source !in done && source in vertices && source in previous && previous[source] <= done
    ensures Fronted(vertices, done + {source}, ready - {source}, indegree)
    ensures Drained(previous, done + {source}, time[source := |done|])
    ensures forall t :: t in done + {source} ==> t in time[source := |done|] && time[source := |done|][t] < |done + {source}|
  {
    assert Counted(previous, done, indegree, source);
    assert previous[source] - done == {};
    forall s | s in previous[source]
      ensures s in done
    {
      assert s !in previous[source] - done;
    }
    DrainedGrow(previous, done, time, source, |done|);
    assert |done + {source}| == |done| + 1;
  }

  /** The ready rows are those not drained that wait for nothing. */
  lemma ReadyMeans(vertices: set<Name>, following: Links, previous: Links, done: set<Name>, ready: set<Name>,
      indegree: map<Name, nat>, time: map<Name, nat>)
    requires Draining(vertices, following, previous, done, ready, indegree, time)
    ensures previous.Keys == vertices
    ensures forall t :: t in vertices ==> (t in ready <==> t !in done && previous[t] <= done)
  {
    forall t | t in vertices
      ensures t in ready <==> t !in done && previous[t] <= done
    {
      assert Counted(previous, done, indegree, t);
      if previous[t] - done == {} {
        forall s | s in previous[t]
          ensures s in done
        {
          assert s !in previous[t] - done;
        }
      }
    }
  }

  /** When nothing is ready, exactly the trapped rows are left. */
  lemma LeftAreTrapped(vertices: set<Name>, following: Links, previous: Links, done: set<Name>, indegree: map<Name, nat>, time: map<Name, nat>)
    requires Draining(vertices, following, previous, done, {}, indegree, time)
    ensures forall t :: t in vertices ==> (t !in done <==> Trapped(previous, t))
  {
    var stuck := vertices - done;
    forall u | u in stuck
      ensures Waits(previous, stuck, u)
    {
      assert Counted(previous, done, indegree, u);
      assert previous[u] - done != {};
      var s :| s in previous[u] - done;
      assert s in vertices;
    }
    assert SelfWaiting(previous, stuck);
    forall t | t in vertices && t in done
      ensures !Trapped(previous, t)
    {
      DrainedIsFree(previous, done, time, t);
    }
  }

  /** Drains what can be drained; in the source the order among ready rows is that of a stack. */
  method Drain(vertices: set<Name>, following: Links, previous: Links) returns (done: set<Name>, ghost time: map<Name, nat>)
    requires Mirrored(vertices, following, previous)
    ensures done <= vertices && Drained(previous, done, time)
    ensures forall t :: t in vertices ==> (t !in done <==> Trapped(previous, t))
  {
    var indegree, ready := Start(vertices, following, previous);
    done, time := {}, map[];
    while ready != {}
      invariant Draining(vertices, following, previous, done, ready, indegree, time)
      decreases vertices - done
    {
      var source := Pick(ready);
      indegree, ready := Turn(vertices, following, previous, done, ready, indegree, time, source);
      time := time[source := |done|];
      done := done + {source};
    }
    LeftAreTrapped(vertices, following, previous, done, indegree, time);
  }
}
