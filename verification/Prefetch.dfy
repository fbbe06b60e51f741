/** Keeping a bounded window of requests in flight, and delivering each result once.

Responses finish in any order, the window's size may change from turn to turn,
and a consumer or a hard limit may stop the run. The order of completions, the
outcomes and the consumer's answers are all left open. */
module Prefetch {
  import opened Options
  import opened Sequences
  import opened Sets

  datatype Endpoint = Endpoint(id: nat)

  datatype Reason = Limit(code: nat) | ByConsumer

  /** A body, an ordinary error, or a hard limit that ends the run. */
  datatype Outcome = Body(content: nat) | Failed | Halted(reason: Reason)

  /** Each endpoint where it first occurs. */
  ghost predicate FirstOccurrences(given: seq<Endpoint>, unique: seq<Endpoint>) {
    && Distinct(unique)
    && (forall e :: e in unique <==> e in given)
    && (forall i, j :: 0 <= i < j < |unique| ==> Earlier(given, unique[i], unique[j]))
  }

  /** `a` occurs in front of every occurrence of `b`. */
  ghost predicate Earlier(given: seq<Endpoint>, a: Endpoint, b: Endpoint) {
    exists i :: 0 <= i < |given| && given[i] == a && forall j :: 0 <= j <= i ==> given[j] != b
  }

  lemma EarlierGrows(given: seq<Endpoint>, a: Endpoint, b: Endpoint, more: seq<Endpoint>)
    requires Earlier(given, a, b)
    ensures Earlier(given + more, a, b)
  {
    var i :| 0 <= i < |given| && given[i] == a && forall j :: 0 <= j <= i ==> given[j] != b;
    assert (given + more)[i] == a;
  }

  lemma NewIsLast(given: seq<Endpoint>, a: Endpoint, b: Endpoint)
    requires a in given && b !in given
    ensures Earlier(given + [b], a, b)
  {
    var i :| 0 <= i < |given| && given[i] == a;
    assert (given + [b])[i] == a;
    assert forall j :: 0 <= j <= i ==> (given + [b])[j] == given[j] && given[j] in given;
  }

  method Unique(given: seq<Endpoint>) returns (unique: seq<Endpoint>)
    ensures FirstOccurrences(given, unique)
  {
    unique := [];
    for i := 0 to |given|
      invariant FirstOccurrences(given[..i], unique)
    {
      UniqueStep(given, i, unique);
      unique := if given[i] in unique then unique else unique + [given[i]];
    }
    assert given[..|given|] == given;
  }

  lemma UniqueStep(given: seq<Endpoint>, n: nat, unique: seq<Endpoint>)
    requires n < |given| && FirstOccurrences(given[..n], unique)
    ensures FirstOccurrences(given[..n + 1], if given[n] in unique then unique else unique + [given[n]])
  {
    var front, e := given[..n], given[n];
    var after := if e in unique then unique else unique + [e];
    assert given[..n + 1] == front + [e];
    forall i, j | 0 <= i < j < |after|
      ensures Earlier(front + [e], after[i], after[j])
    {
      if j < |unique| {
        EarlierGrows(front, after[i], after[j], [e]);
      } else {
        assert after[i] in unique;
        NewIsLast(front, after[i], e);
      }
    }
  }

  // ---------------------------------------------------------------------------
  // The world outside
  // ---------------------------------------------------------------------------

  /** What the outside does: refuse to start a request, answer it, and go on after a result or not. */
  datatype World = World(refuses: Endpoint -> Option<Reason>, answers: Endpoint -> Outcome, goesOn: Endpoint -> bool)

  function OutcomeOf(world: World, e: Endpoint): Outcome {
    var refusal := world.refuses(e);
    if refusal.Some? then Halted(refusal.value) else world.answers(e)
  }

  /** A target that is not a usable window size gives way to the default. */
  function Window(target: int, workers: nat, ceiling: nat): (size: nat)
    requires 1 <= workers <= ceiling
    ensures 1 <= size <= ceiling && (size == target || (size == workers && !(1 <= target <= ceiling)))
  {
    if 1 <= target <= ceiling then target else workers
  }

  // ---------------------------------------------------------------------------
  // The run
  // ---------------------------------------------------------------------------

  /** Endpoints that were submitted and are finished with. */
  ghost predicate Through(endpoints: seq<Endpoint>, next: nat, pending: set<Endpoint>, e: Endpoint)
    requires next <= |endpoints|
  {
    e in endpoints[..next] && e !in pending
  }

  /** `calls` lists the results handed to the consumer: once for each endpoint finished with. */
  ghost predicate CallsMatch(endpoints: seq<Endpoint>, next: nat, pending: set<Endpoint>, calls: seq<Endpoint>)
    requires next <= |endpoints|
  {
    Distinct(calls) && forall e :: e in calls <==> Through(endpoints, next, pending, e)
  }

  /** Results are held for the endpoints finished with, if they are retained, and for those being handed over. */
  ghost predicate ResultsMatch(world: World, endpoints: seq<Endpoint>, next: nat, pending: set<Endpoint>, retains: bool,
      handing: set<Endpoint>, results: map<Endpoint, Outcome>)
    requires next <= |endpoints|
  {
    && (forall e :: e in results <==> (retains && Through(endpoints, next, pending, e)) || e in handing)
    && (forall e :: e in results ==> results[e] == OutcomeOf(world, e))
  }

  /** Finishing with an endpoint. */
  lemma Finished(endpoints: seq<Endpoint>, next: nat, pending: set<Endpoint>, x: Endpoint)
    requires next <= |endpoints| && x in pending && x in endpoints[..next]
    ensures forall e :: Through(endpoints, next, pending - {x}, e) <==> Through(endpoints, next, pending, e) || e == x
  {
  }

  lemma CallsGrow(endpoints: seq<Endpoint>, next: nat, pending: set<Endpoint>, calls: seq<Endpoint>, x: Endpoint)
    requires next <= |endpoints| && x in pending && x in endpoints[..next] && CallsMatch(endpoints, next, pending, calls)
    ensures CallsMatch(endpoints, next, pending - {x}, calls + [x])
  {
    Finished(endpoints, next, pending, x);
    assert x !in calls;
  }

  lemma HandedOver(world: World, endpoints: seq<Endpoint>, next: nat, pending: set<Endpoint>, retains: bool,
      handing: set<Endpoint>, results: map<Endpoint, Outcome>, x: Endpoint)
    requires next <= |endpoints| && x in pending && x in endpoints[..next] && x in handing && handing <= pending
    requires ResultsMatch(world, endpoints, next, pending, retains, handing, results)
    ensures ResultsMatch(world, endpoints, next, pending - {x}, retains, handing - {x}, if retains then results else results - {x})
  {
    Finished(endpoints, next, pending, x);
  }

  /** Submitting an endpoint finishes with none. */
  lemma SubmittedIsPending(endpoints: seq<Endpoint>, next: nat, pending: set<Endpoint>)
    requires next < |endpoints| && Distinct(endpoints) && forall e :: e in pending ==> e in endpoints[..next]
    ensures var after := pending + {endpoints[next]};
      && (forall e :: Through(endpoints, next + 1, after, e) <==> Through(endpoints, next, pending, e))
      && (forall e :: e in after ==> e in endpoints[..next + 1])
    ensures endpoints[next] !in pending
  {
    assert endpoints[..next + 1] == endpoints[..next] + [endpoints[next]];
    assert endpoints[next] !in endpoints[..next];
  }

  lemma SubmittedKeeps(world: World, endpoints: seq<Endpoint>, next: nat, pending: set<Endpoint>, retains: bool,
      results: map<Endpoint, Outcome>, calls: seq<Endpoint>)
    requires next < |endpoints| && Distinct(endpoints) && forall e :: e in pending ==> e in endpoints[..next]
    requires ResultsMatch(world, endpoints, next, pending, retains, {}, results)
    ensures ResultsMatch(world, endpoints, next + 1, pending + {endpoints[next]}, retains, {}, results)
    ensures CallsMatch(endpoints, next, pending, calls) ==> CallsMatch(endpoints, next + 1, pending + {endpoints[next]}, calls)
    ensures endpoints[next] !in pending && forall e :: e in pending + {endpoints[next]} ==> e in endpoints[..next + 1]
  {
    SubmittedIsPending(endpoints, next, pending);
  }

  // ---------------------------------------------------------------------------
  // What is done, in order
  // ---------------------------------------------------------------------------

  /** A request is sent, its outcome looked at, its result handed to the consumer. */
  datatype Mark = Sent(e: Endpoint) | Seen(e: Endpoint) | Handed(e: Endpoint)

  /** A hard limit is seen, or the consumer objects. */
  predicate Ends(world: World, mark: Mark) {
    (mark.Seen? && OutcomeOf(world, mark.e).Halted?) || (mark.Handed? && !world.goesOn(mark.e))
  }

  function Sends(log: seq<Mark>): seq<Endpoint> {
    if log == [] then []
    else
      var last := log[|log| - 1];
      Sends(log[..|log| - 1]) + (if last.Sent? then [last.e] else [])
  }

  /** Something has ended the run. */
  predicate Ended(world: World, log: seq<Mark>) {
    log != [] && (Ends(world, log[|log| - 1]) || Ended(world, log[..|log| - 1]))
  }

  /** Whatever is sent is sent before anything has ended the run. */
  predicate QuietAfterEnd(world: World, log: seq<Mark>) {
    log == [] || (QuietAfterEnd(world, log[..|log| - 1]) && (log[|log| - 1].Sent? ==> !Ended(world, log[..|log| - 1])))
  }

  /** Why the run stops: the last hard limit seen, or the consumer's objection if there was no reason before. */
  function StopAfter(world: World, log: seq<Mark>): Option<Reason> {
    if log == [] then None
    else
      var before, last := StopAfter(world, log[..|log| - 1]), log[|log| - 1];
      if last.Seen? && OutcomeOf(world, last.e).Halted? then Some(OutcomeOf(world, last.e).reason)
      else if last.Handed? && !world.goesOn(last.e) && before.None? then Some(ByConsumer)
      else before
  }

  /** The consumer has asked to stop. */
  predicate AskedToStop(world: World, log: seq<Mark>) {
    log != [] && ((log[|log| - 1].Handed? && !world.goesOn(log[|log| - 1].e)) || AskedToStop(world, log[..|log| - 1]))
  }

  /** The endpoints are sent in their order, none after the end, and stops are noted for what the log gives as their reason. */
  predicate Orderly(world: World, stop: Option<Reason>, callbackStopped: bool, sent: seq<Endpoint>, log: seq<Mark>) {
    && Sends(log) == sent && QuietAfterEnd(world, log)
    && stop == StopAfter(world, log) && callbackStopped == AskedToStop(world, log) && (stop.Some? <==> Ended(world, log))
  }

  lemma NextIsSent(world: World, callbackStopped: bool, endpoints: seq<Endpoint>, next: nat, log: seq<Mark>)
    requires next < |endpoints| && Orderly(world, None, callbackStopped, endpoints[..next], log)
    ensures Orderly(world, None, callbackStopped, endpoints[..next + 1], log + [Sent(endpoints[next])])
  {
    assert (log + [Sent(endpoints[next])])[..|log|] == log;
    assert endpoints[..next + 1] == endpoints[..next] + [endpoints[next]];
  }

  lemma SeenKeeps(world: World, stop: Option<Reason>, callbackStopped: bool, sent: seq<Endpoint>, log: seq<Mark>, e: Endpoint)
    requires Orderly(world, stop, callbackStopped, sent, log)
    ensures var outcome := OutcomeOf(world, e);
      Orderly(world, if outcome.Halted? then Some(outcome.reason) else stop, callbackStopped, sent, log + [Seen(e)])
  {
    assert (log + [Seen(e)])[..|log|] == log;
  }

  lemma HandedKeeps(world: World, stop: Option<Reason>, callbackStopped: bool, sent: seq<Endpoint>, log: seq<Mark>, e: Endpoint)
    requires Orderly(world, stop, callbackStopped, sent, log)
    ensures Orderly(world, if !world.goesOn(e) && stop.None? then Some(ByConsumer) else stop, callbackStopped || !world.goesOn(e), sent,
      log + [Handed(e)])
  {
    assert (log + [Handed(e)])[..|log|] == log;
  }

  lemma {:induction false} EndedMeans(world: World, log: seq<Mark>, i: nat)
    requires i < |log| && Ends(world, log[i])
    ensures Ended(world, log)
    decreases |log|
  {
    if i < |log| - 1 {
      EndedMeans(world, log[..|log| - 1], i);
    }
  }

  /** No send follows, anywhere, what ends the run. */
  lemma {:induction false} NothingSentAfter(world: World, log: seq<Mark>, i: nat, j: nat)
    requires QuietAfterEnd(world, log) && i < j < |log| && Ends(world, log[i])
    ensures !log[j].Sent?
    decreases |log|
  {
    var front := log[..|log| - 1];
    if j < |log| - 1 {
      NothingSentAfter(world, front, i, j);
    } else {
      EndedMeans(world, front, i);
    }
  }

  class Run {
    const world: World
    const endpoints: seq<Endpoint>
    const workers: nat
    const ceiling: nat
    const consumes: bool
    const retains: bool
    var next: nat
    var pending: set<Endpoint>
    /** Requests that failed on being submitted; the next wait reports them. */
    var refused: set<Endpoint>
    var results: map<Endpoint, Outcome>
    var delivered: set<Endpoint>
    var stop: Option<Reason>
    var callbackStopped: bool
    ghost var calls: seq<Endpoint>
    ghost var log: seq<Mark>

    ghost predicate Sized()
      reads this
    {
      && Distinct(endpoints) && 1 <= workers <= ceiling && next <= |endpoints|
      && (forall e :: e in pending ==> e in endpoints[..next])
      && |pending| <= ceiling && refused <= pending
    }

    /** What holds while the results of `handing` are being handed over. */
    ghost predicate Handing(handing: set<Endpoint>)
      reads this
    {
      && Sized() && handing <= pending
      && (if consumes then CallsMatch(endpoints, next, pending, calls) else calls == [])
      && (forall e :: e in delivered <==> retains && e in calls)
      && ResultsMatch(world, endpoints, next, pending, retains, handing, results)
      && (forall e :: e in pending ==> (e in refused <==> world.refuses(e).Some?))
    }

    ghost predicate Logged()
      reads this
    {
      next <= |endpoints| && Orderly(world, stop, callbackStopped, endpoints[..next], log)
    }

    ghost predicate Valid()
      reads this
    {
      Handing({}) && Logged()
    }

    constructor (world: World, endpoints: seq<Endpoint>, workers: nat, ceiling: nat, consumes: bool, retains: bool)
      requires Distinct(endpoints) && 1 <= workers <= ceiling
      ensures Valid() && this.world == world && this.endpoints == endpoints && this.ceiling == ceiling
      ensures this.consumes == consumes && this.retains == retains && next == 0 && pending == {} && refused == {} && stop.None?
    {
      this.world, this.endpoints, this.workers, this.ceiling := world, endpoints, workers, ceiling;
      this.consumes, this.retains := consumes, retains;
      next, pending, refused, results, delivered, stop, callbackStopped, calls := 0, {}, {}, map[], {}, None, false, [];
      log := [];
    }

    /** Fills the window, up to the first request that is refused. */
    method Submit(target: int)
      requires Valid() && refused == {} && stop.None?
      modifies `next, `pending, `refused, `log
      ensures Valid() && next >= old(next) && old(pending) <= pending
      ensures pending != {} || next == |endpoints|
      ensures |pending| >= Window(target, workers, ceiling) || next == |endpoints| || refused != {}
    {
      var size := Window(target, workers, ceiling);
      while |pending| < size && next < |endpoints| && refused == {}
        invariant Valid() && next >= old(next) && size <= ceiling && old(pending) <= pending
        decreases |endpoints| - next
      {
        SubmitOne();
      }
    }

    method SubmitOne()
      requires Valid() && refused == {} && stop.None? && |pending| < ceiling && next < |endpoints|
      modifies `next, `pending, `refused, `log
      ensures Valid() && next == old(next) + 1 && pending == old(pending) + {endpoints[old(next)]}
    {
      NextIsSent(world, callbackStopped, endpoints, next, log);
      log := log + [Sent(endpoints[next])];
      Start();
    }

    method Start()
      requires Handing({}) && refused == {} && |pending| < ceiling && next < |endpoints|
      modifies `next, `pending, `refused
      ensures Handing({}) && next == old(next) + 1 && pending == old(pending) + {endpoints[old(next)]}
    {
      var e := endpoints[next];
      SubmittedKeeps(world, endpoints, next, pending, retains, results, calls);
      pending := pending + {e};
      if world.refuses(e).Some? {
        refused := {e};
      }
      next := next + 1;
    }

    /** Takes in one outcome. */
    method LookAt(e: Endpoint, ghost done: set<Endpoint>)
      requires Handing(done) && Logged() && e in pending
      modifies `results, `stop, `log
      ensures Handing(done + {e}) && Logged()
      ensures stop == if OutcomeOf(world, e).Halted? then Some(OutcomeOf(world, e).reason) else old(stop)
    {
      var outcome := OutcomeOf(world, e);
      results := results[e := outcome];
      SeenKeeps(world, stop, callbackStopped, endpoints[..next], log, e);
      log := log + [Seen(e)];
      if outcome.Halted? {
        stop := Some(outcome.reason);
      }
    }

    /** The stop is that of a hard limit among these outcomes; without one it stays. */
    ghost predicate StopOf(seen: set<Endpoint>, before: Option<Reason>, after: Option<Reason>) {
      if exists e :: e in seen && OutcomeOf(world, e).Halted? then
        after.Some? && exists e :: e in seen && OutcomeOf(world, e) == Halted(after.value)
      else after == before
    }

    lemma StopMore(done: set<Endpoint>, e: Endpoint, before: Option<Reason>, stop: Option<Reason>)
      requires StopOf(done, before, stop)
      ensures StopOf(done + {e}, before, if OutcomeOf(world, e).Halted? then Some(OutcomeOf(world, e).reason) else stop)
    {
      if !OutcomeOf(world, e).Halted? && exists x :: x in done && OutcomeOf(world, x).Halted? {
        var x :| x in done && OutcomeOf(world, x) == Halted(stop.value);
        assert x in done + {e};
      } else {
        assert e in done + {e};
      }
    }

    /** Looks at every outcome before any is handed over, so that a hard limit is known in time. */
    method Collect(completed: set<Endpoint>)
      requires Valid() && completed <= pending
      modifies `results, `stop, `log
      ensures Handing(completed) && Logged() && StopOf(completed, old(stop), stop)
    {
      var todo := completed;
      ghost var done: set<Endpoint> := {};
      while todo != {}
        invariant todo + done == completed && todo !! done
        invariant Handing(done) && Logged() && StopOf(done, old(stop), stop)
        decreases todo
      {
        var e := Pick(todo);
        StopMore(done, e, old(stop), stop);
        LookAt(e, done);
        done, todo := done + {e}, todo - {e};
      }
      assert done == completed;
    }

    /** Calls the consumer, who may ask to stop. */
    method Consume(e: Endpoint)
      requires Logged()
      modifies `delivered, `stop, `callbackStopped, `calls, `log
      ensures Logged() && delivered == old(delivered) + {e} && calls == old(calls) + [e]
      ensures stop == if !world.goesOn(e) && old(stop).None? then Some(ByConsumer) else old(stop)
      ensures callbackStopped == (old(callbackStopped) || !world.goesOn(e))
    {
      delivered := delivered + {e};
      calls := calls + [e];
      HandedKeeps(world, stop, callbackStopped, endpoints[..next], log, e);
      log := log + [Handed(e)];
      if !world.goesOn(e) {
        callbackStopped := true;
        if stop.None? {
          stop := Some(ByConsumer);
        }
      }
    }

    /** Hands one result over, once, and lets go of the endpoint. */
    method Deliver(e: Endpoint, ghost handing: set<Endpoint>)
      requires Handing(handing) && Logged() && e in handing
      modifies `pending, `refused, `results, `delivered, `stop, `callbackStopped, `calls, `log
      ensures Handing(handing - {e}) && Logged() && pending == old(pending) - {e} && refused == old(refused) - {e}
      ensures calls == if consumes then old(calls) + [e] else old(calls)
      ensures stop == if consumes && !world.goesOn(e) && old(stop).None? then Some(ByConsumer) else old(stop)
    {
      HandedOver(world, endpoints, next, pending, retains, handing, results, e);
      if consumes && e !in delivered {
        CallsGrow(endpoints, next, pending, calls, e);
        Consume(e);
      }
      pending, refused := pending - {e}, refused - {e};
      if !retains {
        results := results - {e};
        delivered := delivered - {e};
      }
    }

    /** The consumer asks to stop after one of these results. */
    ghost predicate Objected(done: set<Endpoint>) {
      exists e :: e in done && !world.goesOn(e)
    }

    /** A hard limit is among these results, or the consumer asks to stop after one. */
    ghost predicate EndsRun(completed: set<Endpoint>) {
      (exists e :: e in completed && OutcomeOf(world, e).Halted?) || (consumes && Objected(completed))
    }

    lemma OneObjects(done: set<Endpoint>, e: Endpoint)
      ensures Objected(done + {e}) <==> Objected(done) || !world.goesOn(e)
    {
      if Objected(done) {
        var x :| x in done && !world.goesOn(x);
        assert x in done + {e};
      }
      if !world.goesOn(e) {
        assert e in done + {e};
      }
    }

    method DeliverAll(completed: set<Endpoint>)
      requires Handing(completed) && Logged()
      modifies `pending, `refused, `results, `delivered, `stop, `callbackStopped, `calls, `log
      ensures Valid() && pending == old(pending) - completed && refused == old(refused) - completed
      ensures old(stop).Some? ==> stop == old(stop)
      ensures consumes && old(stop).None? ==> (stop.Some? <==> Objected(completed))
      ensures !consumes ==> stop == old(stop)
    {
      var todo := completed;
      ghost var done: set<Endpoint> := {};
      while todo != {}
        invariant Handing(todo) && Logged() && forall e :: e in completed <==> e in todo || e in done
        invariant forall e :: e in pending <==> e in old(pending) && e !in done
        invariant forall e :: e in refused <==> e in old(refused) && e !in done
        invariant old(stop).Some? ==> stop == old(stop)
        invariant consumes && old(stop).None? ==> (stop.Some? <==> Objected(done))
        invariant !consumes ==> stop == old(stop)
        decreases todo
      {
        var e := Pick(todo);
        OneObjects(done, e);
        Deliver(e, todo);
        done, todo := done + {e}, todo - {e};
      }
      SameElements(done, completed);
    }

    /** One turn: some requests complete, their results are handed over, and the window is refilled unless a stop was seen. */
    method Turn(batch: set<Endpoint>, target: int)
      requires Valid()
      modifies this
      ensures Valid() && next >= old(next)
      ensures old(stop).Some? ==> stop.Some?
      ensures stop.Some? ==> next == old(next)
      ensures stop.None? ==> pending != {} || next == |endpoints|
      ensures stop.None? ==> |pending| >= Window(target, workers, ceiling) || next == |endpoints| || refused != {}
      ensures stop.Some? ==> pending == old(pending) - (batch * old(pending) + old(refused))
      ensures old(stop).None? ==> (stop.Some? <==> EndsRun(batch * old(pending) + old(refused)))
    {
      Complete(batch * pending + refused);
      if stop.None? {
        Submit(target);
      }
    }

    /** Takes in what has completed; nothing new is submitted. */
    method Complete(completed: set<Endpoint>)
      requires Valid() && completed <= pending && refused <= completed
      modifies this
      ensures Valid() && next == old(next) && refused == {} && pending == old(pending) - completed
      ensures old(stop).Some? ==> stop.Some?
      ensures old(stop).None? ==> (stop.Some? <==> EndsRun(completed))
    {
      Collect(completed);
      DeliverAll(completed);
    }

    /** The results of all endpoints in their order; those never submitted get the reason why. */
    method Report() returns (report: seq<(Endpoint, Outcome)>)
      requires Valid() && pending == {} && (stop.Some? || next == |endpoints|)
      ensures !retains ==> report == []
      ensures retains ==> |report| == |endpoints| && forall i :: 0 <= i < |endpoints| ==>
        report[i] == (endpoints[i], if i < next then OutcomeOf(world, endpoints[i]) else Halted(if callbackStopped then ByConsumer else stop.value))
    {
      report := [];
      if !retains {
        return;
      }
      for i := 0 to |endpoints|
        invariant |report| == i && forall j :: 0 <= j < i ==>
          report[j] == (endpoints[j], if j < next then OutcomeOf(world, endpoints[j]) else Halted(if callbackStopped then ByConsumer else stop.value))
      {
        var e := endpoints[i];
        if i < next {
          assert endpoints[..next][i] == e;
          assert Through(endpoints, next, pending, e);
          report := report + [(e, results[e])];
        } else {
          report := report + [(e, Halted(if callbackStopped then ByConsumer else stop.value))];
        }
      }
    }
  }

  /** What happens outside during one wait: which requests complete, and what window is asked for next. */
  datatype Event = Event(completed: set<Endpoint>, target: int)

  /** Runs through the given events, or until nothing is in flight. */
  method Prefetch(given: seq<Endpoint>, world: World, workers: nat, ceiling: nat, consumes: bool, retains: bool, target: int, events: seq<Event>)
      returns (run: Run, finished: bool, report: seq<(Endpoint, Outcome)>)
    requires 1 <= workers <= ceiling
    ensures run.Valid() && run.world == world && run.ceiling == ceiling && run.consumes == consumes && run.retains == retains
    ensures FirstOccurrences(given, run.endpoints) && |run.pending| <= ceiling
    ensures finished <==> run.pending == {}
    ensures Sends(run.log) == run.endpoints[..run.next] && QuietAfterEnd(world, run.log)
    ensures finished ==> run.next == |run.endpoints| || Ended(world, run.log)
    ensures finished && consumes ==> Distinct(run.calls) && forall e :: e in run.calls <==> e in run.endpoints[..run.next]
    ensures finished && retains ==> |report| == |run.endpoints| && forall i :: 0 <= i < |report| ==> report[i].0 == run.endpoints[i]
    ensures finished && retains ==> forall i :: 0 <= i < run.next ==> report[i].1 == OutcomeOf(world, run.endpoints[i])
    ensures finished && retains ==> forall i :: run.next <= i < |report| ==>
      (AskedToStop(world, run.log) || StopAfter(world, run.log).Some?)
      && report[i].1 == Halted(if AskedToStop(world, run.log) then ByConsumer else StopAfter(world, run.log).value)
    ensures !retains ==> report == []
  {
    var endpoints := Unique(given);
    run := new Run(world, endpoints, workers, ceiling, consumes, retains);
    run.Submit(target);
    for i := 0 to |events|
      invariant fresh(run) && run.Valid() && run.endpoints == endpoints
      invariant run.world == world && run.ceiling == ceiling && run.consumes == consumes && run.retains == retains
      invariant run.pending != {} || run.stop.Some? || run.next == |endpoints|
    {
      if run.pending == {} {
        break;
      }
      run.Turn(events[i].completed, events[i].target);
    }
    finished := run.pending == {};
    report := [];
    if finished {
      report := run.Report();
    }
  }
}
