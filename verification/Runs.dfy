/** Runs of a state machine: sequences of actions, each possible when its turn comes. */
module Runs {

  datatype Machine<!S, !A> = Machine(enabled: (S, A) -> bool, after: (S, A) -> S)

  predicate Possible<S, A>(m: Machine<S, A>, s: S, actions: seq<A>)
    decreases |actions|
  {
    actions == [] || (m.enabled(s, actions[0]) && Possible(m, m.after(s, actions[0]), actions[1..]))
  }

  function AfterAll<S, A>(m: Machine<S, A>, s: S, actions: seq<A>): S
    decreases |actions|
  {
    if actions == [] then s else AfterAll(m, m.after(s, actions[0]), actions[1..])
  }

  /** Every action of the run satisfies a condition on the state it meets. */
  predicate Throughout<S, A>(m: Machine<S, A>, s: S, actions: seq<A>, allowed: (S, A) -> bool)
    decreases |actions|
  {
    actions == [] || (allowed(s, actions[0]) && Throughout(m, m.after(s, actions[0]), actions[1..], allowed))
  }

  /** What every allowed step keeps, every allowed run keeps. */
  lemma {:induction false} AllowedRunKeeps<S(!new), A(!new)>(m: Machine<S, A>, s: S, actions: seq<A>, allowed: (S, A) -> bool, kept: S -> bool)
    requires forall t, a :: kept(t) && m.enabled(t, a) && allowed(t, a) ==> kept(m.after(t, a))
    requires kept(s) && Possible(m, s, actions) && Throughout(m, s, actions, allowed)
    ensures kept(AfterAll(m, s, actions))
    decreases |actions|
  {
    if actions != [] {
      AllowedRunKeeps(m, m.after(s, actions[0]), actions[1..], allowed, kept);
    }
  }

  /** What every step keeps, every run keeps. */
  lemma {:induction false} RunKeeps<S(!new), A(!new)>(m: Machine<S, A>, s: S, actions: seq<A>, kept: S -> bool)
    requires forall t, a :: kept(t) && m.enabled(t, a) ==> kept(m.after(t, a))
    requires kept(s) && Possible(m, s, actions)
    ensures kept(AfterAll(m, s, actions))
    decreases |actions|
  {
    if actions != [] {
      RunKeeps(m, m.after(s, actions[0]), actions[1..], kept);
    }
  }

  lemma {:induction false} RunsJoin<S, A>(m: Machine<S, A>, s: S, first: seq<A>, second: seq<A>)
    requires Possible(m, s, first) && Possible(m, AfterAll(m, s, first), second)
    ensures Possible(m, s, first + second) && AfterAll(m, s, first + second) == AfterAll(m, AfterAll(m, s, first), second)
    decreases |first|
  {
    if first == [] {
      assert first + second == second;
    } else {
      RunsJoin(m, m.after(s, first[0]), first[1..], second);
      assert (first + second)[1..] == first[1..] + second;
    }
  }

  /** One more action at the end of a run. */
  lemma RunNext<S, A>(m: Machine<S, A>, s: S, actions: seq<A>, action: A)
    requires Possible(m, s, actions) && m.enabled(AfterAll(m, s, actions), action)
    ensures Possible(m, s, actions + [action])
    ensures AfterAll(m, s, actions + [action]) == m.after(AfterAll(m, s, actions), action)
  {
    var t := AfterAll(m, s, actions);
    assert [action][1..] == [];
    assert Possible(m, m.after(t, action), []) && AfterAll(m, m.after(t, action), []) == m.after(t, action);
    RunsJoin(m, s, actions, [action]);
  }

  lemma RunOne<S, A>(m: Machine<S, A>, s: S, action: A)
    requires m.enabled(s, action)
    ensures Possible(m, s, [action]) && AfterAll(m, s, [action]) == m.after(s, action)
  {
    assert [] + [action] == [action];
    RunNext(m, s, [], action);
  }

  lemma {:induction false} AllowedJoin<S, A>(m: Machine<S, A>, s: S, first: seq<A>, second: seq<A>, allowed: (S, A) -> bool)
    ensures Throughout(m, s, first + second, allowed) <==>
      Throughout(m, s, first, allowed) && Throughout(m, AfterAll(m, s, first), second, allowed)
    decreases |first|
  {
    if first == [] {
      assert first + second == second;
    } else {
      AllowedJoin(m, m.after(s, first[0]), first[1..], second, allowed);
      assert (first + second)[1..] == first[1..] + second;
    }
  }

  lemma AllowedNext<S, A>(m: Machine<S, A>, s: S, actions: seq<A>, action: A, allowed: (S, A) -> bool)
    ensures Throughout(m, s, actions + [action], allowed) <==>
      Throughout(m, s, actions, allowed) && allowed(AfterAll(m, s, actions), action)
  {
    assert [action][1..] == [];
    AllowedJoin(m, s, actions, [action], allowed);
  }
}
