/** Deleting a remote board under a durable receipt.

The receipt is saved before the request goes out, so a crash or a lost reply
leaves it pending. Only replies that prove the request did nothing may make the
board writable again, and only while no earlier request is in doubt. */
module BoardDeletion {
  import opened Runs

  datatype Receipt = NoReceipt | Pending | Uncertain | Rejected | Deleted

  /** What is known of a request that was sent: nothing, or its HTTP status. */
  datatype Fate = Unknown | Status(code: int)

  /** One attempt in progress; `doubt` says an earlier request may have succeeded. */
  datatype Phase = Idle | Intending(doubt: bool) | Waiting(doubt: bool) | Answered(doubt: bool, reply: Fate)

  /** `sent` lists all requests ever sent; `writing` says another operation holds the board's lock. */
  datatype State = State(receipt: Receipt, phase: Phase, writing: bool, sent: seq<Fate>)

  const REJECTIONS: set<int> := {400, 401, 403, 405, 422, 429}

  /** The reply proves that the board was not deleted. */
  predicate Refused(fate: Fate) {
    fate.Status? && fate.code in REJECTIONS
  }

  predicate Writable(receipt: Receipt) {
    receipt.NoReceipt? || receipt.Rejected?
  }

  function Start(): State {
    State(NoReceipt, Idle, false, [])
  }

  /** What the receipt says after a reply. */
  function Outcome(doubt: bool, reply: Fate): Receipt {
    if reply == Status(204) then Deleted
    else if !doubt && Refused(reply) then Rejected
    else Uncertain
  }

  datatype Action =
    /** Save the pending receipt, under the board's lock. */
    | Intend
    | Send
    /** A reply arrives, or none ever will. */
    | Reply(fate: Fate)
    /** Save the outcome; a failed save leaves the pending receipt. */
    | Conclude(saved: bool)
    | Crash
    | BeginWrite
    | EndWrite

  predicate Enabled(s: State, action: Action) {
    match action
    case Intend => s.phase.Idle? && !s.writing && !s.receipt.Deleted?
    case Send => s.phase.Intending?
    case Reply(_) => s.phase.Waiting? && s.sent != []
    case Conclude(_) => s.phase.Answered?
    case Crash => true
    case BeginWrite => s.phase.Idle? && !s.writing && Writable(s.receipt)
    case EndWrite => s.writing
  }

  function After(s: State, action: Action): State
    requires Enabled(s, action)
  {
    match action
    case Intend => s.(receipt := Pending, phase := Intending(s.receipt.Pending? || s.receipt.Uncertain?))
    case Send => s.(phase := Waiting(s.phase.doubt), sent := s.sent + [Unknown])
    case Reply(fate) => s.(phase := Answered(s.phase.doubt, fate), sent := s.sent[|s.sent| - 1 := fate])
    case Conclude(saved) => s.(receipt := if saved then Outcome(s.phase.doubt, s.phase.reply) else s.receipt, phase := Idle)
    case Crash => s.(phase := Idle, writing := false)
    case BeginWrite => s.(writing := true)
    case EndWrite => s.(writing := false)
  }

  // ---------------------------------------------------------------------------
  // What every step keeps
  // ---------------------------------------------------------------------------

  ghost predicate AllRefused(sent: seq<Fate>) {
    forall i :: 0 <= i < |sent| ==> Refused(sent[i])
  }

  predicate LastIs(sent: seq<Fate>, fate: Fate) {
    sent != [] && sent[|sent| - 1] == fate
  }

  ghost predicate EarlierRefused(sent: seq<Fate>) {
    forall i :: 0 <= i < |sent| - 1 ==> Refused(sent[i])
  }

  /** What is certain about the requests before the one in progress. */
  ghost predicate PhaseSound(s: State) {
    match s.phase
    case Idle => true
    case Intending(doubt) => s.receipt.Pending? && !s.writing && (!doubt ==> AllRefused(s.sent))
    case Waiting(doubt) => s.receipt.Pending? && !s.writing && LastIs(s.sent, Unknown) && (!doubt ==> EarlierRefused(s.sent))
    case Answered(doubt, reply) => s.receipt.Pending? && !s.writing && LastIs(s.sent, reply) && (!doubt ==> EarlierRefused(s.sent))
  }

  ghost predicate Sound(s: State) {
    && (s.receipt.NoReceipt? ==> s.sent == [])
    && (s.receipt.Rejected? ==> AllRefused(s.sent))
    && (s.receipt.Deleted? ==> Status(204) in s.sent)
    && (s.writing ==> Writable(s.receipt))
    && PhaseSound(s)
  }

  lemma ConcludeKeeps(s: State, saved: bool)
    requires Sound(s) && Enabled(s, Conclude(saved))
    ensures Sound(After(s, Conclude(saved)))
  {
    var n := |s.sent| - 1;
    assert s.sent[n] == s.phase.reply && s.sent[n] in s.sent;
  }

  lemma StepKeeps(s: State, action: Action)
    requires Sound(s) && Enabled(s, action)
    ensures Sound(After(s, action))
    ensures |s.sent| <= |After(s, action).sent|
    ensures forall i :: 0 <= i < |s.sent| && !s.sent[i].Unknown? ==> After(s, action).sent[i] == s.sent[i]
  {
    match action {
      case Conclude(saved) => ConcludeKeeps(s, saved);
      case _ =>
    }
  }

  function Next(s: State, action: Action): State {
    if Enabled(s, action) then After(s, action) else s
  }

  function Steps(): Machine<State, Action> {
    Machine(Enabled, Next)
  }

  lemma AlwaysSound(s: State, actions: seq<Action>)
    requires Sound(s) && Possible(Steps(), s, actions)
    ensures Sound(AfterAll(Steps(), s, actions))
  {
    forall t, a | Sound(t) && Enabled(t, a)
      ensures Sound(Next(t, a))
    {
      StepKeeps(t, a);
    }
    RunKeeps(Steps(), s, actions, Sound);
  }

  // ---------------------------------------------------------------------------
  // What the receipt is worth
  // ---------------------------------------------------------------------------

  /** Whenever the board may be written, or is being written, every request ever sent was definitely refused. */
  lemma WritableMeansRefused(actions: seq<Action>)
    requires Possible(Steps(), Start(), actions)
    ensures var s := AfterAll(Steps(), Start(), actions); (Writable(s.receipt) || s.writing) ==> AllRefused(s.sent)
  {
    AlwaysSound(Start(), actions);
  }

  /** A deletion is recorded only after it was confirmed. */
  lemma DeletedMeansConfirmed(actions: seq<Action>)
    requires Possible(Steps(), Start(), actions)
    ensures var s := AfterAll(Steps(), Start(), actions); s.receipt.Deleted? ==> Status(204) in s.sent
  {
    AlwaysSound(Start(), actions);
  }

  /** A request in doubt that no attempt is waiting for stays in doubt. */
  predicate Lost(s: State, i: nat) {
    i < |s.sent| && !Refused(s.sent[i]) && (s.phase.Waiting? ==> i < |s.sent| - 1 || !s.sent[i].Unknown?)
  }

  lemma LostStays(s: State, action: Action, i: nat)
    requires Sound(s) && Enabled(s, action) && Lost(s, i)
    ensures Lost(After(s, action), i)
  {
    StepKeeps(s, action);
  }

  /** Once a request was sent whose refusal was never seen, no later refusal makes the board writable. */
  lemma {:induction false} NeverWritableAgain(s: State, actions: seq<Action>, i: nat)
    requires Sound(s) && Possible(Steps(), s, actions) && Lost(s, i)
    ensures !Writable(AfterAll(Steps(), s, actions).receipt) && !AfterAll(Steps(), s, actions).writing
    decreases |actions|
  {
    if actions != [] {
      StepKeeps(s, actions[0]);
      LostStays(s, actions[0], i);
      NeverWritableAgain(After(s, actions[0]), actions[1..], i);
    }
  }

  /** After a recorded deletion nothing more is sent, and the record stands. */
  lemma {:induction false} DeletedIsFinal(s: State, actions: seq<Action>)
    requires s.receipt.Deleted? && s.phase.Idle? && Possible(Steps(), s, actions)
    ensures var after := AfterAll(Steps(), s, actions); after.receipt.Deleted? && after.sent == s.sent
    decreases |actions|
  {
    if actions != [] {
      DeletedIsFinal(After(s, actions[0]), actions[1..]);
    }
  }

  // ---------------------------------------------------------------------------
  // The operation itself
  // ---------------------------------------------------------------------------

  datatype Result = Done | WasRejected | InDoubt | NotSaved

  /** The steps of an attempt that is not interrupted. */
  function Attempt(reply: Fate, saved: bool): seq<Action> {
    [Intend] + [Send] + [Reply(reply)] + [Conclude(saved)]
  }

  lemma AttemptRuns(s: State, reply: Fate, saved: bool)
    requires Enabled(s, Intend)
    ensures Possible(Steps(), s, Attempt(reply, saved))
    ensures var after := AfterAll(Steps(), s, Attempt(reply, saved));
      && after.phase.Idle? && !after.writing && after.sent == s.sent + [reply]
      && after.receipt == if saved then Outcome(s.receipt.Pending? || s.receipt.Uncertain?, reply) else Pending
  {
    var m := Steps();
    RunOne(m, s, Intend);
    RunNext(m, s, [Intend], Send);
    RunNext(m, s, [Intend] + [Send], Reply(reply));
    RunNext(m, s, [Intend] + [Send] + [Reply(reply)], Conclude(saved));
    assert (s.sent + [Unknown])[|s.sent| := reply] == s.sent + [reply];
  }

  class Board {
    var receipt: Receipt
    /** Everything that has happened to this board, while no attempt is in progress. */
    ghost var state: State

    ghost predicate Valid()
      reads this
    {
      Sound(state) && state.phase.Idle? && !state.writing && state.receipt == receipt
    }

    constructor ()
      ensures Valid() && state == Start()
    {
      receipt := NoReceipt;
      state := Start();
    }

    /** Deletes the board unless that is already recorded. `reply` is what the request brings, `saved` whether its outcome can be saved. */
    method Delete(reply: Fate, saved: bool) returns (result: Result)
      requires Valid()
      modifies this
      ensures Valid()
      ensures old(receipt).Deleted? ==> result.Done? && state == old(state)
      ensures !old(receipt).Deleted? ==> state.sent == old(state).sent + [reply]
      ensures !old(receipt).Deleted? ==> receipt == if saved then Outcome(old(receipt).Pending? || old(receipt).Uncertain?, reply) else Pending
      ensures result.Done? <==> receipt.Deleted?
      ensures result.WasRejected? <==> !old(receipt).Deleted? && saved && receipt.Rejected?
    {
      if receipt.Deleted? {
        return Done;
      }
      AttemptRuns(state, reply, saved);
      AlwaysSound(state, Attempt(reply, saved));
      state := AfterAll(Steps(), state, Attempt(reply, saved));
      var doubt := receipt.Pending? || receipt.Uncertain?;
      receipt := Pending;
      if reply.Unknown? {
        if saved {
          receipt := Uncertain;
        }
        return InDoubt;
      }
      if reply.code != 204 {
        var rejected := !doubt && reply.code in REJECTIONS;
        if !saved {
          return NotSaved;
        }
        receipt := if rejected then Rejected else Uncertain;
        return if rejected then WasRejected else InDoubt;
      }
      if !saved {
        return NotSaved;
      }
      receipt := Deleted;
      return Done;
    }

    /** Whether other operations may change the board. */
    method CanWrite() returns (writable: bool)
      requires Valid()
      ensures writable <==> Writable(receipt)
      ensures writable ==> AllRefused(state.sent)
    {
      writable := !(receipt.Pending? || receipt.Uncertain? || receipt.Deleted?);
    }
  }
}
