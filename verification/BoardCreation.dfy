/** Creating one remote board for a case under a durable receipt.

The intent is saved before the request, and an intent without a definite refusal
is never followed by another request. */
module BoardCreation {
  import opened Options
  import opened Runs

  datatype BoardId = BoardId(id: nat)

  datatype Receipt = NoReceipt | Pending | Created(board: BoardId) | Rejected

  /** What is known of a request that was sent: nothing, or its status and the board it names. */
  datatype Fate = Unknown | Status(code: int, board: Option<BoardId>)

  datatype Phase = Idle | Intending | Waiting | Answered(reply: Fate) | Recorded(board: BoardId)

  /** `link` is the case's board; it can also be set and cleared by other means. */
  datatype State = State(receipt: Receipt, link: Option<BoardId>, phase: Phase, sent: seq<Fate>)

  /** A client error, other than a request that may still have been carried out. */
  predicate Refused(fate: Fate) {
    fate.Status? && 400 <= fate.code < 500 && fate.code != 408
  }

  predicate Acknowledged(fate: Fate) {
    fate.Status? && fate.code == 201 && fate.board.Some?
  }

  function Start(): State {
    State(NoReceipt, None, Idle, [])
  }

  datatype Action =
    /** Save the intent; refused while a board is linked or a receipt is pending or created. */
    | Intend
    | Send
    | Reply(fate: Fate)
    /** Save what the reply means; a failed save leaves the pending receipt. */
    | Conclude(saved: bool)
    /** Link the recorded board, also at a later try from the receipt alone; a failed save leaves the link as it was. */
    | Link(stored: bool)
    | Relink(board: Option<BoardId>)
    | Crash

  predicate Enabled(s: State, action: Action) {
    match action
    case Intend => s.phase.Idle? && s.link.None? && (s.receipt.NoReceipt? || s.receipt.Rejected?)
    case Send => s.phase.Intending?
    case Reply(_) => s.phase.Waiting? && s.sent != []
    case Conclude(_) => s.phase.Answered?
    case Link(_) => s.phase.Recorded? || (s.phase.Idle? && s.receipt.Created? && s.link.None?)
    case Relink(_) => s.phase.Idle?
    case Crash => true
  }

  function After(s: State, action: Action): State
    requires Enabled(s, action)
  {
    match action
    case Intend => s.(receipt := Pending, phase := Intending)
    case Send => s.(phase := Waiting, sent := s.sent + [Unknown])
    case Reply(fate) => s.(phase := Answered(fate), sent := s.sent[|s.sent| - 1 := fate])
    case Conclude(saved) =>
      if !saved then s.(phase := Idle)
      else if Acknowledged(s.phase.reply) then s.(receipt := Created(s.phase.reply.board.value), phase := Recorded(s.phase.reply.board.value))
      else if Refused(s.phase.reply) then s.(receipt := Rejected, phase := Idle)
      else s.(phase := Idle)
    case Link(stored) => s.(link := if stored then Some(if s.phase.Recorded? then s.phase.board else s.receipt.board) else s.link, phase := Idle)
    case Relink(board) => s.(link := board)
    case Crash => s.(phase := Idle)
  }

  ghost predicate AllRefused(sent: seq<Fate>) {
    forall i :: 0 <= i < |sent| ==> Refused(sent[i])
  }

  /** All requests but the last were definitely refused. */
  ghost predicate OnlyLastOpen(sent: seq<Fate>) {
    forall i :: 0 <= i < |sent| - 1 ==> Refused(sent[i])
  }

  ghost predicate PhaseSound(s: State) {
    match s.phase
    case Idle => true
    case Intending => s.receipt.Pending? && AllRefused(s.sent)
    case Waiting => s.receipt.Pending? && s.sent != [] && s.sent[|s.sent| - 1].Unknown?
    case Answered(reply) => s.receipt.Pending? && s.sent != [] && s.sent[|s.sent| - 1] == reply
    case Recorded(board) => s.receipt == Created(board)
  }

  ghost predicate Sound(s: State) {
    && OnlyLastOpen(s.sent)
    && (s.receipt.NoReceipt? ==> s.sent == [])
    && (s.receipt.Rejected? ==> AllRefused(s.sent))
    && (s.receipt.Created? ==> s.sent != [] && s.sent[|s.sent| - 1] == Status(201, Some(s.receipt.board)))
    && PhaseSound(s)
  }

  lemma StepKeeps(s: State, action: Action)
    requires Sound(s) && Enabled(s, action)
    ensures Sound(After(s, action))
  {
    if action.Conclude? && Refused(s.phase.reply) {
      assert s.sent == s.sent[..|s.sent| - 1] + [s.phase.reply];
    }
  }

  function Next(s: State, action: Action): State {
    if Enabled(s, action) then After(s, action) else s
  }

  function Steps(): Machine<State, Action> {
    Machine(Enabled, Next)
  }

  lemma AlwaysSound(s: State, actions: seq<Action>)
    requires Sound(s) && Possible(Steps(), s, actions)
    ensures Sound(AfterAll(Steps(), s, actions))
  {
    forall t, a | Sound(t) && Enabled(t, a)
      ensures Sound(Next(t, a))
    {
      StepKeeps(t, a);
    }
    RunKeeps(Steps(), s, actions, Sound);
  }

  /** Over all runs, at most one creation request was not definitely refused. */
  lemma AtMostOneCreation(actions: seq<Action>, i: nat, j: nat)
    requires Possible(Steps(), Start(), actions)
    ensures var sent := AfterAll(Steps(), Start(), actions).sent;
      i < |sent| && j < |sent| && !Refused(sent[i]) && !Refused(sent[j]) ==> i == j
  {
    AlwaysSound(Start(), actions);
  }

  /** A created receipt names the board that the last request was acknowledged with. */
  lemma CreatedIsAcknowledged(actions: seq<Action>)
    requires Possible(Steps(), Start(), actions)
    ensures var s := AfterAll(Steps(), Start(), actions);
      s.receipt.Created? ==> s.sent != [] && s.sent[|s.sent| - 1] == Status(201, Some(s.receipt.board))
  {
    AlwaysSound(Start(), actions);
  }

  /** A request is outstanding, or known not to have been refused. */
  predicate Open(s: State) {
    s.receipt.Pending? || s.receipt.Created?
  }

  /** Unless an intent ends in a recorded refusal, no further request is ever sent. */
  lemma {:induction false} NoSecondRequest(s: State, actions: seq<Action>)
    requires Sound(s) && Open(s) && s.phase.Idle? && Possible(Steps(), s, actions)
    ensures AfterAll(Steps(), s, actions).sent == s.sent
    decreases |actions|
  {
    if actions != [] {
      StepKeeps(s, actions[0]);
      NoSecondRequest(After(s, actions[0]), actions[1..]);
    }
  }

  // ---------------------------------------------------------------------------
  // The operation itself
  // ---------------------------------------------------------------------------

  /** What a caller learns: the board, that the linked or recorded board is blocked, or why there is none. */
  datatype Result = Made(board: BoardId) | Reused(board: BoardId) | Blocked(board: BoardId) | WasRejected | InDoubt | NotSaved
    | NotLinked(board: BoardId)

  /** The steps of an attempt that is not interrupted before the receipt is saved. */
  function Attempt(reply: Fate, saved: bool): seq<Action> {
    [Intend] + [Send] + [Reply(reply)] + [Conclude(saved)]
  }

  function Outcome(reply: Fate): Receipt {
    if Acknowledged(reply) then Created(reply.board.value) else if Refused(reply) then Rejected else Pending
  }

  lemma AttemptRuns(s: State, reply: Fate, saved: bool)
    requires Enabled(s, Intend)
    ensures Possible(Steps(), s, Attempt(reply, saved))
    ensures var after := AfterAll(Steps(), s, Attempt(reply, saved));
      && after.sent == s.sent + [reply] && after.link == s.link
      && after.receipt == (if saved then Outcome(reply) else Pending)
      && after.phase == if saved && Acknowledged(reply) then Recorded(reply.board.value) else Idle
  {
    var m := Steps();
    RunOne(m, s, Intend);
    RunNext(m, s, [Intend], Send);
    RunNext(m, s, [Intend] + [Send], Reply(reply));
    RunNext(m, s, [Intend] + [Send] + [Reply(reply)], Conclude(saved));
    assert (s.sent + [Unknown])[|s.sent| := reply] == s.sent + [reply];
  }

  class Case {
    var receipt: Receipt
    var link: Option<BoardId>
    ghost var state: State

    ghost predicate Valid()
      reads this
    {
      Sound(state) && state.phase.Idle? && state.receipt == receipt && state.link == link
    }

    constructor ()
      ensures Valid() && state == Start()
    {
      receipt, link := NoReceipt, None;
      state := Start();
    }

    /** Nothing is linked, recorded or in doubt. */
    predicate IsFree()
      reads this
    {
      link.None? && (receipt.NoReceipt? || receipt.Rejected?)
    }

    /** Gives the case a board: the linked one, the one already created, or a new one.

    `reply` is what a request brings, `saved` and `stored` whether the receipt and the link can be written,
    and `writable` what the deletion receipts say of a board. */
    method Create(reply: Fate, saved: bool, stored: bool, writable: BoardId -> bool) returns (result: Result)
      requires Valid()
      modifies this
      ensures Valid()
      ensures old(link).Some? ==> state == old(state)
      ensures old(link).Some? ==> result == if writable(old(link).value) then Reused(old(link).value) else Blocked(old(link).value)
      ensures old(link).None? && old(receipt).Created? ==> receipt == old(receipt)
      ensures old(link).None? && old(receipt).Created? && !writable(old(receipt).board) ==>
        result == Blocked(old(receipt).board) && state == old(state)
      ensures old(link).None? && old(receipt).Created? && writable(old(receipt).board) ==>
        if stored then result == Reused(old(receipt).board) && link == Some(old(receipt).board) else result == NotLinked(old(receipt).board) && link.None?
      ensures old(link).None? && old(receipt).Pending? ==> result.InDoubt? && state == old(state)
      ensures state.sent == old(state).sent + if old(link).None? && (old(receipt).NoReceipt? || old(receipt).Rejected?) then [reply] else []
      ensures old(link).None? && (old(receipt).NoReceipt? || old(receipt).Rejected?) ==> receipt == if saved then Outcome(reply) else Pending
      ensures old(IsFree()) && saved && Acknowledged(reply) ==>
        if stored then result == Made(reply.board.value) && link == Some(reply.board.value) else result == NotLinked(reply.board.value)
      ensures old(IsFree()) && saved && Refused(reply) ==> result == WasRejected
      ensures old(IsFree()) && !saved && (Acknowledged(reply) || Refused(reply)) ==> result == NotSaved
      ensures old(IsFree()) && !Acknowledged(reply) && !Refused(reply) ==> result == InDoubt
      ensures result.Made? ==> link == Some(result.board) && receipt == Created(result.board) && reply == Status(201, Some(result.board))
      ensures result.WasRejected? ==> receipt.Rejected? && Refused(reply)
      ensures result.NotLinked? ==> link.None? && receipt == Created(result.board)
    {
      if link.Some? {
        return if writable(link.value) then Reused(link.value) else Blocked(link.value);
      }
      if receipt.Created? {
        if !writable(receipt.board) {
          return Blocked(receipt.board);
        }
        StepKeeps(state, Link(stored));
        state := After(state, Link(stored));
        if !stored {
          return NotLinked(receipt.board);
        }
        link := Some(receipt.board);
        return Reused(receipt.board);
      }
      if receipt.Pending? {
        return InDoubt;
      }
      AttemptRuns(state, reply, saved);
      AlwaysSound(state, Attempt(reply, saved));
      state := AfterAll(Steps(), state, Attempt(reply, saved));
      receipt := Pending;
      if reply.Unknown? {
        return InDoubt;
      }
      if reply.code != 201 {
        if 400 <= reply.code < 500 && reply.code != 408 {
          if !saved {
            return NotSaved;
          }
          receipt := Rejected;
          return WasRejected;
        }
        return InDoubt;
      }
      if reply.board.None? {
        return InDoubt;
      }
      if !saved {
        return NotSaved;
      }
      receipt := Created(reply.board.value);
      StepKeeps(state, Link(stored));
      state := After(state, Link(stored));
      if !stored {
        return NotLinked(reply.board.value);
      }
      link := Some(reply.board.value);
      return Made(reply.board.value);
    }
  }
}
