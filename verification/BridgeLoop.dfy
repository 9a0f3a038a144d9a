/** How a bridge carries out one claimed command after its first renewal: the select
    loop over cancellations, lease renewals and the outcome of the turn. What arrives
    on the channels is an arbitrary list of events. */
module BridgeLoop {
  import opened Basics
  import opened AgentQueue
  import opened BridgeProtocol

  datatype Outcome = Replied(text: string) | Errored(message: string) | CancelledOutcome | UnknownOutcome

  datatype Event =
    | Shutdown
    | Started(turnID: string)
    | Tick(state: CommandState, interruptOK: bool)
    | LeaseLost
    | Finished(outcome: Outcome)

  datatype Exit =
    | NoRecordedTurn | InterruptFailed | WasShutDown | LostLease | TurnUnknown
    | Published(state: CommandState, text: string) | PublicationFailed(state: CommandState, text: string) | StillRunning

  const ATTEMPTS := 3

  predicate CancelAtStart(c: Command) { c.cancelRequested || c.state.Cancelling? }

  predicate CancelTick(e: Event) { e.Tick? && e.state.Cancelling? }

  /** A cancellation was known before event n. */
  ghost predicate SawCancel(c: Command, events: seq<Event>, n: nat)
    requires n <= |events|
  {
    CancelAtStart(c) || exists i :: 0 <= i < n && CancelTick(events[i])
  }

  /** The turn the bridge follows before event n. */
  function CurrentTurn(c: Command, events: seq<Event>, n: nat): string
    requires n <= |events|
  {
    if n == 0 then c.turnID else if events[n - 1].Started? then events[n - 1].turnID else CurrentTurn(c, events, n - 1)
  }

  /** The first cancellation tick, if it met a known turn. */
  ghost predicate CancelMetTurn(c: Command, events: seq<Event>, n: nat)
    requires n <= |events|
  {
    (Decide(c).RecoverTurn? && CancelAtStart(c)) ||
    exists j :: 0 <= j < n && CancelTick(events[j]) && !SawCancel(c, events, j) && CurrentTurn(c, events, j) != ""
  }

  /** What is published for an outcome: nothing seen as cancelled is called completed. */
  ghost predicate RightVerdict(outcome: Outcome, cancelled: bool, state: CommandState, text: string)
  {
    && !outcome.UnknownOutcome?
    && (state.Cancelled? <==> cancelled || outcome.CancelledOutcome?)
    && (state.Completed? <==> !cancelled && outcome.Replied?)
    && (state.Failed? <==> !cancelled && outcome.Errored?)
    && (state.Completed? ==> text == outcome.text)
    && (state.Cancelled? ==> text == "Agent command cancelled.")
    && (state.Failed? ==> text == "I couldn't complete that turn: " + outcome.message)
  }

  /** Only publication is tried again, never the turn. */
  method Publish(answers: seq<bool>) returns (ok: bool, attempts: nat)
    requires |answers| == ATTEMPTS
    ensures ok <==> exists i :: 0 <= i < ATTEMPTS && answers[i]
    ensures 1 <= attempts <= ATTEMPTS && (ok ==> answers[attempts - 1])
    ensures forall i :: 0 <= i < attempts - 1 ==> !answers[i]
  {
    attempts := 0;
    while attempts < ATTEMPTS
      invariant attempts <= ATTEMPTS && forall i :: 0 <= i < attempts ==> !answers[i]
    {
      attempts := attempts + 1;
      if answers[attempts - 1] {
        return true, attempts;
      }
    }
    ok := false;
  }

  /** A recorded turn was already to be cancelled, and could not be interrupted. */
  predicate InterruptFailsAtStart(c: Command, interruptOK: bool)
  {
    c.turnID != "" && (c.cancelRequested || c.state.Cancelling?) && !interruptOK
  }

  /** The first news of a cancellation meets a known turn that cannot be interrupted. */
  ghost predicate InterruptFailsAt(c: Command, events: seq<Event>, i: nat)
    requires i < |events|
  {
    CancelTick(events[i]) && !events[i].interruptOK && !SawCancel(c, events, i) && CurrentTurn(c, events, i) != ""
  }

  /** The event after which the loop does not go on. */
  ghost predicate Ends(c: Command, events: seq<Event>, i: nat)
    requires i < |events|
  {
    events[i].Shutdown? || events[i].LeaseLost? || events[i].Finished? || InterruptFailsAt(c, events, i)
  }

  /** The loop stopped at event `handled`, the first after which it does not go on. */
  ghost predicate StopsThere(c: Command, events: seq<Event>, answers: seq<bool>, exit: Exit, handled: nat)
    requires |answers| == ATTEMPTS
  {
    && handled <= |events|
    && (forall i :: 0 <= i < handled ==> !Ends(c, events, i))
    && match exit
       case StillRunning => handled == |events|
       case WasShutDown => handled < |events| && events[handled].Shutdown?
       case LostLease => handled < |events| && events[handled].LeaseLost?
       case TurnUnknown => handled < |events| && events[handled] == Finished(UnknownOutcome)
       case InterruptFailed => handled < |events| && InterruptFailsAt(c, events, handled)
       case Published(state, text) =>
         handled < |events| && events[handled].Finished? &&
         RightVerdict(events[handled].outcome, SawCancel(c, events, handled), state, text) &&
         exists i :: 0 <= i < ATTEMPTS && answers[i]
       case PublicationFailed(state, text) =>
         handled < |events| && events[handled].Finished? &&
         RightVerdict(events[handled].outcome, SawCancel(c, events, handled), state, text) &&
         forall i :: 0 <= i < ATTEMPTS ==> !answers[i]
       case NoRecordedTurn => false
  }

  /** An interrupt went to a turn the bridge followed. */
  ghost predicate Interrupts(c: Command, events: seq<Event>, handled: nat, interrupts: seq<string>)
    requires handled <= |events|
  {
    && |interrupts| <= 1
    && forall t :: t in interrupts ==> t != "" && exists k :: 0 <= k <= handled && t == CurrentTurn(c, events, k)
  }

  lemma InterruptsNow(c: Command, events: seq<Event>, handled: nat)
    requires handled <= |events| && CurrentTurn(c, events, handled) != ""
    ensures Interrupts(c, events, handled, [CurrentTurn(c, events, handled)])
  {
  }

  lemma InterruptsStay(c: Command, events: seq<Event>, handled: nat, interrupts: seq<string>)
    requires handled < |events| && Interrupts(c, events, handled, interrupts)
    ensures Interrupts(c, events, handled + 1, interrupts)
  {
    forall t | t in interrupts
      ensures t != "" && exists k :: 0 <= k <= handled + 1 && t == CurrentTurn(c, events, k)
    {
      var k :| 0 <= k <= handled && t == CurrentTurn(c, events, k);
    }
  }

  lemma NoInterrupt(c: Command, events: seq<Event>)
    ensures Interrupts(c, events, 0, [])
  {
  }

  /** The select loop. */
  method FollowTurn(c: Command, sent: seq<string>, events: seq<Event>, answers: seq<bool>)
    returns (exit: Exit, interrupts: seq<string>, handled: nat)
    requires |answers| == ATTEMPTS
    requires sent == if Decide(c).RecoverTurn? && CancelAtStart(c) then [c.turnID] else []
    ensures handled <= |events| && StopsThere(c, events, answers, exit, handled)
    ensures Interrupts(c, events, handled, interrupts)
    ensures exit.Published? || exit.PublicationFailed? || exit.TurnUnknown? ==>
              (interrupts != [] <==> CancelMetTurn(c, events, handled))
  {
    interrupts, handled := sent, 0;
    NoInterrupt(c, events);
    if c.turnID != "" { InterruptsNow(c, events, 0); }
    hide Interrupts, RightVerdict;
    var cancelled, turnID := c.cancelRequested || c.state.Cancelling?, c.turnID;
    while handled < |events|
      invariant handled <= |events|
      invariant cancelled <==> SawCancel(c, events, handled)
      invariant turnID == CurrentTurn(c, events, handled)
      invariant interrupts != [] <==> CancelMetTurn(c, events, handled)
      invariant interrupts != [] ==> cancelled
      invariant forall i :: 0 <= i < handled ==> !Ends(c, events, i)
      invariant Interrupts(c, events, handled, interrupts)
    {
      match events[handled] {
      case Shutdown => return WasShutDown, interrupts, handled;
      case LeaseLost => return LostLease, interrupts, handled;
      case Started(id) => turnID := id;
      case Tick(state, ok) =>
        if state.Cancelling? && !cancelled {
          if turnID != "" {
            InterruptsNow(c, events, handled);
            interrupts := [turnID];
            if !ok {
              return InterruptFailed, interrupts, handled;
            }
          }
          cancelled := true;
        }
      case Finished(outcome) =>
        if outcome.UnknownOutcome? {
          return TurnUnknown, interrupts, handled;
        }
        var state, text := Completed, if outcome.Replied? then outcome.text else "";
        if !outcome.Replied? {
          var reason := if outcome.Errored? then outcome.message else "context canceled";
          state, text := Failed, "I couldn't complete that turn: " + reason;
        }
        if cancelled || outcome.CancelledOutcome? {
          state, text := Cancelled, "Agent command cancelled.";
        }
        VerdictIsRight(outcome, cancelled, state, text);
        var ok, _ := Publish(answers);
        return if ok then Published(state, text) else PublicationFailed(state, text), interrupts, handled;
      }
      InterruptsStay(c, events, handled, interrupts);
      handled := handled + 1;
    }
    exit := StillRunning;
  }

  lemma VerdictIsRight(outcome: Outcome, cancelled: bool, state: CommandState, text: string)
    requires !outcome.UnknownOutcome?
    requires if cancelled || outcome.CancelledOutcome? then state.Cancelled? && text == "Agent command cancelled."
             else if outcome.Replied? then state.Completed? && text == outcome.text
             else state.Failed? && text == "I couldn't complete that turn: " + outcome.message
    ensures RightVerdict(outcome, cancelled, state, text)
  {
  }

  /** `handled` events came before the one that ended the loop. */
  method RunQueuedCommand(c: Command, interruptOK: bool, events: seq<Event>, answers: seq<bool>)
    returns (exit: Exit, launches: nat, interrupts: seq<string>, handled: nat)
    requires |answers| == ATTEMPTS
    ensures launches == if c.turnID == "" && !c.state.Interrupted? && !c.state.Cancelling? then 1 else 0
    ensures launches == if Decide(c).StartTurn? then 1 else 0
    ensures exit.NoRecordedTurn? <==> c.turnID == "" && c.state.Interrupted?
    ensures exit.NoRecordedTurn? || InterruptFailsAtStart(c, interruptOK) ==> handled == 0
    ensures InterruptFailsAtStart(c, interruptOK) ==> exit.InterruptFailed? && interrupts == [c.turnID]
    ensures exit.NoRecordedTurn? ==> interrupts == []
    ensures !exit.NoRecordedTurn? && !InterruptFailsAtStart(c, interruptOK) ==>
              StopsThere(c, events, answers, exit, handled)
    ensures handled <= |events| && Interrupts(c, events, handled, interrupts)
    ensures exit.Published? || exit.PublicationFailed? || exit.TurnUnknown? ==>
              (interrupts != [] <==> CancelMetTurn(c, events, handled))
  {
    interrupts, handled, launches := [], 0, 0;
    NoInterrupt(c, events);
    if c.turnID != "" { InterruptsNow(c, events, 0); }
    hide Interrupts, StopsThere, CancelMetTurn;
    if c.state.Interrupted? || c.turnID != "" {
      if c.turnID == "" {
        return NoRecordedTurn, 0, [], 0;
      }
      if c.cancelRequested || c.state.Cancelling? {
        interrupts := [c.turnID];
        if !interruptOK {
          return InterruptFailed, 0, interrupts, 0;
        }
      }
    } else if !c.state.Cancelling? {
      launches := 1;
    }
    exit, interrupts, handled := FollowTurn(c, interrupts, events, answers);
    assert !exit.NoRecordedTurn? by { StoppedInTheLoop(c, events, answers, exit, handled); }
  }

  lemma StoppedInTheLoop(c: Command, events: seq<Event>, answers: seq<bool>, exit: Exit, handled: nat)
    requires |answers| == ATTEMPTS && StopsThere(c, events, answers, exit, handled)
    ensures !exit.NoRecordedTurn?
  {
  }

  /* ---------- Recovering a recorded turn ---------- */

  datatype Turn = Turn(id: string, inProgress: bool, outcome: Outcome)

  datatype ThreadRead = ReadFailed | ReadTurns(turns: seq<Turn>)

  /** The first turn of a thread with this id, or the number of turns. */
  ghost predicate IsFirstMatch(turns: seq<Turn>, turnID: string, k: nat)
  {
    && k <= |turns| && (k < |turns| ==> turns[k].id == turnID)
    && forall i :: 0 <= i < k ==> turns[i].id != turnID
  }

  ghost predicate InProgress(r: ThreadRead, turnID: string)
  {
    r.ReadTurns? && exists k: nat :: k < |r.turns| && IsFirstMatch(r.turns, turnID, k) && r.turns[k].inProgress
  }

  /** The read settles the turn: its own outcome, or unknown if it cannot be found. */
  ghost predicate Settles(r: ThreadRead, turnID: string, outcome: Outcome)
  {
    if r.ReadTurns? && exists i :: 0 <= i < |r.turns| && r.turns[i].id == turnID
    then
      exists k: nat ::
        k < |r.turns| && IsFirstMatch(r.turns, turnID, k) && !r.turns[k].inProgress && outcome == r.turns[k].outcome
    else outcome.UnknownOutcome?
  }

  method FindTurn(turns: seq<Turn>, turnID: string) returns (k: nat)
    ensures IsFirstMatch(turns, turnID, k)
  {
    k := 0;
    while k < |turns| && turns[k].id != turnID
      invariant k <= |turns| && forall i :: 0 <= i < k ==> turns[i].id != turnID
    {
      k := k + 1;
    }
  }

  /** Polls the thread until the recorded turn is over. It reports on that turn and no
      other, and a turn it cannot find is unknown, not failed. */
  method RecoverTurn(turnID: string, polls: seq<ThreadRead>) returns (outcome: Option<Outcome>, polled: nat)
    ensures polled <= |polls| && forall i :: 0 <= i < polled ==> InProgress(polls[i], turnID)
    ensures outcome.None? <==> polled == |polls|
    ensures outcome.Some? ==> Settles(polls[polled], turnID, outcome.value)
  {
    polled := 0;
    while polled < |polls|
      invariant polled <= |polls| && forall i :: 0 <= i < polled ==> InProgress(polls[i], turnID)
    {
      if polls[polled].ReadFailed? {
        return Some(UnknownOutcome), polled;
      }
      var turns := polls[polled].turns;
      var k := FindTurn(turns, turnID);
      if k == |turns| {
        return Some(UnknownOutcome), polled;
      }
      if !turns[k].inProgress {
        return Some(turns[k].outcome), polled;
      }
      polled := polled + 1;
    }
    outcome := None;
  }
}
