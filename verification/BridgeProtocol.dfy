/** Bridges and the command queue as one transition system. A bridge is a process
    with its own lease owner; it may crash at any step, its requests may arrive
    after it stopped, and the goroutine that sends `turn/start` may outlive it. */
module BridgeProtocol {
  import opened Basics
  import opened AgentQueue

  /** Where a bridge stands: polling, holding a claimed id that it has not renewed,
      waiting for the row a successful renewal reads back, or following the turn.
      `dequeued` records that its claim found the command queued. */
  datatype Phase =
    | Polling
    | Holding(id: string, dequeued: bool)
    | Reading(id: string, dequeued: bool)
    | Following(id: string)
    | Stopped

  datatype Bridge = Bridge(agentID: string, channelID: string, phase: Phase)

  /** A goroutine that sends `turn/start` at most once. */
  datatype Launch = Launch(id: string, owner: string, sent: bool)

  datatype World = World(queue: Queue, bridges: map<string, Bridge>, launches: seq<Launch>)

  datatype Decision = StopUnrecorded | RecoverTurn | FinishCancelled | StartTurn

  /** What the bridge does with the row its first renewal read back. */
  function Decide(c: Command): Decision
  {
    if c.state.Interrupted? || c.turnID != "" then
      if c.turnID == "" then StopUnrecorded else RecoverTurn
    else if c.state.Cancelling? then FinishCancelled
    else StartTurn
  }

  datatype WorldStep =
    | Environment(step: Step)
    | Begin(owner: string, agentID: string, channelID: string)
    | ClaimCall(owner: string, permitted: set<string>, now: int, claimed: Option<string>, delivered: bool)
    | FirstRenew(owner: string, now: int, delivered: bool)
    | ReadBack(owner: string)
    | SendStart(index: nat)
    | RecordTurn(index: nat, turnID: string, now: int)
    | KeepAlive(owner: string, id: string, now: int)
    | Publish(owner: string, id: string, state: CommandState, result: string, now: int, accepted: bool)
    | Crash(owner: string)

  function SetPhase(w: World, owner: string, phase: Phase): World
    requires owner in w.bridges
  {
    w.(bridges := w.bridges[owner := w.bridges[owner].(phase := phase)])
  }

  /** The queue transaction a step performs, if any. */
  function Transaction(w: World, s: WorldStep): Option<Step>
  {
    match s
    case Environment(step) => Some(step)
    case ClaimCall(owner, permitted, now, claimed, _) =>
      if owner in w.bridges
      then Some(ClaimStep(w.bridges[owner].agentID, w.bridges[owner].channelID, owner, permitted, now, claimed))
      else None
    case FirstRenew(owner, now, _) =>
      if owner in w.bridges && w.bridges[owner].phase.Holding?
      then Some(RenewStep(w.bridges[owner].agentID, w.bridges[owner].phase.id, owner, "", now)) else None
    case RecordTurn(i, turnID, now) =>
      if i < |w.launches| && w.launches[i].owner in w.bridges
      then Some(RenewStep(w.bridges[w.launches[i].owner].agentID, w.launches[i].id, w.launches[i].owner, turnID, now))
      else None
    case KeepAlive(owner, id, now) =>
      if owner in w.bridges then Some(RenewStep(w.bridges[owner].agentID, id, owner, "", now)) else None
    case Publish(owner, id, state, result, now, _) =>
      if owner in w.bridges then Some(CompleteStep(w.bridges[owner].agentID, id, owner, state, result, now)) else None
    case _ => None
  }

  ghost predicate Transacts(w: World, s: WorldStep, q': Queue)
  {
    match Transaction(w, s)
    case None => q' == w.queue
    case Some(step) => Next(w.queue, step, q')
  }

  /** May this step happen now? A publication is accepted directly, or as the replay of
      an earlier success under its idempotency key. */
  predicate Enabled(w: World, s: WorldStep)
  {
    match s
    case Environment(step) => step.BindStep? || step.EnqueueStep? || step.CancelStep? || step.ReconcileStep?
    case Begin(owner, _, _) => owner !in w.bridges
    case ClaimCall(owner, _, _, _, _) =>
      owner in w.bridges && (w.bridges[owner].phase.Polling? || w.bridges[owner].phase.Stopped?)
    case FirstRenew(owner, _, _) => owner in w.bridges && w.bridges[owner].phase.Holding?
    case ReadBack(owner) =>
      owner in w.bridges && w.bridges[owner].phase.Reading? && w.bridges[owner].phase.id in w.queue.commands
    case SendStart(i) => i < |w.launches| && !w.launches[i].sent
    case RecordTurn(i, turnID, _) =>
      i < |w.launches| && w.launches[i].sent && turnID != "" && w.launches[i].owner in w.bridges
    case KeepAlive(owner, _, _) => owner in w.bridges
    case Publish(owner, id, state, result, now, accepted) =>
      && owner in w.bridges && (w.bridges[owner].phase == Following(id) || w.bridges[owner].phase.Stopped?)
      && (accepted ==>
            && w.bridges[owner].phase == Following(id)
            && (CanComplete(w.queue, w.bridges[owner].agentID, id, owner, state, result, now) || id in w.queue.replies))
    case Crash(owner) => owner in w.bridges
  }

  /** Whether the claim found its command still queued. */
  predicate TakesQueued(q: Queue, id: string) { id in q.commands && q.commands[id].state.Queued? }

  /** The phase a bridge enters when its claim answers. */
  function AfterClaim(w: World, owner: string, claimed: Option<string>, delivered: bool): Phase
    requires owner in w.bridges
  {
    var b := w.bridges[owner];
    if !b.phase.Polling? || !delivered || !MayClaim(w.queue, b.agentID, b.channelID, owner) then Stopped
    else match claimed
      case None => Polling
      case Some(id) => Holding(id, TakesQueued(w.queue, id))
  }

  /** The processes after the step, the queue being settled by its transaction. */
  function Moved(w: World, s: WorldStep): World
    requires Enabled(w, s)
  {
    match s
    case Environment(_) => w
    case Begin(owner, agentID, channelID) => w.(bridges := w.bridges[owner := Bridge(agentID, channelID, Polling)])
    case ClaimCall(owner, _, _, claimed, delivered) => SetPhase(w, owner, AfterClaim(w, owner, claimed, delivered))
    case FirstRenew(owner, now, delivered) =>
      var b := w.bridges[owner];
      var renewed := delivered && CanRenew(w.queue, b.agentID, b.phase.id, owner, "", now);
      SetPhase(w, owner, if renewed then Reading(b.phase.id, b.phase.dequeued) else Stopped)
    case ReadBack(owner) =>
      var id := w.bridges[owner].phase.id;
      (match Decide(w.queue.commands[id])
       case StopUnrecorded => SetPhase(w, owner, Stopped)
       case RecoverTurn => SetPhase(w, owner, Following(id))
       case FinishCancelled => SetPhase(w, owner, Following(id))
       case StartTurn => SetPhase(w, owner, Following(id)).(launches := w.launches + [Launch(id, owner, false)]))
    case SendStart(i) => w.(launches := w.launches[i := w.launches[i].(sent := true)])
    case RecordTurn(_, _, _) => w
    case KeepAlive(_, _, _) => w
    case Publish(owner, _, _, _, _, accepted) => if accepted then SetPhase(w, owner, Polling) else w
    case Crash(owner) => SetPhase(w, owner, Stopped)
  }

  ghost predicate WorldNext(w: World, s: WorldStep, w': World)
  {
    Enabled(w, s) && Transacts(w, s, w'.queue) && w' == Moved(w, s).(queue := w'.queue)
  }

  datatype Execution = Execution(worlds: seq<World>, steps: seq<WorldStep>)

  ghost predicate ValidExecution(e: Execution)
  {
    && |e.worlds| == |e.steps| + 1
    && e.worlds[0] == World(Queue(map[], map[], map[]), map[], [])
    && forall i :: 0 <= i < |e.steps| ==> WorldNext(e.worlds[i], e.steps[i], e.worlds[i + 1])
  }

  /* ---------- The two moments that must not happen ---------- */

  /** A claim of this command in the very millisecond in which its lease ends, while it
      is running with no recorded turn. */
  predicate ClaimsAtExpiry(w: World, s: WorldStep, id: string)
  {
    && s.ClaimCall? && s.claimed == Some(id) && id in w.queue.commands
    && var c := w.queue.commands[id]; c.state.Running? && c.leaseUntil == s.now && c.turnID == ""
  }

  /** A bridge that took this command over reads it back closed since its renewal and
      without a recorded turn. */
  predicate ReadsClosed(w: World, s: WorldStep, id: string)
  {
    && s.ReadBack? && s.owner in w.bridges && TookOver(w.bridges[s.owner].phase, id) && id in w.queue.commands
    && var c := w.queue.commands[id]; !Active(c.state) && c.turnID == ""
  }

  /** Neither happens to this command in the first n steps. */
  ghost predicate AvoidsRaces(e: Execution, n: nat, id: string)
  {
    && n <= |e.steps| && |e.worlds| == |e.steps| + 1
    && forall i :: 0 <= i < n ==>
         !ClaimsAtExpiry(e.worlds[i], e.steps[i], id) && !ReadsClosed(e.worlds[i], e.steps[i], id)
  }

  /* ---------- Invariant ---------- */

  /** The phase carries a ticket: its claim was the one that dequeued the command. */
  predicate HasTicket(p: Phase, id: string) { (p.Holding? || p.Reading?) && p.dequeued && p.id == id }

  predicate TookOver(p: Phase, id: string) { (p.Holding? || p.Reading?) && !p.dequeued && p.id == id }

  predicate Dequeued(q: Queue, id: string) { id in q.commands && !q.commands[id].state.Queued? }

  /** A command that was taken over is past running, or its turn is recorded. */
  predicate NotRestartable(q: Queue, id: string)
  {
    Dequeued(q, id) && (q.commands[id].state.Running? ==> q.commands[id].turnID != "")
  }

  /** Whoever holds or used the ticket of a command, it is out of the queue. */
  ghost predicate TicketsOK(w: World, id: string)
  {
    && (forall o :: o in w.bridges && HasTicket(w.bridges[o].phase, id) ==> Dequeued(w.queue, id))
    && (forall o :: o in w.bridges && TookOver(w.bridges[o].phase, id) ==> NotRestartable(w.queue, id))
    && (forall i :: 0 <= i < |w.launches| && w.launches[i].id == id ==> Dequeued(w.queue, id))
  }

  ghost predicate TicketUnique(w: World, id: string)
  {
    forall o, p ::
      o in w.bridges && p in w.bridges && HasTicket(w.bridges[o].phase, id) && HasTicket(w.bridges[p].phase, id) ==>
      o == p
  }

  ghost predicate Launched(w: World, id: string)
  {
    exists i :: 0 <= i < |w.launches| && w.launches[i].id == id
  }

  ghost predicate TicketNotUsed(w: World, id: string)
  {
    Launched(w, id) ==> forall o :: o in w.bridges ==> !HasTicket(w.bridges[o].phase, id)
  }

  ghost predicate LaunchedOnce(w: World, id: string)
  {
    forall i, j :: 0 <= i < j < |w.launches| ==> !(w.launches[i].id == id && w.launches[j].id == id)
  }

  /** What a command keeps in every world while no race touches it. */
  ghost predicate Inv(w: World, id: string)
  {
    RowsOK(w.queue) && TicketsOK(w, id) && TicketUnique(w, id) && TicketNotUsed(w, id) && LaunchedOnce(w, id)
  }

  /* ---------- The queue under a world step ---------- */

  lemma QueueEvolves(w: World, s: WorldStep, w': World, id: string)
    requires WorldNext(w, s, w') && id in w.queue.commands
    ensures id in w'.queue.commands && Evolves(w.queue.commands[id], w'.queue.commands[id])
  {
    hide Next, Evolves;
    match Transaction(w, s)
    case None => EvolvesReflexive(w.queue.commands[id]);
    case Some(step) => StepEvolves(w.queue, step, w'.queue, id);
  }

  lemma EvolvesReflexive(c: Command)
    ensures Evolves(c, c)
  {
  }

  lemma QueueKeepsRows(w: World, s: WorldStep, w': World)
    requires WorldNext(w, s, w') && RowsOK(w.queue)
    ensures RowsOK(w'.queue)
  {
    hide Next, RowsOK;
    match Transaction(w, s)
    case None =>
    case Some(step) => StepKeepsRows(w.queue, step, w'.queue);
  }

  lemma DequeuedStays(w: World, s: WorldStep, w': World, id: string)
    requires WorldNext(w, s, w') && Dequeued(w.queue, id)
    ensures Dequeued(w'.queue, id)
    ensures NotRestartable(w.queue, id) ==> NotRestartable(w'.queue, id)
  {
    hide WorldNext;
    QueueEvolves(w, s, w', id);
  }

  /** What a claim leaves: the command is out of the queue, and if it was out before
      it cannot be started again, unless the claim hit the expiry millisecond. */
  lemma ClaimLeaves(w: World, s: WorldStep, w': World, id: string)
    requires WorldNext(w, s, w') && s.ClaimCall? && s.claimed == Some(id)
    requires MayClaim(w.queue, w.bridges[s.owner].agentID, w.bridges[s.owner].channelID, s.owner)
    ensures id in w.queue.commands && Dequeued(w'.queue, id)
    ensures !TakesQueued(w.queue, id) && !ClaimsAtExpiry(w, s, id) ==> NotRestartable(w'.queue, id)
  {
    hide IsHead, NoneActive;
    var b := w.bridges[s.owner];
    var swept := Sweep(w.queue, b.channelID, s.permitted, s.now);
    assert Claim(w.queue, b.agentID, b.channelID, s.owner, s.permitted, s.now, w'.queue, s.claimed);
    HeadIsActive(swept, b.channelID, id);
    HeadInChannel(swept, b.channelID, id);
  }

  lemma HeadInChannel(q: Queue, channelID: string, id: string)
    requires IsHead(q, channelID, id)
    ensures id in q.commands && q.commands[id].channelID == channelID
  {
  }

  /* ---------- The processes under a world step ---------- */

  /** The step hands this owner the command it claimed. */
  predicate HandsOut(w: World, s: WorldStep, owner: string, id: string)
  {
    && s.ClaimCall? && s.owner == owner && s.claimed == Some(id) && owner in w.bridges
    && MayClaim(w.queue, w.bridges[owner].agentID, w.bridges[owner].channelID, owner)
  }

  /** Tickets and takeovers come only from claims. */
  lemma PhasesComeFromClaims(w: World, s: WorldStep, w': World, o: string, id: string)
    requires WorldNext(w, s, w') && o in w'.bridges
    ensures HasTicket(w'.bridges[o].phase, id) ==>
              (o in w.bridges && HasTicket(w.bridges[o].phase, id)) ||
                (HandsOut(w, s, o, id) && TakesQueued(w.queue, id))
    ensures TookOver(w'.bridges[o].phase, id) ==>
              (o in w.bridges && TookOver(w.bridges[o].phase, id)) ||
                (HandsOut(w, s, o, id) && !TakesQueued(w.queue, id))
  {
    hide Transacts, MayClaim, CanRenew, CanComplete, Decide, TakesQueued;
  }

  /** A read-back that starts a turn of this command. */
  predicate Launches(w: World, s: WorldStep, id: string)
  {
    && s.ReadBack? && s.owner in w.bridges && w.bridges[s.owner].phase.Reading? && w.bridges[s.owner].phase.id == id
    && id in w.queue.commands && Decide(w.queue.commands[id]).StartTurn?
  }

  /** The log of launches grows by the launched command, if any. */
  lemma LaunchesGrow(w: World, s: WorldStep, w': World, id: string)
    requires WorldNext(w, s, w')
    ensures |w.launches| <= |w'.launches| <= |w.launches| + 1
    ensures forall i :: 0 <= i < |w.launches| ==> w'.launches[i].id == w.launches[i].id
    ensures |w'.launches| > |w.launches| ==> (w'.launches[|w.launches|].id == id <==> Launches(w, s, id))
    ensures Launches(w, s, id) ==>
              |w'.launches| > |w.launches| && s.owner in w'.bridges && w'.bridges[s.owner].phase.Following?
  {
    hide Transacts, MayClaim, CanRenew, CanComplete;
  }

  /** Outside the races only a ticket holder starts a turn. */
  lemma OnlyTicketsLaunch(w: World, s: WorldStep, id: string)
    requires TicketsOK(w, id) && Launches(w, s, id) && !ReadsClosed(w, s, id)
    ensures HasTicket(w.bridges[s.owner].phase, id)
  {
    var p := w.bridges[s.owner].phase;
    if !p.dequeued {
      assert TookOver(p, id);
    }
  }

  /* ---------- One step ---------- */

  lemma StepKeepsTicketsOK(w: World, s: WorldStep, w': World, id: string)
    requires TicketsOK(w, id) && WorldNext(w, s, w') && !ClaimsAtExpiry(w, s, id) && !ReadsClosed(w, s, id)
    ensures TicketsOK(w', id)
  {
    hide WorldNext, Launches, HasTicket, TookOver, Dequeued, ClaimsAtExpiry, ReadsClosed, HandsOut;
    forall o | o in w'.bridges && HasTicket(w'.bridges[o].phase, id)
      ensures Dequeued(w'.queue, id)
    {
      TicketIsDequeued(w, s, w', o, id);
    }
    forall o | o in w'.bridges && TookOver(w'.bridges[o].phase, id)
      ensures NotRestartable(w'.queue, id)
    {
      TakeoverIsNotRestartable(w, s, w', o, id);
    }
    forall i | 0 <= i < |w'.launches| && w'.launches[i].id == id
      ensures Dequeued(w'.queue, id)
    {
      LaunchIsDequeued(w, s, w', id, i);
    }
  }

  lemma TicketIsDequeued(w: World, s: WorldStep, w': World, o: string, id: string)
    requires TicketsOK(w, id) && WorldNext(w, s, w') && o in w'.bridges && HasTicket(w'.bridges[o].phase, id)
    ensures Dequeued(w'.queue, id)
  {
    hide WorldNext, HasTicket, TookOver, Dequeued, MayClaim;
    PhasesComeFromClaims(w, s, w', o, id);
    if HandsOut(w, s, o, id) {
      ClaimLeaves(w, s, w', id);
    } else {
      DequeuedStays(w, s, w', id);
    }
  }

  lemma TakeoverIsNotRestartable(w: World, s: WorldStep, w': World, o: string, id: string)
    requires TicketsOK(w, id) && WorldNext(w, s, w') && !ClaimsAtExpiry(w, s, id)
    requires o in w'.bridges && TookOver(w'.bridges[o].phase, id)
    ensures NotRestartable(w'.queue, id)
  {
    hide WorldNext, HasTicket, TookOver, MayClaim, ClaimsAtExpiry, TakesQueued;
    PhasesComeFromClaims(w, s, w', o, id);
    if o in w.bridges && TookOver(w.bridges[o].phase, id) {
      DequeuedStays(w, s, w', id);
    } else {
      ClaimLeaves(w, s, w', id);
    }
  }

  lemma LaunchIsDequeued(w: World, s: WorldStep, w': World, id: string, i: nat)
    requires TicketsOK(w, id) && WorldNext(w, s, w') && !ReadsClosed(w, s, id)
    requires i < |w'.launches| && w'.launches[i].id == id
    ensures Dequeued(w'.queue, id)
  {
    hide WorldNext, HasTicket, TookOver, Dequeued, MayClaim, ReadsClosed, Decide;
    LaunchesGrow(w, s, w', id);
    if i == |w.launches| {
      OnlyTicketsLaunch(w, s, id);
    }
    DequeuedStays(w, s, w', id);
  }

  lemma StepKeepsTicketUnique(w: World, s: WorldStep, w': World, id: string)
    requires TicketsOK(w, id) && TicketUnique(w, id) && WorldNext(w, s, w')
    ensures TicketUnique(w', id)
  {
    hide WorldNext, HasTicket, TookOver;
    forall o, p | o in w'.bridges && p in w'.bridges && HasTicket(w'.bridges[o].phase, id) &&
      HasTicket(w'.bridges[p].phase, id)
      ensures o == p
    {
      PhasesComeFromClaims(w, s, w', o, id);
      PhasesComeFromClaims(w, s, w', p, id);
    }
  }

  /** A ticket in the new world: it was held before, or the step takes the command
      from the queue; in both cases the command was not launched before. */
  lemma TicketMeansNotLaunched(w: World, s: WorldStep, w': World, id: string, o: string)
    requires TicketsOK(w, id) && TicketNotUsed(w, id) && WorldNext(w, s, w')
    requires o in w'.bridges && HasTicket(w'.bridges[o].phase, id)
    ensures !Launched(w, id)
  {
    hide WorldNext, HasTicket, TookOver, HandsOut;
    PhasesComeFromClaims(w, s, w', o, id);
  }

  lemma StepKeepsTicketNotUsed(w: World, s: WorldStep, w': World, id: string)
    requires TicketsOK(w, id) && TicketUnique(w, id) && TicketNotUsed(w, id) && WorldNext(w, s, w')
    requires !ReadsClosed(w, s, id)
    ensures TicketNotUsed(w', id)
  {
    hide WorldNext, HasTicket, TookOver, ReadsClosed, Decide, TicketsOK, TicketNotUsed;
    LaunchesGrow(w, s, w', id);
    forall o | o in w'.bridges && HasTicket(w'.bridges[o].phase, id)
      ensures !Launched(w', id)
    {
      TicketMeansNotLaunched(w, s, w', id, o);
      PhasesComeFromClaims(w, s, w', o, id);
      if Launches(w, s, id) {
        OnlyTicketsLaunch(w, s, id);
        FollowingHasNoTicket(w'.bridges[s.owner].phase, id);
      }
    }
    NotUsedFrom(w', id);
  }

  lemma NotUsedFrom(w: World, id: string)
    requires forall o :: o in w.bridges && HasTicket(w.bridges[o].phase, id) ==> !Launched(w, id)
    ensures TicketNotUsed(w, id)
  {
  }

  lemma FollowingHasNoTicket(p: Phase, id: string)
    requires p.Following?
    ensures !HasTicket(p, id)
  {
  }

  lemma StepKeepsLaunchedOnce(w: World, s: WorldStep, w': World, id: string)
    requires TicketsOK(w, id) && TicketNotUsed(w, id) && LaunchedOnce(w, id) && WorldNext(w, s, w')
    requires !ReadsClosed(w, s, id)
    ensures LaunchedOnce(w', id)
  {
    hide WorldNext, HasTicket, TookOver, ReadsClosed, Decide;
    LaunchesGrow(w, s, w', id);
    if Launches(w, s, id) {
      OnlyTicketsLaunch(w, s, id);
      assert !Launched(w, id);
    }
  }

  lemma StepKeepsInv(w: World, s: WorldStep, w': World, id: string)
    requires Inv(w, id) && WorldNext(w, s, w') && !ClaimsAtExpiry(w, s, id) && !ReadsClosed(w, s, id)
    ensures Inv(w', id)
  {
    hide WorldNext, RowsOK, TicketsOK, TicketUnique, TicketNotUsed, LaunchedOnce, ClaimsAtExpiry, ReadsClosed;
    QueueKeepsRows(w, s, w');
    StepKeepsTicketsOK(w, s, w', id);
    StepKeepsTicketUnique(w, s, w', id);
    StepKeepsTicketNotUsed(w, s, w', id);
    StepKeepsLaunchedOnce(w, s, w', id);
  }

  /* ---------- Whole executions ---------- */

  lemma EmptyWorldOK(id: string)
    ensures Inv(World(Queue(map[], map[], map[]), map[], []), id)
  {
  }

  lemma {:induction false} ExecutionKeepsInv(e: Execution, i: nat, id: string)
    requires ValidExecution(e) && AvoidsRaces(e, i, id)
    ensures Inv(e.worlds[i], id)
  {
    hide WorldNext, Inv, ClaimsAtExpiry, ReadsClosed;
    if i == 0 {
      EmptyWorldOK(id);
    } else {
      ExecutionKeepsInv(e, i - 1, id);
      assert WorldNext(e.worlds[i - 1], e.steps[i - 1], e.worlds[i - 1 + 1]);
      StepKeepsInv(e.worlds[i - 1], e.steps[i - 1], e.worlds[i], id);
    }
  }

  /** How many `turn/start` requests were sent for a command. */
  function StartCount(launches: seq<Launch>, id: string): nat
  {
    if launches == [] then 0
    else
      var last := launches[|launches| - 1];
      StartCount(launches[..|launches| - 1], id) + if last.sent && last.id == id then 1 else 0
  }

  lemma {:induction false} NoneLaunchedNoneSent(launches: seq<Launch>, id: string)
    requires forall i :: 0 <= i < |launches| ==> launches[i].id != id
    ensures StartCount(launches, id) == 0
  {
    if launches != [] {
      NoneLaunchedNoneSent(launches[..|launches| - 1], id);
    }
  }

  lemma {:induction false} DistinctCountedOnce(launches: seq<Launch>, id: string)
    requires forall i, j :: 0 <= i < j < |launches| ==> !(launches[i].id == id && launches[j].id == id)
    ensures StartCount(launches, id) <= 1
  {
    if launches != [] {
      var rest := launches[..|launches| - 1];
      if launches[|launches| - 1].id == id {
        NoneLaunchedNoneSent(rest, id);
      } else {
        DistinctCountedOnce(rest, id);
      }
    }
  }

  /** Whatever crashes, delays and lost leases, and whatever happens to other commands:
      a command that neither race has touched so far was started at most once. */
  lemma AtMostOneTurn(e: Execution, i: nat, id: string)
    requires ValidExecution(e) && AvoidsRaces(e, i, id)
    ensures StartCount(e.worlds[i].launches, id) <= 1
  {
    var w := e.worlds[i];
    hide ValidExecution, AvoidsRaces, StartCount, TicketsOK, TicketUnique, TicketNotUsed;
    ExecutionKeepsInv(e, i, id);
    DistinctCountedOnce(w.launches, id);
  }

  /** Exactly when a command is started again: with no race of either kind on it so far,
      the next read-back of a started command launches it iff that read-back is the
      second race. */
  lemma RestartsExactlyWhenReadClosed(e: Execution, i: nat, id: string)
    requires ValidExecution(e) && AvoidsRaces(e, i, id) && i < |e.steps|
    requires Launched(e.worlds[i], id)
    ensures Launches(e.worlds[i], e.steps[i], id) <==> ReadsClosed(e.worlds[i], e.steps[i], id)
  {
    hide AvoidsRaces;
    var w, s := e.worlds[i], e.steps[i];
    ExecutionKeepsInv(e, i, id);
    assert WorldNext(w, s, e.worlds[i + 1]);
    ReadBackIsEnabled(w, s, e.worlds[i + 1]);
    hide WorldNext, ValidExecution;
    if Launches(w, s, id) && !ReadsClosed(w, s, id) {
      OnlyTicketsLaunch(w, s, id);
    }
  }

  lemma ReadBackIsEnabled(w: World, s: WorldStep, w': World)
    requires WorldNext(w, s, w')
    ensures s.ReadBack? ==> s.owner in w.bridges && w.bridges[s.owner].phase.Reading?
  {
  }

  /* ---------- Both races do start a command twice ---------- */

  ghost predicate Reaches(e: Execution, w: World)
  {
    ValidExecution(e) && e.worlds[|e.steps|] == w
  }

  lemma Extend(e: Execution, w: World, s: WorldStep, w': World) returns (e': Execution)
    requires Reaches(e, w) && WorldNext(w, s, w')
    ensures Reaches(e', w')
    ensures |e'.steps| == |e.steps| + 1
  {
    hide WorldNext;
    e' := Execution(e.worlds + [w'], e.steps + [s]);
    forall i | 0 <= i < |e'.steps|
      ensures WorldNext(e'.worlds[i], e'.steps[i], e'.worlds[i + 1])
    {
      if i < |e.steps| {
        assert WorldNext(e.worlds[i], e.steps[i], e.worlds[i + 1]);
      }
    }
  }

  /** The row lets a claim at `now` start a turn. */
  predicate Startable(c: Command, permitted: set<string>, now: int)
  {
    (c.state.Queued? && c.leaseUntil <= now && c.authorID in permitted && c.turnID == "") ||
    (c.state.Running? && c.leaseUntil == now && c.turnID == "")
  }

  ghost predicate ReadyFor(w: World, owner: string, id: string, permitted: set<string>, now: int)
  {
    && owner in w.bridges && w.bridges[owner].phase.Polling?
    && MayClaim(w.queue, w.bridges[owner].agentID, w.bridges[owner].channelID, owner)
    && IsHead(Sweep(w.queue, w.bridges[owner].channelID, permitted, now), w.bridges[owner].channelID, id)
    && w.queue.commands[id].agentID == w.bridges[owner].agentID
  }

  function Leased(w: World, id: string, owner: string, channelID: string, permitted: set<string>, now: int): Queue
    requires id in w.queue.commands
  {
    var swept := Sweep(w.queue, channelID, permitted, now);
    swept.(commands := swept.commands[id := Lease(swept.commands[id], owner, now)])
  }

  /** A claim, its renewal and read-back, and the start request. */
  lemma StartsATurn(e: Execution, w: World, owner: string, id: string, permitted: set<string>, now: int)
    returns (e': Execution, w': World)
    requires Reaches(e, w) && ReadyFor(w, owner, id, permitted, now) && Startable(w.queue.commands[id], permitted, now)
    ensures Reaches(e', w')
    ensures w'.launches == w.launches + [Launch(id, owner, true)]
    ensures w'.bridges == w.bridges[owner := w.bridges[owner].(phase := Following(id))]
    ensures w'.queue == Leased(w, id, owner, w.bridges[owner].channelID, permitted, now)
    ensures id in w'.queue.commands
    ensures w'.queue.commands[id].state.Running? && w'.queue.commands[id].leaseUntil == now + LEASE_MS &&
            w'.queue.commands[id].turnID == ""
  {
    hide IsHead;
    var b := w.bridges[owner];
    HeadIsActive(Sweep(w.queue, b.channelID, permitted, now), b.channelID, id);
    HeadInChannel(Sweep(w.queue, b.channelID, permitted, now), b.channelID, id);
    var q := Leased(w, id, owner, b.channelID, permitted, now);
    var w1 := SetPhase(w, owner, Holding(id, TakesQueued(w.queue, id))).(queue := q);
    var e1 := Extend(e, w, ClaimCall(owner, permitted, now, Some(id), true), w1);
    assert q.commands[id].state.Running? && q.commands[id].turnID == "";
    assert Renew(q, b.agentID, id, owner, "", now).commands == q.commands;
    var w2 := SetPhase(w1, owner, Reading(id, TakesQueued(w.queue, id)));
    var e2 := Extend(e1, w1, FirstRenew(owner, now, true), w2);
    var w3 := SetPhase(w2, owner, Following(id)).(launches := w2.launches + [Launch(id, owner, false)]);
    var e3 := Extend(e2, w2, ReadBack(owner), w3);
    w' := w3.(launches := w2.launches + [Launch(id, owner, true)]);
    e' := Extend(e3, w3, SendStart(|w2.launches|), w');
  }

  lemma {:induction false} CountAppend(launches: seq<Launch>, l: Launch)
    ensures l.sent ==> StartCount(launches + [l], l.id) == StartCount(launches, l.id) + 1
  {
    assert (launches + [l])[..|launches|] == launches;
  }

  /** First race, in every reachable world: a claim in the expiry millisecond of a
      running head with no recorded turn leads to one more start of it. */
  lemma ClaimAtExpiryStartsAgain(e: Execution, w: World, owner: string, id: string, permitted: set<string>)
    returns (e': Execution, w': World)
    requires Reaches(e, w) && id in w.queue.commands &&
             ReadyFor(w, owner, id, permitted, w.queue.commands[id].leaseUntil)
    requires w.queue.commands[id].state.Running? && w.queue.commands[id].turnID == ""
    ensures Reaches(e', w') && StartCount(w'.launches, id) == StartCount(w.launches, id) + 1
  {
    hide Reaches, ReadyFor, Leased;
    e', w' := StartsATurn(e, w, owner, id, permitted, w.queue.commands[id].leaseUntil);
    CountAppend(w.launches, Launch(id, owner, true));
  }

  /** Second race, in every reachable world: an operator closes an interrupted command
      with no recorded turn between the renewal and the read-back of a bridge. */
  lemma ReconcileBeforeReadBackStartsAgain(e: Execution, w: World, owner: string, id: string, now: int)
    returns (e': Execution, w': World)
    requires Reaches(e, w) && owner in w.bridges && w.bridges[owner].phase.Reading? && w.bridges[owner].phase.id == id
    requires id in w.queue.commands && w.queue.commands[id].state.Interrupted? && w.queue.commands[id].turnID == ""
    ensures Reaches(e', w') && StartCount(w'.launches, id) == StartCount(w.launches, id) + 1
  {
    var q := Reconcile(w.queue, id, now, now);
    var w1 := w.(queue := q);
    var e1 := Extend(e, w, Environment(ReconcileStep(id, now, now)), w1);
    var w2 := SetPhase(w1, owner, Following(id)).(launches := w.launches + [Launch(id, owner, false)]);
    var e2 := Extend(e1, w1, ReadBack(owner), w2);
    w' := w2.(launches := w.launches + [Launch(id, owner, true)]);
    e' := Extend(e2, w2, SendStart(|w.launches|), w');
    CountAppend(w.launches, Launch(id, owner, true));
  }

  const OWNER_A := "bridge-a"
  const OWNER_B := "bridge-b"

  /** One bound channel, one queued command "cmd_m", two polling bridges. */
  function Opening(): World
  {
    World(Queue(map["ops" := "bot"], map["cmd_m" := NewCommand(Message("m", "ops", "ann", 1), "bot")], map[]),
          map[OWNER_A := Bridge("bot", "ops", Polling), OWNER_B := Bridge("bot", "ops", Polling)], [])
  }

  lemma OpeningIsReachable() returns (e: Execution)
    ensures Reaches(e, Opening())
  {
    var empty := World(Queue(map[], map[], map[]), map[], []);
    var m := Message("m", "ops", "ann", 1);
    var w1 := empty.(queue := Queue(map["ops" := "bot"], map[], map[]));
    var w2 := w1.(queue := Queue(map["ops" := "bot"], map["cmd_m" := NewCommand(m, "bot")], map[]));
    var w3 := w2.(bridges := map[OWNER_A := Bridge("bot", "ops", Polling)]);
    e := Execution([empty], []);
    e := Extend(e, empty, Environment(BindStep("ops", "bot")), w1);
    assert CommandID(m) == "cmd_m";
    assert Enqueue(w1.queue, m, true) == w2.queue;
    e := Extend(e, w1, Environment(EnqueueStep(m, true)), w2);
    e := Extend(e, w2, Begin(OWNER_A, "bot", "ops"), w3);
    e := Extend(e, w3, Begin(OWNER_B, "bot", "ops"), Opening());
  }

  /** Bridge A has started the only command and then says nothing more. */
  lemma AfterFirstStart() returns (e: Execution, w: World)
    ensures Reaches(e, w) && StartCount(w.launches, "cmd_m") == 1
    ensures w.queue.bindings == map["ops" := "bot"] && w.queue.commands.Keys == {"cmd_m"}
    ensures w.bridges ==
            map[OWNER_A := Bridge("bot", "ops", Following("cmd_m")), OWNER_B := Bridge("bot", "ops", Polling)]
    ensures var c := w.queue.commands["cmd_m"];
            c.channelID == "ops" && c.agentID == "bot" && c.state.Running? && c.turnID == "" && c.leaseUntil == 60001
  {
    var e0 := OpeningIsReachable();
    e, w := StartsATurn(e0, Opening(), OWNER_A, "cmd_m", {"ann"}, 1);
    CountAppend([], Launch("cmd_m", OWNER_A, true));
  }

  /** The running command's second start when bridge B claims at millisecond 60001. */
  lemma ExpiryRaceRun() returns (e: Execution, w: World)
    ensures Reaches(e, w) && StartCount(w.launches, "cmd_m") == 2
  {
    var e1, w1 := AfterFirstStart();
    e, w := ClaimAtExpiryStartsAgain(e1, w1, OWNER_B, "cmd_m", {"ann"});
  }

  /** The second start when bridge B takes over at 60002 and an operator reconciles
      the command before B reads it back. */
  lemma ReconcileRaceRun() returns (e: Execution, w: World)
    ensures Reaches(e, w) && StartCount(w.launches, "cmd_m") == 2
  {
    var e1, w1 := AfterFirstStart();
    var e2, w2 := TakesOver(e1, w1, OWNER_B, "cmd_m", {"ann"}, 60002);
    e, w := ReconcileBeforeReadBackStartsAgain(e2, w2, OWNER_B, "cmd_m", 60003);
  }

  /** A claim after the expiry millisecond finds the command interrupted. */
  lemma TakesOver(e: Execution, w: World, owner: string, id: string, permitted: set<string>, now: int)
    returns (e': Execution, w': World)
    requires Reaches(e, w) && ReadyFor(w, owner, id, permitted, now)
    requires w.queue.commands[id].state.Running? && w.queue.commands[id].leaseUntil < now &&
             w.queue.commands[id].turnID == ""
    ensures Reaches(e', w') && w'.launches == w.launches
    ensures owner in w'.bridges && w'.bridges[owner].phase == Reading(id, false)
    ensures id in w'.queue.commands && w'.queue.commands[id].state.Interrupted? && w'.queue.commands[id].turnID == ""
  {
    hide IsHead;
    var b := w.bridges[owner];
    HeadIsActive(Sweep(w.queue, b.channelID, permitted, now), b.channelID, id);
    HeadInChannel(Sweep(w.queue, b.channelID, permitted, now), b.channelID, id);
    var q := Leased(w, id, owner, b.channelID, permitted, now);
    var w1 := SetPhase(w, owner, Holding(id, false)).(queue := q);
    var e1 := Extend(e, w, ClaimCall(owner, permitted, now, Some(id), true), w1);
    assert Renew(q, b.agentID, id, owner, "", now).commands == q.commands;
    w' := SetPhase(w1, owner, Reading(id, false));
    e' := Extend(e1, w1, FirstRenew(owner, now, true), w');
  }
}
