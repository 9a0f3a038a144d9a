/** The durable command queue: one row per command, changed only by the guarded
    updates of these transactions. Clock readings are arbitrary inputs. */
module AgentQueue {
  import opened Basics
  import opened Ordering

  const LEASE_MS := 60000
  const REVOKED := "Author no longer has command permission."
  const RECONCILED := "Human verified runtime stopped; command closed without replay."

  datatype CommandState = Queued | Running | Cancelling | Interrupted | Completed | Failed | Cancelled

  predicate Active(s: CommandState) { s.Queued? || Held(s) }

  /** States in which a bridge may hold the command. */
  predicate Held(s: CommandState) { s.Running? || s.Cancelling? || s.Interrupted? }

  datatype Command = Command(id: string, channelID: string, agentID: string, messageID: string, authorID: string,
                             state: CommandState, leaseOwner: string, leaseUntil: int, turnID: string,
                             result: string, cancelRequested: bool, createdAt: int, updatedAt: int)

  datatype Message = Message(id: string, channelID: string, authorID: string, createdAt: int)

  /** `replies` holds the threaded reply of a command under the command's id. */
  datatype Queue = Queue(bindings: map<string, string>, commands: map<string, Command>, replies: map<string, string>)

  /** Queue order: creation time, then id. */
  predicate Older(a: Command, b: Command)
  {
    a.createdAt < b.createdAt || (a.createdAt == b.createdAt && Less(a.id, b.id))
  }

  lemma OlderIsTotal(a: Command, b: Command)
    requires a.id != b.id
    ensures Older(a, b) || Older(b, a)
    ensures !(Older(a, b) && Older(b, a))
  {
    LessTotal(a.id, b.id);
    if Less(a.id, b.id) { LessAsymmetric(a.id, b.id); }
    if Less(b.id, a.id) { LessAsymmetric(b.id, a.id); }
  }

  /* ---------- Transactions ---------- */

  function CommandID(m: Message): string { "cmd_" + m.id }

  function Bind(q: Queue, channelID: string, agentID: string): Queue
  {
    if channelID in q.bindings then q else q.(bindings := q.bindings[channelID := agentID])
  }

  function NewCommand(m: Message, agentID: string): Command
  {
    Command(CommandID(m), m.channelID, agentID, m.id, m.authorID, Queued, "", 0, "", "", false, m.createdAt,
            m.createdAt)
  }

  /** A top-level message of an eligible author in a bound channel, once. */
  function Enqueue(q: Queue, m: Message, eligible: bool): Queue
  {
    if !eligible || m.channelID !in q.bindings || CommandID(m) in q.commands ||
       exists id :: id in q.commands && q.commands[id].messageID == m.id
    then q
    else q.(commands := q.commands[CommandID(m) := NewCommand(m, q.bindings[m.channelID])])
  }

  /** The two bulk updates a claim starts with, on one row. */
  function SweepOne(c: Command, channelID: string, permitted: set<string>, now: int): Command
  {
    if c.channelID != channelID then c
    else if c.state.Queued? && c.authorID !in permitted then c.(state := Cancelled, result := REVOKED, updatedAt := now)
    else if (c.state.Running? || c.state.Cancelling?) && c.leaseUntil < now then
      c.(state := Interrupted, updatedAt := now)
    else c
  }

  function Sweep(q: Queue, channelID: string, permitted: set<string>, now: int): Queue
  {
    q.(commands := map id | id in q.commands :: SweepOne(q.commands[id], channelID, permitted, now))
  }

  /** The oldest active command of a channel. */
  predicate IsHead(q: Queue, channelID: string, id: string)
  {
    && id in q.commands && q.commands[id].channelID == channelID && Active(q.commands[id].state)
    && forall other ::
         (other in q.commands && other != id &&
          q.commands[other].channelID == channelID && Active(q.commands[other].state))
         ==> Older(q.commands[id], q.commands[other])
  }

  predicate NoneActive(q: Queue, channelID: string)
  {
    forall id :: id in q.commands && q.commands[id].channelID == channelID ==> !Active(q.commands[id].state)
  }

  function Lease(c: Command, owner: string, now: int): Command
  {
    c.(state := if c.state.Queued? then Running else c.state, leaseOwner := owner, leaseUntil := now + LEASE_MS,
       updatedAt := now)
  }

  predicate MayClaim(q: Queue, agentID: string, channelID: string, owner: string)
  {
    8 <= |owner| <= 128 && channelID in q.bindings && q.bindings[channelID] == agentID
  }

  /** Claim: after the sweep, lease the head unless its lease is in the future. */
  ghost predicate Claim(q: Queue, agentID: string, channelID: string, owner: string, permitted: set<string>, now: int,
                        q': Queue, claimed: Option<string>)
  {
    if !MayClaim(q, agentID, channelID, owner) then q' == q && claimed.None?
    else
      var swept := Sweep(q, channelID, permitted, now);
      match claimed
      case None =>
        q' == swept &&
          (NoneActive(swept, channelID) ||
           exists id :: IsHead(swept, channelID, id) && swept.commands[id].leaseUntil > now)
      case Some(id) =>
        && IsHead(swept, channelID, id) && swept.commands[id].leaseUntil <= now
        && q' == swept.(commands := swept.commands[id := Lease(swept.commands[id], owner, now)])
  }

  /** The lease check shared by renew and complete. */
  predicate HoldsLease(q: Queue, agentID: string, id: string, owner: string, now: int)
  {
    && id in q.commands && q.commands[id].agentID == agentID && q.commands[id].leaseOwner == owner
    && q.commands[id].leaseUntil > now && Held(q.commands[id].state)
  }

  predicate CanRenew(q: Queue, agentID: string, id: string, owner: string, turnID: string, now: int)
  {
    && |turnID| <= 200 && HoldsLease(q, agentID, id, owner, now)
    && (q.commands[id].turnID == "" || turnID == "" || q.commands[id].turnID == turnID)
  }

  function Renew(q: Queue, agentID: string, id: string, owner: string, turnID: string, now: int): Queue
  {
    if !CanRenew(q, agentID, id, owner, turnID, now) then q
    else
      var c := q.commands[id];
      var recorded := if turnID == "" then c.turnID else turnID;
      q.(commands := q.commands[id := c.(leaseUntil := now + LEASE_MS, turnID := recorded, updatedAt := now)])
  }

  predicate CanComplete(q: Queue, agentID: string, id: string, owner: string, state: CommandState, result: string,
                        now: int)
  {
    (state.Completed? || state.Failed? || state.Cancelled?) && |result| <= 4000 &&
      HoldsLease(q, agentID, id, owner, now)
  }

  function StateName(s: CommandState): string
  {
    match s
    case Completed => "completed" case Failed => "failed" case Cancelled => "cancelled"
    case Queued => "queued" case Running => "running" case Cancelling => "cancelling" case Interrupted => "interrupted"
  }

  function ReplyText(state: CommandState, result: string): string
  {
    if result == "" then "Agent command " + StateName(state) + "." else result
  }

  /** Close the command and publish its reply in the same transaction. */
  function Complete(q: Queue, agentID: string, id: string, owner: string, state: CommandState, result: string,
                    now: int): Queue
  {
    if !CanComplete(q, agentID, id, owner, state, result, now) then q
    else
      q.(commands :=
         q.commands[id := q.commands[id].(state := state, result := result, updatedAt := now, leaseUntil := 0)],
         replies := if id in q.replies then q.replies else q.replies[id := ReplyText(state, result)])
  }

  function Cancel(q: Queue, id: string, now: int): Queue
  {
    if id !in q.commands then q
    else if !(q.commands[id].state.Queued? || q.commands[id].state.Running? || q.commands[id].state.Interrupted?) then q
    else
      var c := q.commands[id];
      var state := if c.state.Queued? then Cancelled else Cancelling;
      q.(commands := q.commands[id := c.(state := state, cancelRequested := true, updatedAt := now)])
  }

  function Reconcile(q: Queue, id: string, stamp: int, now: int): Queue
  {
    if id !in q.commands then q
    else
      var c := q.commands[id];
      if c.state.Interrupted? || ((c.state.Running? || c.state.Cancelling?) && c.leaseUntil < now) then
        q.(commands := q.commands[id := c.(state := Cancelled, result := RECONCILED, updatedAt := stamp)])
      else q
  }

  /* ---------- Runs ---------- */

  datatype Step =
    | BindStep(channelID: string, agentID: string)
    | EnqueueStep(message: Message, eligible: bool)
    | ClaimStep(agentID: string, channelID: string, owner: string, permitted: set<string>, now: int,
                claimed: Option<string>)
    | RenewStep(agentID: string, id: string, owner: string, turnID: string, now: int)
    | CompleteStep(agentID: string, id: string, owner: string, state: CommandState, result: string, now: int)
    | CancelStep(id: string, now: int)
    | ReconcileStep(id: string, stamp: int, now: int)

  ghost predicate Next(q: Queue, step: Step, q': Queue)
  {
    match step
    case BindStep(channelID, agentID) => q' == Bind(q, channelID, agentID)
    case EnqueueStep(m, eligible) => q' == Enqueue(q, m, eligible)
    case ClaimStep(agentID, channelID, owner, permitted, now, claimed) =>
      Claim(q, agentID, channelID, owner, permitted, now, q', claimed)
    case RenewStep(agentID, id, owner, turnID, now) => q' == Renew(q, agentID, id, owner, turnID, now)
    case CompleteStep(agentID, id, owner, state, result, now) =>
      q' == Complete(q, agentID, id, owner, state, result, now)
    case CancelStep(id, now) => q' == Cancel(q, id, now)
    case ReconcileStep(id, stamp, now) => q' == Reconcile(q, id, stamp, now)
  }

  datatype Run = Run(states: seq<Queue>, steps: seq<Step>)

  ghost predicate ValidRun(run: Run)
  {
    && |run.states| == |run.steps| + 1
    && run.states[0] == Queue(map[], map[], map[])
    && forall i :: 0 <= i < |run.steps| ==> Next(run.states[i], run.steps[i], run.states[i + 1])
  }

  /** New commands come after all commands of their channel. */
  ghost predicate Arrives(q: Queue, m: Message)
  {
    forall id :: id in q.commands && q.commands[id].channelID == m.channelID ==>
      Older(q.commands[id], NewCommand(m, ""))
  }

  ghost predicate InOrder(run: Run)
  {
    |run.states| == |run.steps| + 1 &&
    forall i ::
      (0 <= i < |run.steps| && run.steps[i].EnqueueStep? &&
       Enqueue(run.states[i], run.steps[i].message, run.steps[i].eligible) != run.states[i])
      ==> Arrives(run.states[i], run.steps[i].message)
  }

  /* ---------- How one step may change one command ---------- */

  /** Legal change of a command row. */
  ghost predicate Evolves(c: Command, c': Command)
  {
    && c'.id == c.id && c'.channelID == c.channelID && c'.agentID == c.agentID && c'.messageID == c.messageID
    && c'.authorID == c.authorID && c'.createdAt == c.createdAt
    && (!Active(c.state) ==> c' == c)
    && (c.turnID != "" ==> c'.turnID == c.turnID)
    && (c'.state.Queued? ==> c' == c)
    && (c.state.Queued? && Held(c'.state) ==> c'.state.Running?)
    && (c'.state.Running? ==> c.state.Queued? || c.state.Running?)
    && (c.cancelRequested ==> c'.cancelRequested)
  }

  lemma HeadIsActive(q: Queue, channelID: string, id: string)
    requires IsHead(q, channelID, id)
    ensures id in q.commands && Active(q.commands[id].state)
  {
  }

  lemma ClaimEvolves(q: Queue, step: Step, q': Queue, id: string)
    requires step.ClaimStep? && Next(q, step, q') && id in q.commands
    ensures id in q'.commands && Evolves(q.commands[id], q'.commands[id])
  {
    hide IsHead, NoneActive;
    if step.claimed.Some? && MayClaim(q, step.agentID, step.channelID, step.owner) {
      HeadIsActive(Sweep(q, step.channelID, step.permitted, step.now), step.channelID, step.claimed.value);
    }
    var c := q.commands[id];
    var swept := SweepOne(c, step.channelID, step.permitted, step.now);
    assert q'.commands[id] == c || q'.commands[id] == swept || q'.commands[id] == Lease(swept, step.owner, step.now);
  }

  lemma StepEvolves(q: Queue, step: Step, q': Queue, id: string)
    requires Next(q, step, q') && id in q.commands
    ensures id in q'.commands && Evolves(q.commands[id], q'.commands[id])
  {
    hide Claim;
    if step.ClaimStep? {
      ClaimEvolves(q, step, q', id);
    }
  }

  /** Rows are keyed by their id, and queued rows carry no lease and no turn. */
  ghost predicate RowsOK(q: Queue)
  {
    forall id :: id in q.commands ==>
      && q.commands[id].id == id
      && (q.commands[id].state.Queued? ==>
          q.commands[id].leaseOwner == "" && q.commands[id].leaseUntil == 0 && q.commands[id].turnID == "")
  }

  lemma StepKeepsRows(q: Queue, step: Step, q': Queue)
    requires RowsOK(q) && Next(q, step, q')
    ensures RowsOK(q')
  {
    forall id | id in q'.commands
      ensures q'.commands[id].id == id
      ensures q'.commands[id].state.Queued? ==>
              q'.commands[id].leaseOwner == "" && q'.commands[id].leaseUntil == 0 && q'.commands[id].turnID == ""
    {
      if id in q.commands {
        StepEvolves(q, step, q', id);
      }
    }
  }

  lemma {:induction false} RunKeepsRows(run: Run, i: nat)
    requires ValidRun(run) && i < |run.states|
    ensures RowsOK(run.states[i])
  {
    hide Next, RowsOK;
    if i == 0 {
      EmptyRowsOK();
    } else {
      RunKeepsRows(run, i - 1);
      assert Next(run.states[i - 1], run.steps[i - 1], run.states[i - 1 + 1]);
      StepKeepsRows(run.states[i - 1], run.steps[i - 1], run.states[i]);
    }
  }

  lemma EmptyRowsOK()
    ensures RowsOK(Queue(map[], map[], map[]))
  {
  }

  /* ---------- First in, first out ---------- */

  /** All active commands of a channel but the oldest are still queued. */
  ghost predicate OnlyHeadHeld(q: Queue)
  {
    forall a, b ::
      (a in q.commands && b in q.commands && q.commands[a].channelID == q.commands[b].channelID &&
       Active(q.commands[a].state) && Older(q.commands[a], q.commands[b]))
      ==> !Held(q.commands[b].state)
  }

  lemma OnlyClaimsHandOut(q: Queue, step: Step, q': Queue, b: string)
    requires RowsOK(q) && Next(q, step, q') && b in q.commands && b in q'.commands
    requires q.commands[b].state.Queued? && Held(q'.commands[b].state)
    ensures step.ClaimStep? && step.claimed == Some(b) && MayClaim(q, step.agentID, step.channelID, step.owner)
  {
    hide IsHead, NoneActive, Older;
  }

  /** A command can become held only as the head of its channel. */
  lemma OnlyHeadBecomesHeld(q: Queue, step: Step, q': Queue, b: string)
    requires RowsOK(q) && Next(q, step, q') && b in q.commands && b in q'.commands
    requires q.commands[b].state.Queued? && Held(q'.commands[b].state)
    ensures IsHead(q', q.commands[b].channelID, b)
  {
    OnlyClaimsHandOut(q, step, q', b);
    hide Older, MayClaim, RowsOK, NoneActive;
    var swept := Sweep(q, step.channelID, step.permitted, step.now);
    forall other |
      other in q'.commands && other != b && q'.commands[other].channelID == step.channelID &&
        Active(q'.commands[other].state)
      ensures Older(q'.commands[b], q'.commands[other])
    {
      assert swept.commands[other] == q'.commands[other];
    }
  }

  lemma NewArrivalsComeLast(q: Queue, step: Step, q': Queue, b: string)
    requires Next(q, step, q') && b in q'.commands && b !in q.commands
    ensures step.EnqueueStep? && b == CommandID(step.message) && q' == Enqueue(q, step.message, step.eligible) &&
            q' != q
    ensures q'.commands[b] == NewCommand(step.message, q'.commands[b].agentID)
    ensures forall a :: a in q'.commands && a != b ==> a in q.commands && q'.commands[a] == q.commands[a]
  {
  }

  lemma StepKeepsOrder(q: Queue, step: Step, q': Queue)
    requires RowsOK(q) && OnlyHeadHeld(q) && Next(q, step, q')
    requires step.EnqueueStep? && q' != q ==> Arrives(q, step.message)
    ensures OnlyHeadHeld(q')
  {
    forall a, b | a in q'.commands && b in q'.commands && q'.commands[a].channelID == q'.commands[b].channelID &&
                  Active(q'.commands[a].state) && Older(q'.commands[a], q'.commands[b])
      ensures !Held(q'.commands[b].state)
    {
      StepKeepsOrderOfPair(q, step, q', a, b);
    }
  }

  lemma StepKeepsOrderOfPair(q: Queue, step: Step, q': Queue, a: string, b: string)
    requires RowsOK(q) && OnlyHeadHeld(q) && Next(q, step, q')
    requires step.EnqueueStep? && q' != q ==> Arrives(q, step.message)
    requires a in q'.commands && b in q'.commands && q'.commands[a].channelID == q'.commands[b].channelID
    requires Active(q'.commands[a].state) && Older(q'.commands[a], q'.commands[b])
    ensures !Held(q'.commands[b].state)
  {
    StepKeepsRows(q, step, q');
    if b !in q.commands {
      NewArrivalsComeLast(q, step, q', b);
    } else {
      StepEvolves(q, step, q', b);
      if a !in q.commands {
        NewArrivalsComeLast(q, step, q', a);
        hide Next;
        assert Older(q.commands[b], NewCommand(step.message, ""));
        OlderIsTotal(q'.commands[a], q'.commands[b]);
      } else {
        StepEvolves(q, step, q', a);
        if q.commands[b].state.Queued? && Held(q'.commands[b].state) {
          OnlyHeadBecomesHeld(q, step, q', b);
          hide Next;
          if a == b { LessIrreflexive(b); } else { OlderIsTotal(q'.commands[a], q'.commands[b]); }
        } else {
          hide Next;
          assert Older(q.commands[a], q.commands[b]);
        }
      }
    }
  }

  lemma {:induction false} RunKeepsOrder(run: Run, i: nat)
    requires ValidRun(run) && InOrder(run) && i < |run.states|
    ensures OnlyHeadHeld(run.states[i])
  {
    hide Next, RowsOK, OnlyHeadHeld, Arrives;
    if i == 0 {
      EmptyOrder();
    } else {
      RunKeepsOrder(run, i - 1);
      RunKeepsRows(run, i - 1);
      assert Next(run.states[i - 1], run.steps[i - 1], run.states[i - 1 + 1]);
      if run.steps[i - 1].EnqueueStep? && run.states[i] != run.states[i - 1] {
        EnqueueIsNext(run.states[i - 1], run.steps[i - 1], run.states[i]);
      }
      StepKeepsOrder(run.states[i - 1], run.steps[i - 1], run.states[i]);
    }
  }

  lemma EmptyOrder()
    ensures OnlyHeadHeld(Queue(map[], map[], map[]))
  {
  }

  lemma EnqueueIsNext(q: Queue, step: Step, q': Queue)
    requires Next(q, step, q') && step.EnqueueStep?
    ensures q' == Enqueue(q, step.message, step.eligible)
  {
  }

  /* ---------- Main results ---------- */

  /** At most one command per channel is running, cancelling or interrupted; the
      other active ones are younger, still queued, and carry no lease. */
  lemma OneHeldPerChannel(run: Run, i: nat, a: string, b: string)
    requires ValidRun(run) && InOrder(run) && i < |run.states|
    requires var q := run.states[i];
             && a in q.commands && b in q.commands && a != b && q.commands[a].channelID == q.commands[b].channelID
             && Held(q.commands[a].state) && Active(q.commands[b].state)
    ensures var q := run.states[i];
            && Older(q.commands[a], q.commands[b])
            && q.commands[b].state.Queued? && q.commands[b].leaseOwner == "" && q.commands[b].leaseUntil == 0
  {
    RunKeepsOrder(run, i);
    RunKeepsRows(run, i);
    hide Next;
    OlderIsTotal(run.states[i].commands[a], run.states[i].commands[b]);
  }

  /** Commands start in order: when one starts, every older command of the
      channel has already ended. */
  lemma StartsInOrder(run: Run, i: nat, a: string, b: string)
    requires ValidRun(run) && i < |run.steps|
    requires a in run.states[i].commands && b in run.states[i].commands && b in run.states[i + 1].commands
    requires run.states[i].commands[b].state.Queued? && run.states[i + 1].commands[b].state.Running?
    requires run.states[i].commands[a].channelID == run.states[i].commands[b].channelID
    requires Older(run.states[i].commands[a], run.states[i].commands[b])
    ensures a in run.states[i + 1].commands && !Active(run.states[i + 1].commands[a].state)
  {
    var q, step, q' := run.states[i], run.steps[i], run.states[i + 1];
    assert Next(q, step, q');
    RunKeepsRows(run, i);
    StepEvolves(q, step, q', a);
    StepEvolves(q, step, q', b);
    OnlyHeadBecomesHeld(q, step, q', b);
    hide Next;
    if a == b { LessIrreflexive(a); } else { OlderIsTotal(q'.commands[a], q'.commands[b]); }
  }

  /** Over any stretch of a run: ended commands never change again, and a
      recorded turn id stays. */
  lemma {:induction false} CommandsEvolve(run: Run, i: nat, j: nat, id: string)
    requires ValidRun(run) && i <= j < |run.states| && id in run.states[i].commands
    ensures id in run.states[j].commands
    ensures var c, c' := run.states[i].commands[id], run.states[j].commands[id];
            && (!Active(c.state) ==> c' == c)
            && (c.turnID != "" ==> c'.turnID == c.turnID)
            && (c'.state.Running? ==> c.state.Queued? || c.state.Running?)
            && (c'.state.Queued? ==> c' == c)
            && (c.cancelRequested ==> c'.cancelRequested)
    decreases j - i
  {
    hide Next;
    if i < j {
      CommandsEvolve(run, i, j - 1, id);
      assert Next(run.states[j - 1], run.steps[j - 1], run.states[j - 1 + 1]);
      StepEvolves(run.states[j - 1], run.steps[j - 1], run.states[j], id);
    }
  }

  /* ---------- Replies ---------- */

  /** Step i closed the command through completion. */
  ghost predicate Completes(run: Run, i: nat, id: string)
    requires |run.states| == |run.steps| + 1
  {
    && i < |run.steps| && run.steps[i].CompleteStep? && run.steps[i].id == id
    && var s := run.steps[i]; CanComplete(run.states[i], s.agentID, id, s.owner, s.state, s.result, s.now)
  }

  ghost predicate CompletedBefore(run: Run, i: nat, id: string)
    requires |run.states| == |run.steps| + 1
  {
    exists j :: 0 <= j < i && Completes(run, j, id)
  }

  lemma CompletionEnds(run: Run, i: nat, id: string)
    requires ValidRun(run) && Completes(run, i, id)
    ensures id in run.states[i].commands && Active(run.states[i].commands[id].state)
    ensures id in run.states[i + 1].commands && !Active(run.states[i + 1].commands[id].state)
    ensures id in run.states[i + 1].replies
  {
    assert Next(run.states[i], run.steps[i], run.states[i + 1]);
  }

  /** A command is completed at most once. */
  lemma CompletedAtMostOnce(run: Run, i: nat, j: nat, id: string)
    requires ValidRun(run) && Completes(run, i, id) && Completes(run, j, id)
    ensures i == j
  {
    hide Next;
    CompletionEnds(run, i, id);
    CompletionEnds(run, j, id);
    if i < j {
      CommandsEvolve(run, i + 1, j, id);
    } else if j < i {
      CommandsEvolve(run, j + 1, i, id);
    }
  }

  lemma RepliesChangeOnlyByCompletion(run: Run, i: nat, id: string)
    requires ValidRun(run) && i < |run.steps|
    ensures id in run.states[i + 1].replies <==> id in run.states[i].replies || Completes(run, i, id)
    ensures id in run.states[i].replies ==> run.states[i + 1].replies[id] == run.states[i].replies[id]
    ensures Completes(run, i, id) && id !in run.states[i].replies ==>
              run.states[i + 1].replies[id] == ReplyText(run.steps[i].state, run.steps[i].result)
  {
    assert Next(run.states[i], run.steps[i], run.states[i + 1]);
  }

  /** A command has its one reply exactly if it ended through completion. */
  lemma {:induction false} ReplyIffCompleted(run: Run, i: nat, id: string)
    requires ValidRun(run) && i < |run.states|
    ensures id in run.states[i].replies <==> CompletedBefore(run, i, id)
  {
    hide Next, Completes;
    if i > 0 {
      ReplyIffCompleted(run, i - 1, id);
      RepliesChangeOnlyByCompletion(run, i - 1, id);
      assert run.states[i - 1 + 1] == run.states[i];
      if Completes(run, i - 1, id) {
        assert 0 <= i - 1 < i;
      }
    }
  }

  /** The reply carries the result of that completion, and stays. */
  lemma {:induction false} ReplyIsTheResult(run: Run, i: nat, j: nat, id: string)
    requires ValidRun(run) && Completes(run, i, id) && i < j < |run.states|
    ensures id in run.states[j].replies
    ensures run.states[j].replies[id] == ReplyText(run.steps[i].state, run.steps[i].result)
    decreases j
  {
    hide Next;
    if j == i + 1 {
      ReplyIffCompleted(run, i, id);
      if CompletedBefore(run, i, id) {
        var k :| 0 <= k < i && Completes(run, k, id);
        CompletedAtMostOnce(run, i, k, id);
      }
      RepliesChangeOnlyByCompletion(run, i, id);
    } else {
      ReplyIsTheResult(run, i, j - 1, id);
      RepliesChangeOnlyByCompletion(run, j - 1, id);
      assert run.states[j - 1 + 1] == run.states[j];
    }
  }
}
