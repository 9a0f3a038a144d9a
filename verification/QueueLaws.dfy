/** What each queue transaction does, row by row and without the functions that compute
    it, and exactly when it succeeds. */
module QueueLaws {
  import opened Basics
  import opened Ordering
  import opened AgentQueue

  predicate Unfinished(s: CommandState) { s in {Queued, Running, Cancelling, Interrupted} }

  predicate InHands(s: CommandState) { s in {Running, Cancelling, Interrupted} }

  /** The oldest unfinished command of a channel: by creation time, then id. */
  ghost predicate IsOldest(q: Queue, channelID: string, id: string)
  {
    && id in q.commands && q.commands[id].channelID == channelID && Unfinished(q.commands[id].state)
    && forall other ::
         (other in q.commands && other != id &&
          q.commands[other].channelID == channelID && Unfinished(q.commands[other].state))
         ==> q.commands[id].createdAt < q.commands[other].createdAt ||
             (q.commands[id].createdAt == q.commands[other].createdAt && Less(q.commands[id].id, q.commands[other].id))
  }

  ghost predicate AllFinished(q: Queue, channelID: string)
  {
    forall id :: id in q.commands && q.commands[id].channelID == channelID ==> !Unfinished(q.commands[id].state)
  }

  lemma HeadLaw(q: Queue, channelID: string, id: string)
    ensures IsHead(q, channelID, id) <==> IsOldest(q, channelID, id)
    ensures NoneActive(q, channelID) <==> AllFinished(q, channelID)
  {
  }

  /* ---------- Enqueueing ---------- */

  /** A row is added for an eligible message of a bound channel that has none yet. */
  ghost predicate EnqueuesOnce(q: Queue, m: Message, eligible: bool, s: Queue)
  {
    if eligible && m.channelID in q.bindings && "cmd_" + m.id !in q.commands &&
       (forall id :: id in q.commands ==> q.commands[id].messageID != m.id)
    then
      s == q.(commands := q.commands["cmd_" + m.id :=
        Command("cmd_" + m.id, m.channelID, q.bindings[m.channelID], m.id, m.authorID, Queued, "", 0, "", "", false,
                m.createdAt, m.createdAt)])
    else s == q
  }

  lemma EnqueueLaw(q: Queue, m: Message, eligible: bool)
    ensures EnqueuesOnce(q, m, eligible, Enqueue(q, m, eligible))
  {
  }

  /* ---------- Claiming ---------- */

  /** A row the claim does not hand out: revoked, interrupted, or as it was. */
  ghost predicate SweptRow(c: Command, channelID: string, permitted: set<string>, now: int, s: Command)
  {
    if c.channelID != channelID then s == c
    else if c.state == Queued && c.authorID !in permitted then
      s == c.(state := Cancelled, result := "Author no longer has command permission.", updatedAt := now)
    else if c.state in {Running, Cancelling} && c.leaseUntil < now then s == c.(state := Interrupted, updatedAt := now)
    else s == c
  }

  /** The row the claim hands out. */
  ghost predicate HandedRow(c: Command, owner: string, permitted: set<string>, now: int, s: Command)
  {
    && c.leaseUntil <= now && (c.state == Queued ==> c.authorID in permitted)
    && var state :=
         if c.state == Queued then Running
         else if c.state in {Running, Cancelling} && c.leaseUntil < now then Interrupted
         else c.state;
       s == c.(state := state, leaseOwner := owner, leaseUntil := now + 60000, updatedAt := now)
  }

  predicate MayAsk(q: Queue, agentID: string, channelID: string, owner: string)
  {
    8 <= |owner| && |owner| <= 128 && channelID in q.bindings && q.bindings[channelID] == agentID
  }

  /** A claim, row by row: what is handed out is the oldest command left after the sweep,
      and nothing only if there is none or its lease lies in the future. */
  ghost predicate Claims(q: Queue, agentID: string, channelID: string, owner: string, permitted: set<string>, now: int,
                         s: Queue, claimed: Option<string>)
  {
    if !MayAsk(q, agentID, channelID, owner) then s == q && claimed == None
    else
      && s.bindings == q.bindings && s.replies == q.replies && s.commands.Keys == q.commands.Keys
      && (forall id :: id in q.commands && claimed != Some(id) ==>
          SweptRow(q.commands[id], channelID, permitted, now, s.commands[id]))
      && match claimed
         case None =>
           AllFinished(s, channelID) || exists id :: IsOldest(s, channelID, id) && s.commands[id].leaseUntil > now
         case Some(id) =>
           && id in q.commands && IsOldest(s, channelID, id)
           && HandedRow(q.commands[id], owner, permitted, now, s.commands[id])
  }

  lemma SweepLaw(c: Command, channelID: string, permitted: set<string>, now: int)
    ensures SweptRow(c, channelID, permitted, now, SweepOne(c, channelID, permitted, now))
  {
  }

  lemma HandOutLaw(c: Command, channelID: string, owner: string, permitted: set<string>, now: int)
    requires var swept := SweepOne(c, channelID, permitted, now);
             c.channelID == channelID && Active(swept.state) && swept.leaseUntil <= now
    ensures HandedRow(c, owner, permitted, now, Lease(SweepOne(c, channelID, permitted, now), owner, now))
  {
  }

  /** Leasing the head leaves it the oldest. */
  lemma LeasedHeadIsOldest(q: Queue, channelID: string, id: string, owner: string, now: int)
    requires IsHead(q, channelID, id)
    ensures IsOldest(q.(commands := q.commands[id := Lease(q.commands[id], owner, now)]), channelID, id)
  {
    hide Less;
    var s := q.(commands := q.commands[id := Lease(q.commands[id], owner, now)]);
    forall other | other in s.commands && other != id && s.commands[other].channelID == channelID &&
      Unfinished(s.commands[other].state)
      ensures s.commands[id].createdAt < s.commands[other].createdAt ||
              (s.commands[id].createdAt == s.commands[other].createdAt && Less(s.commands[id].id, s.commands[other].id))
    {
      assert Older(q.commands[id], q.commands[other]);
    }
  }

  lemma ClaimLaw(q: Queue, agentID: string, channelID: string, owner: string, permitted: set<string>, now: int,
                 s: Queue,
                 claimed: Option<string>)
    requires Claim(q, agentID, channelID, owner, permitted, now, s, claimed)
    ensures Claims(q, agentID, channelID, owner, permitted, now, s, claimed)
  {
    hide IsHead, IsOldest, NoneActive, AllFinished, SweepOne, SweptRow, HandedRow, Lease;
    if MayAsk(q, agentID, channelID, owner) {
      var swept := Sweep(q, channelID, permitted, now);
      forall id | id in q.commands && claimed != Some(id)
        ensures SweptRow(q.commands[id], channelID, permitted, now, s.commands[id])
      {
        SweepLaw(q.commands[id], channelID, permitted, now);
      }
      match claimed
      case None =>
        forall id ensures IsHead(swept, channelID, id) <==> IsOldest(swept, channelID, id) {
          HeadLaw(swept, channelID, id);
        }
        HeadLaw(swept, channelID, "");
      case Some(id) =>
        HeadIsActive(swept, channelID, id);
        HeadStaysInChannel(q, channelID, permitted, now, id);
        HandOutLaw(q.commands[id], channelID, owner, permitted, now);
        LeasedHeadIsOldest(swept, channelID, id, owner, now);
    }
  }

  lemma HeadStaysInChannel(q: Queue, channelID: string, permitted: set<string>, now: int, id: string)
    requires IsHead(Sweep(q, channelID, permitted, now), channelID, id)
    ensures id in q.commands && q.commands[id].channelID == channelID
  {
  }

  /** After a claim every queued command of the channel has an author who may command. */
  lemma NoQueuedWithoutPermission(q: Queue, agentID: string, channelID: string, owner: string, permitted: set<string>,
                                  now: int, s: Queue, claimed: Option<string>)
    requires Claims(q, agentID, channelID, owner, permitted, now, s, claimed) && MayAsk(q, agentID, channelID, owner)
    ensures forall id :: id in s.commands && s.commands[id].channelID == channelID && s.commands[id].state == Queued ==>
              s.commands[id].authorID in permitted
  {
    hide IsOldest, AllFinished;
  }

  /** Over any run: a command starts running only through a claim that finds its author
      permitted. */
  lemma RunsOnlyWithPermission(run: Run, i: nat, id: string)
    requires ValidRun(run) && i < |run.steps| && id in run.states[i].commands && id in run.states[i + 1].commands
    requires run.states[i].commands[id].state == Queued && run.states[i + 1].commands[id].state == Running
    ensures run.steps[i].ClaimStep? && run.steps[i].claimed == Some(id)
    ensures run.states[i].commands[id].authorID in run.steps[i].permitted
  {
    RunKeepsRows(run, i);
    var q, step, s := run.states[i], run.steps[i], run.states[i + 1];
    assert Next(q, step, s);
    OnlyClaimsHandOut(q, step, s, id);
    hide Claims, RowsOK;
    ClaimLaw(q, step.agentID, step.channelID, step.owner, step.permitted, step.now, s, step.claimed);
    HandedOutWithPermission(q, step.agentID, step.channelID, step.owner, step.permitted, step.now, s, id);
  }

  lemma HandedOutWithPermission(q: Queue, agentID: string, channelID: string, owner: string, permitted: set<string>,
                                now: int, s: Queue, id: string)
    requires Claims(q, agentID, channelID, owner, permitted, now, s, Some(id))
    ensures id in q.commands && (q.commands[id].state == Queued ==> q.commands[id].authorID in permitted)
  {
    hide IsOldest, AllFinished;
  }

  /* ---------- Renewing and completing ---------- */

  /** The caller holds the live lease of a command in hands. */
  predicate Holds(q: Queue, agentID: string, id: string, owner: string, now: int)
  {
    && id in q.commands && q.commands[id].agentID == agentID && q.commands[id].leaseOwner == owner
    && q.commands[id].leaseUntil > now && InHands(q.commands[id].state)
  }

  /** A renewal gives another minute and records the turn, if no other is recorded. */
  ghost predicate RenewsIfHeld(q: Queue, agentID: string, id: string, owner: string, turnID: string, now: int, ok: bool,
                               s: Queue)
  {
    && (ok <==> |turnID| <= 200 && Holds(q, agentID, id, owner, now) &&
                (q.commands[id].turnID == "" || turnID == "" || q.commands[id].turnID == turnID))
    && (!ok ==> s == q)
    && (ok ==> var c := q.commands[id];
        s == q.(commands := q.commands[id :=
          c.(leaseUntil := now + 60000, turnID := if turnID == "" then c.turnID else turnID, updatedAt := now)]))
  }

  lemma RenewLaw(q: Queue, agentID: string, id: string, owner: string, turnID: string, now: int)
    ensures RenewsIfHeld(q, agentID, id, owner, turnID, now, CanRenew(q, agentID, id, owner, turnID, now),
                         Renew(q, agentID, id, owner, turnID, now))
  {
  }

  /** The result, or a sentence that names the outcome. */
  function ReplyOf(state: CommandState, result: string): string
  {
    if result != "" then result
    else if state == Completed then "Agent command completed."
    else if state == Failed then "Agent command failed."
    else "Agent command cancelled."
  }

  lemma ReplyTextLaw(state: CommandState, result: string)
    requires state in {Completed, Failed, Cancelled}
    ensures ReplyText(state, result) == ReplyOf(state, result)
  {
  }

  /** Completion ends the command with its result and publishes the reply, once. */
  ghost predicate CompletesIfHeld(q: Queue, agentID: string, id: string, owner: string, state: CommandState,
                                  result: string, now: int, ok: bool, s: Queue)
  {
    && (ok <==> state in {Completed, Failed, Cancelled} && |result| <= 4000 && Holds(q, agentID, id, owner, now))
    && (!ok ==> s == q)
    && (ok ==>
        && s.bindings == q.bindings
        && s.commands ==
             q.commands[id := q.commands[id].(state := state, result := result, updatedAt := now, leaseUntil := 0)]
        && s.replies == if id in q.replies then q.replies else q.replies[id := ReplyOf(state, result)])
  }

  lemma CompleteLaw(q: Queue, agentID: string, id: string, owner: string, state: CommandState, result: string, now: int)
    ensures CompletesIfHeld(q, agentID, id, owner, state, result, now,
                            CanComplete(q, agentID, id, owner, state, result, now),
                            Complete(q, agentID, id, owner, state, result, now))
  {
    if state in {Completed, Failed, Cancelled} {
      ReplyTextLaw(state, result);
    }
    hide ReplyText, ReplyOf;
  }

  /** In every run the reply of a completed command is its result, or the sentence. */
  lemma ReplySaysTheResult(run: Run, i: nat, j: nat, id: string)
    requires ValidRun(run) && Completes(run, i, id) && i < j < |run.states|
    ensures id in run.states[j].replies
    ensures run.states[j].replies[id] == ReplyOf(run.steps[i].state, run.steps[i].result)
  {
    hide Next;
    ReplyIsTheResult(run, i, j, id);
    assert run.steps[i].state in {Completed, Failed, Cancelled};
    ReplyTextLaw(run.steps[i].state, run.steps[i].result);
  }

  /* ---------- Operators ---------- */

  /** A queued command ends at once, one in a bridge's hands is asked to stop. */
  ghost predicate CancelsIfOpen(q: Queue, id: string, now: int, s: Queue)
  {
    if id in q.commands && q.commands[id].state in {Queued, Running, Interrupted} then
      s == q.(commands := q.commands[id := q.commands[id].(
        state := if q.commands[id].state == Queued then Cancelled
          else Cancelling, cancelRequested := true, updatedAt := now)])
    else s == q
  }

  lemma CancelLaw(q: Queue, id: string, now: int)
    ensures CancelsIfOpen(q, id, now, Cancel(q, id, now))
  {
  }

  /** An interrupted command, or one whose lease ran out, is closed without a reply. */
  ghost predicate ReconcilesIfStopped(q: Queue, id: string, stamp: int, now: int, s: Queue)
  {
    if id in q.commands && (q.commands[id].state == Interrupted ||
         (q.commands[id].state in {Running, Cancelling} && q.commands[id].leaseUntil < now)) then
      s == q.(commands := q.commands[id := q.commands[id].(state := Cancelled,
        result := "Human verified runtime stopped; command closed without replay.", updatedAt := stamp)])
    else s == q
  }

  lemma ReconcileLaw(q: Queue, id: string, stamp: int, now: int)
    ensures ReconcilesIfStopped(q, id, stamp, now, Reconcile(q, id, stamp, now))
  {
  }
}
