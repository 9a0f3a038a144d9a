/** The queue tables as an object updated in place; every method is one
    transaction proved against the queue functions. Authorisation lookups come in
    as their answers. */
module AgentQueueStore {
  import opened Basics
  import opened Ordering
  import opened AgentQueue
  import opened QueueLaws

  lemma OlderTransitive(a: Command, b: Command, c: Command)
    requires Older(a, b) && Older(b, c)
    ensures Older(a, c)
  {
    if a.createdAt == b.createdAt == c.createdAt {
      LessTransitive(a.id, b.id, c.id);
    }
  }

  datatype Refusal = Invalid | NotOperator | NotBound
  datatype ClaimReply = Idle | Claimed(id: string) | ClaimRefused(reason: Refusal)
  datatype BindRefusal = Forbidden | UnknownAgent | AlreadyBound
  datatype BindReply = Bound | BindRefused(reason: BindRefusal)
  datatype AgentInfo = AgentInfo(id: string, enabled: bool, operator: bool)
  /** What decides whether a message is a command: the message and its author. */
  datatype Sender = Sender(topLevel: bool, deleted: bool, disabled: bool, isAgent: bool, isBot: bool, isAdmin: bool,
                           operator: bool)

  /** Deliberate top-level messages of enabled people who may operate the channel. */
  predicate Eligible(s: Sender)
  {
    s.topLevel && !s.deleted && !s.disabled && !s.isAgent && !s.isBot && (s.isAdmin || s.operator)
  }

  datatype Audit = Audit(action: string, detail: string)
  datatype Action = CancelAction | ReconciledAction | OtherAction

  ghost function OfAgent(q: Queue, agentID: string): Queue
  {
    q.(commands := map id | id in q.commands && q.commands[id].agentID == agentID :: q.commands[id])
  }

  /** The oldest active command of a channel, by scanning the rows. */
  method OldestActive(ghost q: Queue, commands: map<string, Command>, channelID: string) returns (found: Option<string>)
    requires q.commands == commands && RowsOK(q)
    ensures found.None? ==> NoneActive(q, channelID)
    ensures found.Some? ==> IsHead(q, channelID, found.value)
    ensures found.Some? ==> found.value in commands
  {
    found := None;
    var rows := commands.Keys;
    while rows != {}
      invariant rows <= commands.Keys
      invariant found.None? ==> forall id :: id in commands && id !in rows && commands[id].channelID == channelID ==>
                !Active(commands[id].state)
      invariant found.Some? ==>
                found.value in commands && commands[found.value].channelID == channelID &&
                  Active(commands[found.value].state)
      invariant found.Some? ==>
        forall id ::
          (id in commands && id !in rows && id != found.value &&
           commands[id].channelID == channelID && Active(commands[id].state))
          ==> Older(commands[found.value], commands[id])
      decreases |rows|
    {
      var id :| id in rows;
      var c := commands[id];
      if c.channelID == channelID && Active(c.state) {
        if found.None? {
          found := Some(id);
        } else if found.value != id {
          OlderIsTotal(c, commands[found.value]);
          if Older(c, commands[found.value]) {
            forall other | other in commands && other !in rows && other != id &&
              commands[other].channelID == channelID && Active(commands[other].state)
              ensures Older(c, commands[other])
            {
              if other != found.value {
                OlderTransitive(c, commands[found.value], commands[other]);
              }
            }
            found := Some(id);
          }
        }
      }
      rows := rows - {id};
    }
  }

  function RevokeOne(c: Command, channelID: string, permitted: set<string>, now: int): Command
  {
    if c.channelID == channelID && c.state.Queued? && c.authorID !in permitted
    then c.(state := Cancelled, result := REVOKED, updatedAt := now) else c
  }

  function InterruptOne(c: Command, channelID: string, now: int): Command
  {
    if c.channelID == channelID && (c.state.Running? || c.state.Cancelling?) && c.leaseUntil < now
    then c.(state := Interrupted, updatedAt := now) else c
  }

  lemma SweepIsBothUpdates(c: Command, channelID: string, permitted: set<string>, now: int)
    ensures InterruptOne(RevokeOne(c, channelID, permitted, now), channelID, now) ==
            SweepOne(c, channelID, permitted, now)
  {
  }

  class Store {
    var bindings: map<string, string>
    var commands: map<string, Command>
    var replies: map<string, string>
    var audits: seq<Audit>

    constructor ()
      ensures Tables() == Queue(map[], map[], map[]) && audits == []
    {
      audits := [];
      bindings, commands, replies := map[], map[], map[];
    }

    function Tables(): Queue
      reads this
    {
      Queue(bindings, commands, replies)
    }

    /** An administrator binds an enabled agent that operates the channel. Bindings are
        immutable: a second agent is refused. Only a new binding is audited. */
    method BindAgent(channelID: string, isAdmin: bool, agent: Option<AgentInfo>) returns (reply: BindReply)
      modifies this`bindings, this`audits
      ensures !isAdmin || (agent.Some? && !(agent.value.enabled && agent.value.operator)) ==>
              reply == BindRefused(Forbidden)
      ensures isAdmin && agent.None? ==> reply == BindRefused(UnknownAgent)
      ensures isAdmin && agent.Some? && agent.value.enabled && agent.value.operator ==>
                && Tables() == Bind(old(Tables()), channelID, agent.value.id)
                && (channelID !in old(bindings) ==> bindings == old(bindings)[channelID := agent.value.id])
                && (channelID in old(bindings) ==> bindings == old(bindings))
                && reply == if bindings[channelID] == agent.value.id then Bound else BindRefused(AlreadyBound)
      ensures reply.BindRefused? ==> Tables() == old(Tables())
      ensures audits == old(audits) +
                if Tables() == old(Tables()) then []
                else [Audit("agent.binding.create", channelID + ":" + bindings[channelID])]
      ensures forall ch :: ch in old(bindings) ==> ch in bindings && bindings[ch] == old(bindings)[ch]
    {
      if !isAdmin {
        return BindRefused(Forbidden);
      }
      if agent.None? {
        return BindRefused(UnknownAgent);
      }
      if !agent.value.enabled || !agent.value.operator {
        return BindRefused(Forbidden);
      }
      var added := channelID !in bindings;
      if added {
        bindings := bindings[channelID := agent.value.id];
      }
      if bindings[channelID] != agent.value.id {
        return BindRefused(AlreadyBound);
      }
      if added {
        audits := audits + [Audit("agent.binding.create", channelID + ":" + agent.value.id)];
      }
      reply := Bound;
    }

    method EnqueueCommand(m: Message, sender: Sender)
      modifies this`commands
      ensures Tables() == Enqueue(old(Tables()), m, Eligible(sender))
      ensures EnqueuesOnce(old(Tables()), m,
                           sender.topLevel && !sender.deleted && !sender.disabled && !sender.isAgent && !sender.isBot &&
                           (sender.isAdmin || sender.operator), Tables())
    {
      EnqueueLaw(Tables(), m, Eligible(sender));
      hide EnqueuesOnce;
      if sender.topLevel && !sender.deleted && !sender.disabled && !sender.isAgent && !sender.isBot &&
         (sender.isAdmin || sender.operator) && m.channelID in bindings && CommandID(m) !in commands &&
         !exists id :: id in commands && commands[id].messageID == m.id {
        commands := commands[CommandID(m) := NewCommand(m, bindings[m.channelID])];
      }
    }

    /** Wakeup check for the bound agent of a channel it operates: its oldest active
        command exists and its lease has run out. */
    method AgentCommandPending(channelID: string, agentID: string, operator: bool, now: int)
      returns (pending: Option<bool>)
      requires RowsOK(Tables())
      ensures pending.Some? <==> operator && channelID in bindings && bindings[channelID] == agentID
      ensures var q := OfAgent(Tables(), agentID);
              pending.Some? ==>
                (pending.value <==> exists id :: IsOldest(q, channelID, id) && q.commands[id].leaseUntil <= now)
    {
      if !operator || channelID !in bindings || bindings[channelID] != agentID {
        return None;
      }
      ghost var q := OfAgent(Tables(), agentID);
      var own := map id | id in commands && commands[id].agentID == agentID :: commands[id];
      assert q.commands == own;
      var head := OldestActive(q, own, channelID);
      pending := Some(head.Some? && own[head.value].leaseUntil <= now);
      forall id | IsHead(q, channelID, id)
        ensures head == Some(id)
      {
        if head.Some? && id != head.value {
          OlderIsTotal(own[id], own[head.value]);
        }
      }
      forall id ensures IsHead(q, channelID, id) <==> IsOldest(q, channelID, id) {
        HeadLaw(q, channelID, id);
      }
    }

    /** First bulk update of a claim: queued commands of authors without permission end. */
    method RevokeQueued(channelID: string, permitted: set<string>, now: int)
      modifies this`commands
      ensures commands.Keys == old(commands).Keys
      ensures forall id :: id in commands ==> commands[id] == RevokeOne(old(commands)[id], channelID, permitted, now)
    {
      commands := map id | id in commands :: RevokeOne(commands[id], channelID, permitted, now);
    }

    /** Second bulk update: commands whose lease ran out are interrupted. */
    method InterruptExpired(channelID: string, now: int)
      modifies this`commands
      ensures commands.Keys == old(commands).Keys
      ensures forall id :: id in commands ==> commands[id] == InterruptOne(old(commands)[id], channelID, now)
    {
      commands := map id | id in commands :: InterruptOne(commands[id], channelID, now);
    }

    /** The two bulk updates at the start of a claim. */
    method SweepChannel(channelID: string, permitted: set<string>, now: int)
      modifies this`commands
      ensures Tables() == Sweep(old(Tables()), channelID, permitted, now)
    {
      hide RevokeOne, InterruptOne, SweepOne;
      ghost var rows := commands;
      RevokeQueued(channelID, permitted, now);
      InterruptExpired(channelID, now);
      forall id | id in commands
        ensures commands[id] == SweepOne(rows[id], channelID, permitted, now)
      {
        SweepIsBothUpdates(rows[id], channelID, permitted, now);
      }
      assert commands == Sweep(old(Tables()), channelID, permitted, now).commands;
    }

    method ClaimAgentCommand(agentID: string, channelID: string, owner: string, operator: bool, permitted: set<string>,
                             now: int)
      returns (reply: ClaimReply)
      requires RowsOK(Tables())
      modifies this`commands
      ensures !operator ==> Tables() == old(Tables())
      ensures operator ==>
              Claim(old(Tables()), agentID, channelID, owner, permitted, now, Tables(),
                    if reply.Claimed? then Some(reply.id) else None)
      ensures operator ==>
              Claims(old(Tables()), agentID, channelID, owner, permitted, now, Tables(),
                     if reply.Claimed? then Some(reply.id) else None)
      ensures !reply.ClaimRefused? ==>
                forall id :: id in commands && commands[id].channelID == channelID && commands[id].state == Queued ==>
                  commands[id].authorID in permitted
      ensures reply.ClaimRefused? <==> !operator || !MayAsk(old(Tables()), agentID, channelID, owner)
      ensures reply.Claimed? ==>
                && reply.id in commands && Held(commands[reply.id].state)
                && commands[reply.id].leaseOwner == owner && commands[reply.id].leaseUntil == now + LEASE_MS
    {
      ghost var before := Tables();
      reply := ClaimRow(agentID, channelID, owner, operator, permitted, now);
      hide Claim, Claims, RowsOK;
      if operator {
        ghost var claimed := if reply.Claimed? then Some(reply.id) else None;
        ClaimLaw(before, agentID, channelID, owner, permitted, now, Tables(), claimed);
        if !reply.ClaimRefused? {
          NoQueuedWithoutPermission(before, agentID, channelID, owner, permitted, now, Tables(), claimed);
        }
      }
    }

    /** The guards, the sweep and the lease of a claim. */
    method ClaimRow(agentID: string, channelID: string, owner: string, operator: bool, permitted: set<string>, now: int)
      returns (reply: ClaimReply)
      requires RowsOK(Tables())
      modifies this`commands
      ensures !operator ==> Tables() == old(Tables())
      ensures operator ==>
              Claim(old(Tables()), agentID, channelID, owner, permitted, now, Tables(),
                    if reply.Claimed? then Some(reply.id) else None)
      ensures reply.ClaimRefused? <==> !operator || !MayClaim(old(Tables()), agentID, channelID, owner)
      ensures reply.Claimed? ==>
                && reply.id in commands && Held(commands[reply.id].state)
                && commands[reply.id].leaseOwner == owner && commands[reply.id].leaseUntil == now + LEASE_MS
    {
      hide IsHead, NoneActive, RowsOK, Sweep;
      if |owner| < 8 || |owner| > 128 {
        return ClaimRefused(Invalid);
      }
      if !operator {
        return ClaimRefused(NotOperator);
      }
      if channelID !in bindings || bindings[channelID] != agentID {
        return ClaimRefused(NotBound);
      }
      ghost var before := Tables();
      SweepChannel(channelID, permitted, now);
      SweepKeepsRows(before, channelID, permitted, now);
      var head := OldestActive(Tables(), commands, channelID);
      if head.Some? {
        HeadIsActive(Tables(), channelID, head.value);
      }
      if head.None? || commands[head.value].leaseUntil > now {
        return Idle;
      }
      var id, c := head.value, commands[head.value];
      commands := commands[id := c.(state := if c.state.Queued? then Running else c.state,
                                    leaseOwner := owner, leaseUntil := now + LEASE_MS, updatedAt := now)];
      reply := Claimed(id);
    }

    method RenewAgentCommand(agentID: string, id: string, owner: string, turnID: string, agentMay: bool,
                             authorMay: bool, now: int) returns (ok: bool)
      modifies this`commands
      ensures ok <==> agentMay && authorMay && CanRenew(old(Tables()), agentID, id, owner, turnID, now)
      ensures Tables() == if ok then Renew(old(Tables()), agentID, id, owner, turnID, now) else old(Tables())
      ensures if agentMay && authorMay then RenewsIfHeld(old(Tables()), agentID, id, owner, turnID, now, ok, Tables())
              else !ok && Tables() == old(Tables())
    {
      RenewLaw(Tables(), agentID, id, owner, turnID, now);
      hide RenewsIfHeld;
      if id !in commands || !agentMay || !authorMay || |turnID| > 200 {
        return false;
      }
      var c := commands[id];
      if c.agentID != agentID || c.leaseOwner != owner || c.leaseUntil <= now || !Held(c.state) ||
         (c.turnID != "" && turnID != "" && c.turnID != turnID) {
        return false;
      }
      var recorded := if turnID == "" then c.turnID else turnID;
      commands := commands[id := c.(leaseUntil := now + LEASE_MS, turnID := recorded, updatedAt := now)];
      ok := true;
    }

    method CompleteAgentCommand(agentID: string, id: string, owner: string, state: CommandState, result: string,
                                agentMay: bool, now: int) returns (ok: bool)
      modifies this`commands, this`replies
      ensures ok <==> agentMay && CanComplete(old(Tables()), agentID, id, owner, state, result, now)
      ensures Tables() == if ok then Complete(old(Tables()), agentID, id, owner, state, result, now) else old(Tables())
      ensures if agentMay then CompletesIfHeld(old(Tables()), agentID, id, owner, state, result, now, ok, Tables())
              else !ok && Tables() == old(Tables())
    {
      CompleteLaw(Tables(), agentID, id, owner, state, result, now);
      hide CompletesIfHeld;
      if (!state.Completed? && !state.Failed? && !state.Cancelled?) || |result| > 4000 || id !in commands || !agentMay {
        return false;
      }
      var c := commands[id];
      if c.agentID != agentID || c.leaseOwner != owner || c.leaseUntil <= now || !Held(c.state) {
        return false;
      }
      commands := commands[id := c.(state := state, result := result, updatedAt := now, leaseUntil := 0)];
      if id !in replies {
        replies := replies[id := ReplyText(state, result)];
      }
      ok := true;
    }

    method ControlAgentCommand(id: string, action: Action, operator: bool, stamp: int, now: int) returns (ok: bool)
      modifies this`commands, this`audits
      ensures audits == old(audits) +
                if !ok then []
                else [Audit(if action.CancelAction? then "agent.command.cancel" else "agent.command.reconciled", id)]
      ensures !operator || action.OtherAction? ==> !ok && Tables() == old(Tables())
      ensures operator && action.CancelAction? ==> CancelsIfOpen(old(Tables()), id, stamp, Tables())
      ensures operator && action.ReconciledAction? ==> ReconcilesIfStopped(old(Tables()), id, stamp, now, Tables())
      ensures operator && action.CancelAction? ==> Tables() == Cancel(old(Tables()), id, stamp)
      ensures operator && action.ReconciledAction? ==> Tables() == Reconcile(old(Tables()), id, stamp, now)
      ensures ok <==> operator && id in old(commands) && commands[id].state != old(commands)[id].state
    {
      CancelLaw(Tables(), id, stamp);
      ReconcileLaw(Tables(), id, stamp, now);
      hide CancelsIfOpen, ReconcilesIfStopped;
      if id !in commands || !operator {
        return false;
      }
      var c := commands[id];
      match action {
      case CancelAction =>
        ok := c.state.Queued? || c.state.Running? || c.state.Interrupted?;
        if ok {
          var state := if c.state.Queued? then Cancelled else Cancelling;
          commands := commands[id := c.(state := state, cancelRequested := true, updatedAt := stamp)];
        }
      case ReconciledAction =>
        ok := c.state.Interrupted? || ((c.state.Running? || c.state.Cancelling?) && c.leaseUntil < now);
        if ok {
          commands := commands[id := c.(state := Cancelled, result := RECONCILED, updatedAt := stamp)];
        }
      case OtherAction =>
        ok := false;
      }
      if ok {
        audits := audits +
          [Audit(if action.CancelAction? then "agent.command.cancel" else "agent.command.reconciled", id)];
      }
    }
  }

  lemma SweepKeepsRows(q: Queue, channelID: string, permitted: set<string>, now: int)
    requires RowsOK(q)
    ensures RowsOK(Sweep(q, channelID, permitted, now))
  {
  }
}
