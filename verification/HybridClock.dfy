/** Local sequence numbers and hybrid timestamps along every cluster run. */
module HybridClock {
  import opened Basics
  import opened NotificationRecord
  import opened ReplicaState
  import opened ReplicationCluster

  /* ---------- Sequences are allocated once, consecutively ---------- */

  lemma StepExtendsLog(c: Cluster, step: Step, c': Cluster, origin: string)
    requires Next(c, step, c') && origin in c.log
    ensures origin in c'.log && c.log[origin] <= c'.log[origin]
  {
    hide ReceiveWebhook, ChangeState, ApplyBatch, Prune, ApplySnapshot, Exports;
  }

  /** Later logs extend earlier ones: no sequence is reused or reassigned. */
  lemma {:induction false} LogOnlyGrows(run: Run, i: nat, j: nat, origin: string)
    requires ValidRun(run) && i <= j < |run.states| && origin in run.states[i].log
    ensures origin in run.states[j].log && run.states[i].log[origin] <= run.states[j].log[origin]
    decreases j - i
  {
    hide Next, Init;
    if i < j {
      LogOnlyGrows(run, i, j - 1, origin);
      assert Next(run.states[j - 1], run.steps[j - 1], run.states[j - 1 + 1]);
      StepExtendsLog(run.states[j - 1], run.steps[j - 1], run.states[j], origin);
    }
  }

  /** The n-th operation an origin allocates carries sequence n. */
  lemma SequencesAreConsecutive(run: Run, i: nat, origin: string, n: nat)
    requires ValidRun(run) && i < |run.states| && origin in run.states[i].log && n < |run.states[i].log[origin]|
    ensures KeyOf(run.states[i].log[origin][n]) == OpKey(origin, n + 1)
  {
    hide Next, Init;
    RunKeepsInv(run, i);
    var log := run.states[i].log;
    assert WellNumbered(log);
    hide Inv;
    assert Known(log, OpKey(origin, n + 1));
  }

  /* ---------- Hybrid timestamps ---------- */

  ghost predicate Earlier(a: Operation, b: Operation)
  {
    a.physicalMS < b.physicalMS || (a.physicalMS == b.physicalMS && a.logical < b.logical)
  }

  ghost predicate RetainsOwn(r: Replica, s: nat) { OpKey(r.nodeID, s) in r.envelopes }

  /** Own envelopes are a suffix of the own log, with increasing timestamps. */
  ghost predicate ClockOK(log: Log, r: Replica)
  {
    && (forall s: nat, t: nat :: RetainsOwn(r, s) && s <= t <= (if r.nodeID in log then |log[r.nodeID]| else 0) ==>
        RetainsOwn(r, t))
    && (forall s: nat, t: nat :: RetainsOwn(r, s) && RetainsOwn(r, t) && s < t ==>
          Earlier(r.envelopes[OpKey(r.nodeID, s)], r.envelopes[OpKey(r.nodeID, t)]))
  }

  /** The logical counter of every retained own operation can be incremented. */
  ghost predicate CounterHasRoom(r: Replica)
  {
    forall s: nat :: RetainsOwn(r, s) ==> r.envelopes[OpKey(r.nodeID, s)].logical < LOGICAL_RANGE - 1
  }

  ghost predicate SameOwnEnvelopes(r: Replica, r': Replica)
  {
    && r'.nodeID == r.nodeID
    && (forall s: nat :: RetainsOwn(r, s) <==> RetainsOwn(r', s))
    && (forall s: nat :: RetainsOwn(r, s) ==> r'.envelopes[OpKey(r.nodeID, s)] == r.envelopes[OpKey(r.nodeID, s)])
  }

  lemma SameOwnKeepsClock(log: Log, r: Replica, r': Replica)
    requires ClockOK(log, r) && SameOwnEnvelopes(r, r')
    ensures ClockOK(log, r')
  {
  }

  lemma OthersLogKeepsClock(log: Log, log': Log, r: Replica)
    requires ClockOK(log, r)
    requires r.nodeID in log && r.nodeID in log' && log'[r.nodeID] == log[r.nodeID]
    ensures ClockOK(log', r)
  {
  }

  lemma {:induction false} BatchKeepsOwn(log: Log, start: Replica, before: set<OpKey>, current: Replica,
                                         taken: set<OpKey>, origin: string, ops: seq<Operation>)
    requires WellNumbered(log) && ReplicaOK(log, start, before) && ReplicaOK(log, current, before + taken)
    requires current.nodeID == start.nodeID && current.clusterID == start.clusterID && SameOwnEnvelopes(start, current)
    requires forall i :: 0 <= i < |ops| ==> Allocated(log, ops[i])
    ensures SameOwnEnvelopes(start, ApplyFrom(start, current, taken, origin, ops).replica)
    decreases |ops|
  {
    hide ReplicaOK, ApplyOne, KeyOf, SameOwnEnvelopes;
    if ops == [] {
    } else {
      assert Allocated(log, ops[0]);
      match ApplyOne(current, origin, ops[0])
      case Advanced(next) =>
        AdvanceKeepsOK(log, current, before + taken, origin, ops[0], next);
        AdvanceKeepsOwn(log, current, before + taken, origin, ops[0], next);
        SameOwnTransitive(start, current, next);
        assert before + taken + {KeyOf(ops[0])} == before + (taken + {KeyOf(ops[0])});
        BatchKeepsOwn(log, start, before, next, taken + {KeyOf(ops[0])}, origin, ops[1..]);
      case Repeated =>
        BatchKeepsOwn(log, start, before, current, taken, origin, ops[1..]);
      case Isolated(next) =>
        IsolationKeepsTables(current, origin, ops[0], next);
        SameTablesSameOwn(current, next);
        SameOwnTransitive(start, current, next);
      case _ =>
        SameTablesSameOwn(start, start);
    }
  }

  lemma SameOwnTransitive(a: Replica, b: Replica, c: Replica)
    requires SameOwnEnvelopes(a, b) && SameOwnEnvelopes(b, c)
    ensures SameOwnEnvelopes(a, c)
  {
  }

  lemma SameTablesSameOwn(r: Replica, r': Replica)
    requires SameReplicationTables(r, r')
    ensures SameOwnEnvelopes(r, r')
  {
  }

  lemma AdvanceKeepsOwn(log: Log, r: Replica, processed: set<OpKey>, origin: string, op: Operation, next: Replica)
    requires WellNumbered(log) && ReplicaOK(log, r, processed) && Allocated(log, op)
    requires ApplyOne(r, origin, op) == Advanced(next)
    ensures SameOwnEnvelopes(r, next)
  {
    AdvanceShape(r, origin, op, next);
    if origin == r.nodeID {
      OwnOriginNeverAdvances(log, r, op, next);
    }
    assert Honest(OpAt(log, KeyOf(op)));
    EffectAbsorbs(r, op, Effect(r, op).next);
  }

  lemma NewestOwnIsPrevious(log: Log, r: Replica, s: nat)
    requires TablesOK(log, r) && WellNumbered(log) && ClockOK(log, r) && RetainsOwn(r, s)
    ensures var top := |log[r.nodeID]|;
            && s <= top && RetainsOwn(r, top)
            && var newest := r.envelopes[OpKey(r.nodeID, top)];
               PreviousClock(r) == Clock(top, newest.physicalMS, newest.logical)
  {
    MarkIsHighWater(log, r, r.nodeID);
    var top := |log[r.nodeID]|;
    assert Known(log, OpKey(r.nodeID, s));
    assert RetainsOwn(r, top);
    assert Known(log, OpKey(r.nodeID, top)) && Honest(OpAt(log, OpKey(r.nodeID, top)));
  }

  /** The new timestamp is later than every retained own one. */
  lemma NextIsLater(log: Log, r: Replica, op: Operation, s: nat)
    requires TablesOK(log, r) && WellNumbered(log) && ClockOK(log, r) && CounterHasRoom(r) && RetainsOwn(r, s) &&
             Stamped(r, op)
    ensures Earlier(r.envelopes[OpKey(r.nodeID, s)], op)
  {
    NewestOwnIsPrevious(log, r, s);
    hide PreviousClock, TablesOK, WellNumbered, Earlier, NextClock;
    var top := |log[r.nodeID]|;
    assert RetainsOwn(r, top);
    var newest := r.envelopes[OpKey(r.nodeID, top)];
    StampIsLater(newest, op);
    assert s < top ==> Earlier(r.envelopes[OpKey(r.nodeID, s)], newest);
    EarlierChain(r.envelopes[OpKey(r.nodeID, s)], newest, op);
  }

  lemma StampIsLater(newest: Operation, op: Operation)
    requires newest.logical < LOGICAL_RANGE - 1
    requires exists top: nat ::
             Clock(op.sequence, op.physicalMS, op.logical) ==
               NextClock(Clock(top, newest.physicalMS, newest.logical), op.createdAt)
    ensures Earlier(newest, op)
  {
  }

  lemma EarlierChain(a: Operation, b: Operation, c: Operation)
    requires (a == b || Earlier(a, b)) && Earlier(b, c)
    ensures Earlier(a, c)
  {
  }

  lemma LaterOperationKeepsClock(log: Log, r: Replica, op: Operation)
    requires r.nodeID in log && ClockOK(log, r) && KeyOf(op) == OpKey(r.nodeID, |log[r.nodeID]| + 1)
    requires forall s: nat :: RetainsOwn(r, s) ==> s <= |log[r.nodeID]| && Earlier(r.envelopes[OpKey(r.nodeID, s)], op)
    ensures ClockOK(log[r.nodeID := log[r.nodeID] + [op]], r.(envelopes := r.envelopes[KeyOf(op) := op]))
  {
    hide Earlier;
    var r' := r.(envelopes := r.envelopes[KeyOf(op) := op]);
    assert forall s: nat :: RetainsOwn(r', s) <==> RetainsOwn(r, s) || s == |log[r.nodeID]| + 1;
  }

  lemma LocalAppendKeepsClock(log: Log, r: Replica, r': Replica, op: Operation, id: NotificationID, record: Record)
    requires TablesOK(log, r) && WellNumbered(log) && ClockOK(log, r) && CounterHasRoom(r)
    requires IsLocalEffect(log, r, r', op, id, record)
    ensures ClockOK(log[r.nodeID := log[r.nodeID] + [op]], r')
  {
    hide Honest, Absorbs, Earlier;
    forall s: nat | RetainsOwn(r, s)
      ensures s <= |log[r.nodeID]| && Earlier(r.envelopes[OpKey(r.nodeID, s)], op)
    {
      assert Known(log, OpKey(r.nodeID, s));
      hide Stamped, WellNumbered, ClockOK, CounterHasRoom, TablesOK;
      NextIsLater(log, r, op, s);
    }
    hide TablesOK, WellNumbered, ClockOK, CounterHasRoom, Stamped;
    LaterOperationKeepsClock(log, r, op);
    SameOwnKeepsClock(log[r.nodeID := log[r.nodeID] + [op]], r.(envelopes := r.envelopes[KeyOf(op) := op]), r');
  }

  lemma PruneKeepsClock(log: Log, r: Replica, origin: string, through: nat, r': Replica)
    requires ClockOK(log, r) && Prune(r, origin, through) == Some(r')
    ensures ClockOK(log, r')
  {
    PruneShape(r, origin, through, r');
    hide Prune, Earlier;
    assert forall s: nat :: RetainsOwn(r', s) <==> RetainsOwn(r, s) && !(r.nodeID == origin && s <= through);
  }

  /* ---------- Every step ---------- */

  ghost predicate ClusterClockOK(c: Cluster, node: string)
  {
    node in c.replicas && ClockOK(c.log, c.replicas[node])
  }

  lemma LocalChangeKeepsClock(c: Cluster, n: string, r': Replica, c': Cluster, node: string)
    requires Inv(c) && n in c.replicas && ClusterClockOK(c, node)
    requires node == n ==> CounterHasRoom(c.replicas[node])
    requires LocalChange(c, n, Some(r'), c') && LocalEffect(c.log, c.replicas[n], r')
    ensures ClusterClockOK(c', node)
  {
    var r := c.replicas[n];
    NodeTablesOK(c, n);
    hide ReplicaOK, SentOK, WellNumbered, IsLocalEffect, LocalEffect, LocalChange, ClockOK, CounterHasRoom, TablesOK;
    var op, id, record := LocalChangeCases(c, n, r', c');
    if c' != c {
      if node == n {
        LocalAppendKeepsClock(c.log, r, r', op, id, record);
      } else {
        OthersLogKeepsClock(c.log, c'.log, c.replicas[node]);
      }
    }
  }

  lemma LocalStepKeepsClock(c: Cluster, step: Step, c': Cluster, node: string)
    requires Inv(c) && Next(c, step, c') && ClusterClockOK(c, node) && (step.Receive? || step.SetState?)
    requires node == step.node ==> CounterHasRoom(c.replicas[node])
    ensures ClusterClockOK(c', node)
  {
    var r := c.replicas[step.node];
    NodeTablesOK(c, step.node);
    hide ReceiveWebhook, ChangeState, LocalEffect, ClockOK, CounterHasRoom, ReplicaOK, SentOK, WellNumbered, TablesOK;
    match step
    case Receive(_, webhookID, channelID, input, found, entropy, now) =>
      var result := ReceiveWebhook(r, webhookID, channelID, input, found, entropy, now);
      if result.Some? {
        ReceiveIsLocalEffect(c.log, r, webhookID, channelID, input, found, entropy, now, result.value);
        LocalChangeKeepsClock(c, step.node, result.value, c', node);
      }
    case SetState(_, id, state, actorID, authorised, size, now) =>
      var result := ChangeState(r, id, state, actorID, authorised, size, now);
      if result.Some? {
        ChangeIsLocalEffect(c.log, r, id, state, actorID, authorised, size, now, result.value);
        LocalChangeKeepsClock(c, step.node, result.value, c', node);
      }
  }

  lemma DeliverKeepsClock(c: Cluster, n: string, ops: seq<Operation>, c': Cluster)
    requires Inv(c) && Next(c, Deliver(n, ops), c') && ClusterClockOK(c, n)
    ensures ClusterClockOK(c', n)
  {
    hide ReplicaOK, SentOK, WellNumbered, ApplyFrom, Allocated, ClockOK, SameOwnEnvelopes;
    var r := c.replicas[n];
    SameTablesSameOwn(r, r);
    if ops != [] {
      assert c.processed[n] + {} == c.processed[n];
      BatchKeepsOwn(c.log, r, c.processed[n], r, {}, ops[0].origin, ops);
      SameOwnKeepsClock(c.log, r, ApplyBatch(r, ops).replica);
    }
  }

  lemma MergeKeepsClock(c: Cluster, n: string, m: SentSnapshot, now: int, c': Cluster)
    requires Inv(c) && Next(c, MergeSnapshot(n, m, now), c') && ClusterClockOK(c, n)
    ensures ClusterClockOK(c', n)
  {
    hide ApplySnapshot, ClockOK, Inv;
    var r := c.replicas[n];
    if ApplySnapshot(r, m.snapshot, now).Some? {
      SnapshotShape(r, m.snapshot, now, c'.replicas[n]);
      assert SameOwnEnvelopes(r, c'.replicas[n]);
      SameOwnKeepsClock(c.log, r, c'.replicas[n]);
    }
  }

  lemma QuietStepKeepsClock(c: Cluster, step: Step, c': Cluster)
    requires Next(c, step, c') && ClusterClockOK(c, step.node)
    requires step.AddChannel? || step.AddWebhook? || step.BuildSnapshot? || step.WriteUnlogged?
    ensures ClusterClockOK(c', step.node)
  {
    hide Exports, ClockOK;
    var r, r' := c.replicas[step.node], c'.replicas[step.node];
    assert SameOwnEnvelopes(r, r');
    SameOwnKeepsClock(c.log, r, r');
  }

  lemma PruneStepKeepsClock(c: Cluster, n: string, origin: string, through: nat, c': Cluster)
    requires Next(c, PruneRange(n, origin, through), c') && ClusterClockOK(c, n)
    ensures ClusterClockOK(c', n)
  {
    hide Prune, ClockOK;
    if Prune(c.replicas[n], origin, through).Some? {
      PruneKeepsClock(c.log, c.replicas[n], origin, through, Prune(c.replicas[n], origin, through).value);
    }
  }

  lemma OtherNodesUntouched(c: Cluster, step: Step, c': Cluster, node: string)
    requires Next(c, step, c') && node in c.replicas && node != step.node && !step.Receive? && !step.SetState?
    ensures c'.log == c.log && node in c'.replicas && c'.replicas[node] == c.replicas[node]
  {
    hide Prune, ApplySnapshot, ApplyBatch, Exports, Allocated;
  }

  lemma StepKeepsClock(c: Cluster, step: Step, c': Cluster, node: string)
    requires Inv(c) && Next(c, step, c') && ClusterClockOK(c, node)
    requires node == step.node ==> CounterHasRoom(c.replicas[node])
    ensures ClusterClockOK(c', node)
  {
    hide Next, Inv, ClockOK, CounterHasRoom;
    if step.Receive? || step.SetState? {
      LocalStepKeepsClock(c, step, c', node);
    } else if node != step.node {
      OtherNodesUntouched(c, step, c', node);
    } else {
      match step
      case Deliver(n, ops) => DeliverKeepsClock(c, n, ops, c');
      case PruneRange(n, origin, through) => PruneStepKeepsClock(c, n, origin, through, c');
      case MergeSnapshot(n, m, now) => MergeKeepsClock(c, n, m, now, c');
      case _ => QuietStepKeepsClock(c, step, c');
    }
  }

  /** Along every run, under any clock readings and prunes, the retained own
      operations of a node are the tail of what it allocated and their hybrid
      timestamps strictly increase, as long as its logical counter has room. */
  lemma {:induction false} TimestampsIncrease(run: Run, i: nat, node: string)
    requires ValidRun(run) && i < |run.states| && node in run.states[0].replicas
    requires forall j :: 0 <= j < i && node in run.states[j].replicas ==> CounterHasRoom(run.states[j].replicas[node])
    ensures ClusterClockOK(run.states[i], node)
  {
    hide Next, ClockOK, CounterHasRoom, Inv;
    if i == 0 {
      EmptyClockOK(run.states[0], node);
    } else {
      TimestampsIncrease(run, i - 1, node);
      RunKeepsInv(run, i - 1);
      assert Next(run.states[i - 1], run.steps[i - 1], run.states[i - 1 + 1]);
      StepKeepsClock(run.states[i - 1], run.steps[i - 1], run.states[i], node);
    }
  }

  lemma EmptyClockOK(c: Cluster, node: string)
    requires Init(c) && node in c.replicas
    ensures ClockOK(c.log, c.replicas[node])
  {
    assert c.replicas[node].envelopes == map[];
  }
}
