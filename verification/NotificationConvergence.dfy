/** What the operations a node has taken in say about one notification. Everything is
    per card: unlogged writes and updates of other cards do not matter. */
module NotificationConvergence {
  import opened Basics
  import opened NotificationRecord
  import opened ReplicaState
  import opened ReplicationCluster
  import opened ReplicaStore

  type Notes = map<NotificationID, Record>

  /* ---------- The accounts of one card ---------- */

  /** Operation k is known and about this card. */
  ghost predicate About(log: Log, k: OpKey, id: NotificationID)
  {
    Known(log, k) && Concerns(OpAt(log, k), id)
  }

  ghost predicate GivesState(log: Log, k: OpKey, id: NotificationID, state: State)
  {
    About(log, k, id) && OpAt(log, k).payload.body.value.state == state
  }

  ghost predicate GivesCreation(log: Log, k: OpKey, id: NotificationID, createdAt: int)
  {
    About(log, k, id) && OpAt(log, k).kind.Created? && OpAt(log, k).payload.body.value.createdAt == createdAt
  }

  /** The operation is a create that the card's creation time and identity reflect. */
  ghost predicate OriginReflects(op: Operation, record: Record)
  {
    op.payload.body.Some? && op.kind.Created? ==>
      && record.createdAt <= op.payload.body.value.createdAt
      && SameExternalKey(record, op.actorID, op.payload.body.value.externalKey)
  }

  ghost predicate StateReflects(op: Operation, record: Record)
  {
    op.payload.body.Some? ==> StateRank(op.payload.body.value.state) <= StateRank(record.state)
  }

  /** The card exists exactly if an operation about it was taken in; its creation time is
      the earliest and its identity that of every create among them. */
  ghost predicate OriginOK(log: Log, processed: set<OpKey>, notes: Notes, id: NotificationID)
  {
    && (forall k :: k in processed && About(log, k, id) ==> id in notes && OriginReflects(OpAt(log, k), notes[id]))
    && (id in notes ==> exists k :: k in processed && GivesCreation(log, k, id, notes[id].createdAt))
  }

  /** The state is the highest among the operations taken in. */
  ghost predicate StateOK(log: Log, processed: set<OpKey>, notes: Notes, id: NotificationID)
  {
    && (forall k :: k in processed && About(log, k, id) ==> id in notes && StateReflects(OpAt(log, k), notes[id]))
    && (id in notes ==> exists k :: k in processed && GivesState(log, k, id, notes[id].state))
  }

  /** No operation taken in is an update of this card. */
  ghost predicate NeverUpdated(log: Log, processed: set<OpKey>, id: NotificationID)
  {
    forall k :: k in processed && About(log, k, id) ==> !OpAt(log, k).kind.Updated?
  }

  /** The accounts of a card; of its state only if `withState` and no update was taken in. */
  ghost predicate CardOK(log: Log, processed: set<OpKey>, notes: Notes, id: NotificationID, withState: bool)
  {
    && (forall k :: k in processed ==> Known(log, k))
    && OriginOK(log, processed, notes, id)
    && (withState && NeverUpdated(log, processed, id) ==> StateOK(log, processed, notes, id))
  }

  /* ---------- Growing logs ---------- */

  lemma GrowthKeepsAbout(log: Log, log': Log, k: OpKey, id: NotificationID)
    requires Grows(log, log') && Known(log, k)
    ensures Known(log', k) && (About(log', k, id) <==> About(log, k, id)) && OpAt(log', k) == OpAt(log, k)
  {
  }

  lemma GrowthKeepsCard(log: Log, log': Log, processed: set<OpKey>, notes: Notes, id: NotificationID, withState: bool)
    requires Grows(log, log') && CardOK(log, processed, notes, id, withState)
    ensures CardOK(log', processed, notes, id, withState)
  {
    hide Grows, About, OriginReflects, StateReflects;
    forall k | k in processed
      ensures Known(log', k) && (About(log', k, id) <==> About(log, k, id)) && OpAt(log', k) == OpAt(log, k)
    {
      GrowthKeepsAbout(log, log', k, id);
    }
    if id in notes {
      var k :| k in processed && GivesCreation(log, k, id, notes[id].createdAt);
      assert GivesCreation(log', k, id, notes[id].createdAt);
    }
    if withState && NeverUpdated(log', processed, id) {
      if id in notes {
        var k :| k in processed && GivesState(log, k, id, notes[id].state);
        assert GivesState(log', k, id, notes[id].state);
      }
    }
  }

  /* ---------- Taking in one operation ---------- */

  lemma AbsorbKeepsOrigin(log: Log, processed: set<OpKey>, notes: Notes, k: OpKey, id: NotificationID, record: Record)
    requires OriginOK(log, processed, notes, id) && Known(log, k) && Absorbs(notes, OpAt(log, k), id, record)
    ensures OriginOK(log, processed + {k}, notes[id := record], id)
  {
    hide AbsorbsState;
    assert k in processed + {k};
    if id in notes && record.createdAt == notes[id].createdAt {
      var b :| b in processed && GivesCreation(log, b, id, notes[id].createdAt);
      assert b in processed + {k} && GivesCreation(log, b, id, record.createdAt);
    } else {
      assert GivesCreation(log, k, id, record.createdAt);
    }
  }

  lemma AbsorbKeepsState(log: Log, processed: set<OpKey>, notes: Notes, k: OpKey, id: NotificationID, record: Record)
    requires StateOK(log, processed, notes, id) && NeverUpdated(log, processed + {k}, id)
    requires Known(log, k) && Absorbs(notes, OpAt(log, k), id, record)
    ensures StateOK(log, processed + {k}, notes[id := record], id)
  {
    hide AbsorbsOrigin;
    assert About(log, k, id) && k in processed + {k};
    if id in notes && record.state == notes[id].state {
      var b :| b in processed && GivesState(log, b, id, notes[id].state);
      assert b in processed + {k} && GivesState(log, b, id, record.state);
    } else {
      assert GivesState(log, k, id, record.state);
    }
  }

  lemma OtherCardOrigin(log: Log, processed: set<OpKey>, notes: Notes, k: OpKey, notes': Notes, id: NotificationID)
    requires OriginOK(log, processed, notes, id) && !About(log, k, id)
    requires (id in notes' <==> id in notes) && (id in notes ==> notes'[id] == notes[id])
    ensures OriginOK(log, processed + {k}, notes', id)
  {
    hide About, OriginReflects;
    if id in notes {
      var b :| b in processed && GivesCreation(log, b, id, notes[id].createdAt);
      assert b in processed + {k};
    }
  }

  lemma OtherCardState(log: Log, processed: set<OpKey>, notes: Notes, k: OpKey, notes': Notes, id: NotificationID)
    requires StateOK(log, processed, notes, id) && !About(log, k, id)
    requires (id in notes' <==> id in notes) && (id in notes ==> notes'[id] == notes[id])
    ensures StateOK(log, processed + {k}, notes', id)
  {
    hide About, StateReflects;
    if id in notes {
      var b :| b in processed && GivesState(log, b, id, notes[id].state);
      assert b in processed + {k};
    }
  }

  /** An operation about `target`, absorbed: the accounts of every card stay in order. */
  lemma TakeInKeepsCard(log: Log, processed: set<OpKey>, notes: Notes, k: OpKey, target: NotificationID, record: Record,
                        id: NotificationID, withState: bool)
    requires CardOK(log, processed, notes, id, withState)
    requires Known(log, k) && Absorbs(notes, OpAt(log, k), target, record)
    ensures CardOK(log, processed + {k}, notes[target := record], id, withState)
  {
    assert About(log, k, target) && (About(log, k, id) ==> target == id);
    hide Absorbs, OriginOK, StateOK, About;
    if target == id {
      AbsorbKeepsOrigin(log, processed, notes, k, id, record);
      if withState && NeverUpdated(log, processed + {k}, id) {
        AbsorbKeepsState(log, processed, notes, k, id, record);
      }
    } else {
      OtherCardOrigin(log, processed, notes, k, notes[target := record], id);
      if withState && NeverUpdated(log, processed + {k}, id) {
        OtherCardState(log, processed, notes, k, notes[target := record], id);
      }
    }
  }

  /* ---------- Merging a snapshot ---------- */

  /** What the join of two versions keeps of each. */
  lemma MergedFields(ours: Notes, theirs: Notes, after: Notes, id: NotificationID)
    requires MergedNotes(ours, theirs, after)
    ensures id in after <==> id in ours || id in theirs
    ensures id in ours ==> Covers(after[id], ours[id])
    ensures id in theirs ==> Covers(after[id], theirs[id])
    ensures id in after ==>
              || (id in ours && after[id].createdAt == ours[id].createdAt)
              || (id in theirs && after[id].createdAt == theirs[id].createdAt)
    ensures id in after ==>
              || (id in ours && after[id].state == ours[id].state)
              || (id in theirs && after[id].state == theirs[id].state)
  {
    hide IncomingWins;
    if id in after { assert MergedNote(ours, theirs, id, after[id]); }
  }

  ghost predicate Covers(a: Record, b: Record)
  {
    a.createdAt <= b.createdAt && SameIdentity(a, b) && StateRank(b.state) <= StateRank(a.state)
  }

  lemma CoveringReflects(op: Operation, a: Record, b: Record)
    requires Covers(a, b)
    ensures OriginReflects(op, b) ==> OriginReflects(op, a)
    ensures StateReflects(op, b) ==> StateReflects(op, a)
  {
  }

  lemma MergeKeepsOrigin(log: Log, p: set<OpKey>, q: set<OpKey>, ours: Notes, theirs: Notes, after: Notes,
                         id: NotificationID)
    requires OriginOK(log, p, ours, id) && OriginOK(log, q, theirs, id) && MergedNotes(ours, theirs, after)
    ensures OriginOK(log, p + q, after, id)
  {
    MergedFields(ours, theirs, after, id);
    hide MergedNotes, About, Covers, OriginReflects, GivesCreation;
    forall k | k in p + q && About(log, k, id) ensures id in after && OriginReflects(OpAt(log, k), after[id]) {
      if k in p {
        CoveringReflects(OpAt(log, k), after[id], ours[id]);
      } else {
        CoveringReflects(OpAt(log, k), after[id], theirs[id]);
      }
    }
    if id in ours {
      var k :| k in p && GivesCreation(log, k, id, ours[id].createdAt);
      assert k in p + q;
    }
    if id in theirs {
      var k :| k in q && GivesCreation(log, k, id, theirs[id].createdAt);
      assert k in p + q;
    }
  }

  lemma MergeKeepsState(log: Log, p: set<OpKey>, q: set<OpKey>, ours: Notes, theirs: Notes, after: Notes,
                        id: NotificationID)
    requires StateOK(log, p, ours, id) && StateOK(log, q, theirs, id) && MergedNotes(ours, theirs, after)
    ensures StateOK(log, p + q, after, id)
  {
    MergedFields(ours, theirs, after, id);
    hide MergedNotes, About, Covers, StateReflects, GivesState;
    forall k | k in p + q && About(log, k, id) ensures id in after && StateReflects(OpAt(log, k), after[id]) {
      if k in p {
        CoveringReflects(OpAt(log, k), after[id], ours[id]);
      } else {
        CoveringReflects(OpAt(log, k), after[id], theirs[id]);
      }
    }
    if id in ours {
      var k :| k in p && GivesState(log, k, id, ours[id].state);
      assert k in p + q;
    }
    if id in theirs {
      var k :| k in q && GivesState(log, k, id, theirs[id].state);
      assert k in p + q;
    }
  }

  lemma MergeKeepsCard(log: Log, p: set<OpKey>, q: set<OpKey>, ours: Notes, theirs: Notes, after: Notes,
                       id: NotificationID, withState: bool)
    requires CardOK(log, p, ours, id, withState) && CardOK(log, q, theirs, id, withState)
    requires MergedNotes(ours, theirs, after)
    ensures CardOK(log, p + q, after, id, withState)
  {
    hide OriginOK, StateOK, MergedNotes;
    MergeKeepsOrigin(log, p, q, ours, theirs, after, id);
    if withState && NeverUpdated(log, p + q, id) {
      MergeKeepsState(log, p, q, ours, theirs, after, id);
    }
  }

  /* ---------- Steps ---------- */

  ghost predicate NodeCardOK(c: Cluster, n: string, id: NotificationID, withState: bool)
  {
    n in c.replicas && n in c.processed ==> CardOK(c.log, c.processed[n], c.replicas[n].notifications, id, withState)
  }

  ghost predicate ClusterCardOK(c: Cluster, id: NotificationID, withState: bool)
  {
    && (forall n :: n in c.replicas ==> NodeCardOK(c, n, id, withState))
    && (forall m :: m in c.sent ==> CardOK(c.log, m.covers, m.notes, id, withState))
  }

  /** An unlogged write that creates this card or changes its creation time or identity,
      or, if the state matters, its state. */
  ghost predicate Disturbs(c: Cluster, step: Step, id: NotificationID, withState: bool)
  {
    && step.WriteUnlogged? && step.id == id && step.node in c.replicas
    && var notes := c.replicas[step.node].notifications;
       !(&& id in notes && step.record.createdAt == notes[id].createdAt && SameIdentity(step.record, notes[id])
         && (withState ==> step.record.state == notes[id].state))
  }

  /** What a step does to its node: the notifications and the operations taken in. */
  ghost predicate NodeStep(c: Cluster, n: string, notes: Notes, more: set<OpKey>, c': Cluster)
  {
    && n in c.replicas && n in c.processed
    && c'.log == c.log && c'.sent == c.sent
    && c'.replicas.Keys == c.replicas.Keys && c'.processed == c.processed[n := c.processed[n] + more]
    && (forall m :: m in c.replicas && m != n ==> c'.replicas[m] == c.replicas[m])
    && c'.replicas[n].notifications == notes
  }

  lemma NodeStepKeepsCard(c: Cluster, n: string, notes: Notes, more: set<OpKey>, c': Cluster, id: NotificationID,
                          withState: bool)
    requires ClusterCardOK(c, id, withState) && NodeStep(c, n, notes, more, c')
    requires CardOK(c.log, c.processed[n] + more, notes, id, withState)
    ensures ClusterCardOK(c', id, withState)
  {
    hide CardOK;
    forall m | m in c'.replicas ensures NodeCardOK(c', m, id, withState) {
      assert NodeCardOK(c, m, id, withState);
    }
  }

  /** A batch, from any point of it on. */
  lemma {:induction false} BatchKeepsCard(log: Log, start: Replica, before: set<OpKey>, current: Replica,
                                          taken: set<OpKey>, origin: string, ops: seq<Operation>, id: NotificationID,
                                          withState: bool)
    requires WellNumbered(log) && forall i :: 0 <= i < |ops| ==> Allocated(log, ops[i])
    requires CardOK(log, before, start.notifications, id, withState)
    requires CardOK(log, before + taken, current.notifications, id, withState)
    ensures var result := ApplyFrom(start, current, taken, origin, ops);
            CardOK(log, before + result.taken, result.replica.notifications, id, withState)
    decreases |ops|
  {
    hide CardOK, ApplyOne, KeyOf;
    if ops != [] {
      assert Allocated(log, ops[0]);
      match ApplyOne(current, origin, ops[0])
      case Advanced(next) =>
        AdvanceKeepsCard(log, current, before + taken, origin, ops[0], next, id, withState);
        assert before + taken + {KeyOf(ops[0])} == before + (taken + {KeyOf(ops[0])});
        BatchKeepsCard(log, start, before, next, taken + {KeyOf(ops[0])}, origin, ops[1..], id, withState);
      case Repeated =>
        BatchKeepsCard(log, start, before, current, taken, origin, ops[1..], id, withState);
      case Isolated(next) =>
        IsolationKeepsTables(current, origin, ops[0], next);
      case _ =>
        assert before + {} == before;
    }
  }

  lemma AdvanceKeepsCard(log: Log, r: Replica, processed: set<OpKey>, origin: string, op: Operation, next: Replica,
                         id: NotificationID, withState: bool)
    requires WellNumbered(log) && Allocated(log, op) && ApplyOne(r, origin, op) == Advanced(next)
    requires CardOK(log, processed, r.notifications, id, withState)
    ensures CardOK(log, processed + {KeyOf(op)}, next.notifications, id, withState)
  {
    AdvanceShape(r, origin, op, next);
    assert Honest(OpAt(log, KeyOf(op)));
    hide ApplyOne, CardOK, Effect, Absorbs, StorableEnvelope;
    var mid := Effect(r, op).next;
    EffectAbsorbs(r, op, mid);
    var target := op.payload.body.value.notificationID;
    TakeInKeepsCard(log, processed, r.notifications, KeyOf(op), target, mid.notifications[target], id, withState);
  }

  lemma DeliverIsNodeStep(c: Cluster, n: string, ops: seq<Operation>, c': Cluster)
    requires Next(c, Deliver(n, ops), c')
    ensures var result := ApplyBatch(c.replicas[n], ops);
            NodeStep(c, n, result.replica.notifications, result.taken, c')
    ensures forall i :: 0 <= i < |ops| ==> Allocated(c.log, ops[i])
  {
    hide ApplyBatch, Allocated;
  }

  lemma LogIsWellNumbered(c: Cluster)
    requires Inv(c)
    ensures WellNumbered(c.log)
  {
  }

  lemma DeliverKeepsCard(c: Cluster, n: string, ops: seq<Operation>, c': Cluster, id: NotificationID, withState: bool)
    requires Inv(c) && Next(c, Deliver(n, ops), c') && ClusterCardOK(c, id, withState)
    ensures ClusterCardOK(c', id, withState)
  {
    LogIsWellNumbered(c);
    DeliverIsNodeStep(c, n, ops, c');
    hide Inv, Next, ApplyFrom, Allocated, CardOK, WellNumbered;
    var r, result := c.replicas[n], ApplyBatch(c.replicas[n], ops);
    assert NodeCardOK(c, n, id, withState);
    assert c.processed[n] + {} == c.processed[n];
    if ops != [] {
      BatchKeepsCard(c.log, r, c.processed[n], r, {}, ops[0].origin, ops, id, withState);
    }
    NodeStepKeepsCard(c, n, result.replica.notifications, result.taken, c', id, withState);
  }

  lemma SnapshotMergesNotes(log: Log, r: Replica, m: SentSnapshot, now: int, r': Replica)
    requires SentOK(log, m) && ApplySnapshot(r, m.snapshot, now) == Some(r')
    ensures MergedNotes(r.notifications, m.notes, r'.notifications)
  {
    var rows := m.snapshot.body.rows;
    assert RowsAre(rows, m.notes);
    hide SentOK, RowsAre, RowsMerged, MergeRows, AcceptableSnapshot, MergedNotes;
    var merged := MergeRows(r, rows).value;
    MergeRowsResult(r, rows, merged);
    RowsMergedIsMerged(r.notifications, rows, m.notes, merged.notifications);
  }

  lemma MergeIsNodeStep(c: Cluster, n: string, m: SentSnapshot, now: int, c': Cluster)
    requires Inv(c) && Next(c, MergeSnapshot(n, m, now), c')
    ensures m in c.sent && SentOK(c.log, m)
    ensures match ApplySnapshot(c.replicas[n], m.snapshot, now)
            case None => c' == c
            case Some(r') => NodeStep(c, n, r'.notifications, m.covers, c')
  {
    hide ApplySnapshot, ReplicaOK, SentOK, WellNumbered;
  }

  lemma MergeStepKeepsCard(c: Cluster, n: string, m: SentSnapshot, now: int, c': Cluster, id: NotificationID,
                           withState: bool)
    requires Inv(c) && Next(c, MergeSnapshot(n, m, now), c') && ClusterCardOK(c, id, withState)
    ensures ClusterCardOK(c', id, withState)
  {
    MergeIsNodeStep(c, n, m, now, c');
    hide Inv, Next, ApplySnapshot, SentOK, CardOK, MergedNotes;
    var r := c.replicas[n];
    match ApplySnapshot(r, m.snapshot, now)
    case None =>
    case Some(r') =>
      assert NodeCardOK(c, n, id, withState);
      SnapshotMergesNotes(c.log, r, m, now, r');
      MergeKeepsCard(c.log, c.processed[n], m.covers, r.notifications, m.notes, r'.notifications, id, withState);
      NodeStepKeepsCard(c, n, r'.notifications, m.covers, c', id, withState);
  }

  lemma LocalAppendKeepsCard(c: Cluster, n: string, r': Replica, op: Operation, target: NotificationID, record: Record,
                             c': Cluster, id: NotificationID, withState: bool)
    requires Inv(c) && n in c.replicas && ClusterCardOK(c, id, withState)
    requires IsLocalEffect(c.log, c.replicas[n], r', op, target, record)
    requires c' == c.(replicas := c.replicas[n := r'], log := c.log[n := c.log[n] + [op]],
                      processed := c.processed[n := c.processed[n] + {KeyOf(op)}])
    ensures ClusterCardOK(c', id, withState)
  {
    hide ReplicaOK, SentOK, WellNumbered, CardOK, Absorbs, Honest, Stamped, Grows, Known, OpAt;
    AppendGrows(c.log, n, op);
    OwnOperationIsKnown(c.log, n, op);
    var r := c.replicas[n];
    forall m | m in c.replicas && m in c.processed
      ensures CardOK(c'.log, c.processed[m], c.replicas[m].notifications, id, withState)
    {
      assert NodeCardOK(c, m, id, withState);
      GrowthKeepsCard(c.log, c'.log, c.processed[m], c.replicas[m].notifications, id, withState);
    }
    TakeInKeepsCard(c'.log, c.processed[n], r.notifications, KeyOf(op), target, record, id, withState);
    forall m | m in c'.replicas ensures NodeCardOK(c', m, id, withState) {
    }
    forall m | m in c'.sent ensures CardOK(c'.log, m.covers, m.notes, id, withState) {
      GrowthKeepsCard(c.log, c'.log, m.covers, m.notes, id, withState);
    }
  }

  lemma OwnOperationIsKnown(log: Log, n: string, op: Operation)
    requires n in log && KeyOf(op) == OpKey(n, |log[n]| + 1)
    ensures var log' := log[n := log[n] + [op]]; Known(log', KeyOf(op)) && OpAt(log', KeyOf(op)) == op
  {
  }

  lemma LocalChangeKeepsCard(c: Cluster, n: string, r': Replica, c': Cluster, id: NotificationID, withState: bool)
    requires Inv(c) && n in c.replicas && ClusterCardOK(c, id, withState)
    requires LocalEffect(c.log, c.replicas[n], r') && LocalChange(c, n, Some(r'), c')
    ensures ClusterCardOK(c', id, withState)
  {
    hide ReplicaOK, SentOK, WellNumbered, IsLocalEffect, LocalEffect, LocalChange, ClusterCardOK;
    var op, target, record := LocalChangeCases(c, n, r', c');
    if c' != c {
      LocalAppendKeepsCard(c, n, r', op, target, record, c', id, withState);
    }
  }

  lemma ReceiveKeepsCard(c: Cluster, step: Step, c': Cluster, id: NotificationID, withState: bool)
    requires Inv(c) && Next(c, step, c') && step.Receive? && ClusterCardOK(c, id, withState)
    ensures ClusterCardOK(c', id, withState)
  {
    var n, r := step.node, c.replicas[step.node];
    NodeTablesOK(c, n);
    hide Inv, LocalEffect, LocalChange, TablesOK, ReceiveWebhook, ClusterCardOK;
    var result := ReceiveWebhook(r, step.webhookID, step.channelID, step.input, step.found, step.entropy, step.now);
    if result.Some? {
      ReceiveIsLocalEffect(c.log, r, step.webhookID, step.channelID, step.input, step.found, step.entropy, step.now,
                           result.value);
      LocalChangeKeepsCard(c, n, result.value, c', id, withState);
    } else {
      NoLocalChange(c, n, result, c');
    }
  }

  lemma SetStateKeepsCard(c: Cluster, step: Step, c': Cluster, id: NotificationID, withState: bool)
    requires Inv(c) && Next(c, step, c') && step.SetState? && ClusterCardOK(c, id, withState)
    ensures ClusterCardOK(c', id, withState)
  {
    var n, r := step.node, c.replicas[step.node];
    NodeTablesOK(c, n);
    hide Inv, LocalEffect, LocalChange, TablesOK, ChangeState, ClusterCardOK;
    var result := ChangeState(r, step.id, step.state, step.actorID, step.authorised, step.size, step.now);
    if result.Some? {
      ChangeIsLocalEffect(c.log, r, step.id, step.state, step.actorID, step.authorised, step.size, step.now,
                          result.value);
      LocalChangeKeepsCard(c, n, result.value, c', id, withState);
    } else {
      NoLocalChange(c, n, result, c');
    }
  }

  /** The card a step leaves has the same origin and, if it matters, the same state. */
  lemma SameCardKeepsOK(log: Log, processed: set<OpKey>, notes: Notes, notes': Notes, id: NotificationID,
                        withState: bool)
    requires CardOK(log, processed, notes, id, withState)
    requires id in notes' <==> id in notes
    requires id in notes ==>
               && notes'[id].createdAt == notes[id].createdAt && SameIdentity(notes'[id], notes[id])
               && (withState ==> notes'[id].state == notes[id].state)
    ensures CardOK(log, processed, notes', id, withState)
  {
    hide About, Known;
  }

  lemma UnloggedKeepsCard(c: Cluster, step: Step, c': Cluster, id: NotificationID, withState: bool)
    requires Next(c, step, c') && step.WriteUnlogged? && !Disturbs(c, step, id, withState)
    requires ClusterCardOK(c, id, withState)
    ensures ClusterCardOK(c', id, withState)
  {
    hide CardOK;
    var n := step.node;
    var notes, notes' := c.replicas[n].notifications, c'.replicas[n].notifications;
    assert NodeCardOK(c, n, id, withState);
    SameCardKeepsOK(c.log, c.processed[n], notes, notes', id, withState);
    assert c.processed[n] + {} == c.processed[n];
    assert c.processed[n := c.processed[n]] == c.processed;
    NodeStepKeepsCard(c, n, notes', {}, c', id, withState);
  }

  /** Steps that leave all notifications alone. */
  lemma QuietStepKeepsCard(c: Cluster, step: Step, c': Cluster, id: NotificationID, withState: bool)
    requires Next(c, step, c') && ClusterCardOK(c, id, withState)
    requires step.AddChannel? || step.AddWebhook? || step.PruneRange? || step.BuildSnapshot?
    ensures ClusterCardOK(c', id, withState)
  {
    hide CardOK, Exports, NameTaken, TokenTaken;
    var n := step.node;
    assert NodeCardOK(c, n, id, withState);
    assert c.processed[n] + {} == c.processed[n];
    assert c.processed[n := c.processed[n]] == c.processed;
    if step.BuildSnapshot? {
      forall m | m in c'.replicas ensures NodeCardOK(c', m, id, withState) {
        assert NodeCardOK(c, m, id, withState);
      }
    } else {
      NodeStepKeepsCard(c, n, c.replicas[n].notifications, {}, c', id, withState);
    }
  }

  lemma NextKeepsCard(c: Cluster, step: Step, c': Cluster, id: NotificationID, withState: bool)
    requires Inv(c) && Next(c, step, c') && ClusterCardOK(c, id, withState) && !Disturbs(c, step, id, withState)
    ensures ClusterCardOK(c', id, withState)
  {
    hide Inv, Next, ClusterCardOK, Disturbs;
    match step
    case Receive(_, _, _, _, _, _, _) => ReceiveKeepsCard(c, step, c', id, withState);
    case SetState(_, _, _, _, _, _, _) => SetStateKeepsCard(c, step, c', id, withState);
    case Deliver(n, ops) => DeliverKeepsCard(c, n, ops, c', id, withState);
    case MergeSnapshot(n, m, now) => MergeStepKeepsCard(c, n, m, now, c', id, withState);
    case WriteUnlogged(_, _, _) => UnloggedKeepsCard(c, step, c', id, withState);
    case _ => QuietStepKeepsCard(c, step, c', id, withState);
  }

  /* ---------- Runs ---------- */

  /** No unlogged write disturbed the card in the first i steps. */
  ghost predicate Undisturbed(run: Run, i: nat, id: NotificationID, withState: bool)
  {
    && i <= |run.steps| && |run.states| == |run.steps| + 1
    && forall j :: 0 <= j < i ==> !Disturbs(run.states[j], run.steps[j], id, withState)
  }

  lemma NothingYet(c: Cluster, id: NotificationID, withState: bool)
    requires Init(c)
    ensures ClusterCardOK(c, id, withState)
  {
  }

  lemma {:induction false} RunKeepsCard(run: Run, i: nat, id: NotificationID, withState: bool)
    requires ValidRun(run) && Undisturbed(run, i, id, withState)
    ensures ClusterCardOK(run.states[i], id, withState)
  {
    hide Next, Init, ClusterCardOK, Disturbs, Inv;
    if i == 0 {
      NothingYet(run.states[0], id, withState);
    } else {
      RunKeepsCard(run, i - 1, id, withState);
      RunKeepsInv(run, i - 1);
      assert Next(run.states[i - 1], run.steps[i - 1], run.states[i - 1 + 1]);
      NextKeepsCard(run.states[i - 1], run.steps[i - 1], run.states[i], id, withState);
    }
  }

  /* ---------- Main results, over every run ---------- */

  /** The card exists exactly if an operation about it was taken in, was created at the
      earliest processed creation time and has the identity of every processed create;
      if no processed operation updated it and no unlogged write set its state, its state is
      the highest among the processed operations. */
  lemma LifecycleIsMaximum(run: Run, i: nat, node: string, id: NotificationID)
    requires ValidRun(run) && Undisturbed(run, i, id, false) && node in run.states[i].replicas
    ensures node in run.states[i].processed
    ensures var c := run.states[i];
            var notes, taken := c.replicas[node].notifications, c.processed[node];
            && (id in notes <==> exists k :: k in taken && About(c.log, k, id))
            && OriginOK(c.log, taken, notes, id)
            && (Undisturbed(run, i, id, true) && NeverUpdated(c.log, taken, id) ==> StateOK(c.log, taken, notes, id))
  {
    hide Next, Init, Disturbs;
    RunKeepsInv(run, i);
    RunKeepsCard(run, i, id, false);
    var c := run.states[i];
    assert NodeCardOK(c, node, id, false);
    if Undisturbed(run, i, id, true) {
      RunKeepsCard(run, i, id, true);
      assert NodeCardOK(c, node, id, true);
    }
    if id in c.replicas[node].notifications {
      var createdAt := c.replicas[node].notifications[id].createdAt;
      var k :| k in c.processed[node] && GivesCreation(c.log, k, id, createdAt);
      assert About(c.log, k, id);
    }
  }

  /** The same existence, creation time and identity. */
  ghost predicate SameOrigin(x: Notes, y: Notes, id: NotificationID)
  {
    && (id in x <==> id in y)
    && (id in x ==> x[id].createdAt == y[id].createdAt && SameIdentity(x[id], y[id]))
  }

  ghost predicate SameState(x: Notes, y: Notes, id: NotificationID)
  {
    (id in x <==> id in y) && (id in x ==> x[id].state == y[id].state)
  }

  lemma OriginDetermined(log: Log, processed: set<OpKey>, x: Notes, y: Notes, id: NotificationID)
    requires OriginOK(log, processed, x, id) && OriginOK(log, processed, y, id)
    ensures SameOrigin(x, y, id)
  {
    if id in x {
      var k :| k in processed && GivesCreation(log, k, id, x[id].createdAt);
      assert About(log, k, id);
    }
    if id in y {
      var k :| k in processed && GivesCreation(log, k, id, y[id].createdAt);
      assert About(log, k, id);
    }
  }

  lemma StateDetermined(log: Log, processed: set<OpKey>, x: Notes, y: Notes, id: NotificationID)
    requires WellNumbered(log) && StateOK(log, processed, x, id) && StateOK(log, processed, y, id)
    ensures SameState(x, y, id)
  {
    if id in x {
      var k :| k in processed && GivesState(log, k, id, x[id].state);
      assert About(log, k, id) && Honest(OpAt(log, k));
    }
    if id in y {
      var k :| k in processed && GivesState(log, k, id, y[id].state);
      assert About(log, k, id) && Honest(OpAt(log, k));
    }
    if id in x && id in y {
      RankNamesState(x[id].state, y[id].state);
    }
  }

  /** Convergence, card by card, whatever the order of delivery and whichever parts came by
      snapshot: nodes with equal marks agree on existence, creation time and identity of
      every card no unlogged write created or redated, and on its state if neither took in an
      update of it and no unlogged write set that. */
  lemma EqualMarksConverge(run: Run, i: nat, a: string, b: string, id: NotificationID)
    requires ValidRun(run) && Undisturbed(run, i, id, false)
    requires a in run.states[i].replicas && b in run.states[i].replicas
    requires forall o :: HighWater(run.states[i].replicas[a], o) == HighWater(run.states[i].replicas[b], o)
    ensures a in run.states[i].processed
    ensures var c := run.states[i];
            var x, y := c.replicas[a].notifications, c.replicas[b].notifications;
            && SameOrigin(x, y, id)
            && (Undisturbed(run, i, id, true) && NeverUpdated(c.log, c.processed[a], id) ==> SameState(x, y, id))
  {
    SameProcessed(run, i, a, b);
    RunKeepsInv(run, i);
    LogIsWellNumbered(run.states[i]);
    hide ValidRun, HighWater, Inv, OriginOK, StateOK, WellNumbered, Undisturbed, SameOrigin, SameState;
    LifecycleIsMaximum(run, i, a, id);
    LifecycleIsMaximum(run, i, b, id);
    var c := run.states[i];
    var x, y := c.replicas[a].notifications, c.replicas[b].notifications;
    OriginDetermined(c.log, c.processed[a], x, y, id);
    if Undisturbed(run, i, id, true) && NeverUpdated(c.log, c.processed[a], id) {
      StateDetermined(c.log, c.processed[a], x, y, id);
    }
  }

  /* ---------- Unlogged writes break convergence ---------- */

  lemma MarksIgnoreNotifications(r: Replica, notes: Notes, o: string)
    ensures HighWater(r.(notifications := notes), o) == HighWater(r, o)
  {
    assert Retained(r.(notifications := notes), o) == Retained(r, o);
  }

  /** From every reachable state with equal marks, an unlogged write on one node keeps the
      marks equal, and afterwards the two nodes agree on the card exactly if the written
      record already agreed with what the other node holds. */
  lemma UnloggedWriteDiverges(run: Run, c: Cluster, a: string, b: string, id: NotificationID, record: Record)
    returns (run': Run, c': Cluster)
    requires Reaches(run, c) && a in c.replicas && b in c.replicas && a != b
    requires forall o :: HighWater(c.replicas[a], o) == HighWater(c.replicas[b], o)
    ensures Reaches(run', c')
    ensures c' == c.(replicas :=
                     c.replicas[a := c.replicas[a].(notifications := c.replicas[a].notifications[id := record])])
    ensures forall o :: HighWater(c'.replicas[a], o) == HighWater(c'.replicas[b], o)
    ensures var x, y, theirs := c'.replicas[a].notifications, c'.replicas[b].notifications, c.replicas[b].notifications;
            SameOrigin(x, y, id) && SameState(x, y, id) <==>
            && id in theirs && record.createdAt == theirs[id].createdAt
            && SameIdentity(record, theirs[id]) && record.state == theirs[id].state
  {
    hide HighWater;
    var r := c.replicas[a];
    var notes := r.notifications[id := record];
    c' := c.(replicas := c.replicas[a := r.(notifications := notes)]);
    assert a in c.log && a in c.processed by { RunKeepsInv(run, |run.steps|); }
    run' := Extend(run, c, WriteUnlogged(a, id, record), c');
    forall o ensures HighWater(c'.replicas[a], o) == HighWater(c'.replicas[b], o) {
      MarksIgnoreNotifications(r, notes, o);
    }
  }

  const NODE_A := "node-a-1"
  const NODE_B := "node-b-1"

  function EmptyNode(name: string): Replica
  {
    Replica("cluster-1", name, map[], map[], map[], map[], map[], map[])
  }

  lemma NoRowsNoMark(r: Replica, o: string)
    requires r.envelopes == map[] && r.cursors == map[]
    ensures HighWater(r, o) == 0
  {
  }

  /** The state after a channel and a webhook were set up on one of two empty nodes. */
  function SetUp(step: nat): Cluster
    requires step <= 2
  {
    var channels := if step >= 1 then map["chn-1" := "ops"] else map[];
    var webhooks := if step >= 2 then map["whk-1" := Webhook("token", "chn-1")] else map[];
    var nodes := map[NODE_A := EmptyNode(NODE_A).(channels := channels, webhooks := webhooks),
                     NODE_B := EmptyNode(NODE_B)];
    Cluster(nodes, map[NODE_A := [], NODE_B := []], map[NODE_A := {}, NODE_B := {}], {})
  }

  lemma NamesDiffer()
    ensures NODE_A != NODE_B
  {
    assert NODE_A[5] != NODE_B[5];
  }

  lemma SetUpStarts()
    ensures Init(SetUp(0))
  {
    NamesDiffer();
  }

  lemma ChannelIsAdded()
    ensures Next(SetUp(0), AddChannel(NODE_A, "chn-1", "ops"), SetUp(1))
  {
    NamesDiffer();
    var r, r' := SetUp(0).replicas[NODE_A], SetUp(1).replicas[NODE_A];
    assert r' == r.(channels := r.channels["chn-1" := "ops"]);
    assert SetUp(1).replicas == SetUp(0).replicas[NODE_A := r'];
  }

  lemma WebhookIsAdded()
    ensures Next(SetUp(1), AddWebhook(NODE_A, "whk-1", "token", "chn-1"), SetUp(2))
  {
    NamesDiffer();
    var r, r' := SetUp(1).replicas[NODE_A], SetUp(2).replicas[NODE_A];
    assert r' == r.(webhooks := r.webhooks["whk-1" := Webhook("token", "chn-1")]);
    assert SetUp(2).replicas == SetUp(1).replicas[NODE_A := r'];
  }

  lemma SetUpIsReachable() returns (run: Run)
    ensures Reaches(run, SetUp(2))
  {
    hide SetUp, Init, Next;
    SetUpStarts();
    ChannelIsAdded();
    WebhookIsAdded();
    run := Run([SetUp(0)], []);
    run := Extend(run, SetUp(0), AddChannel(NODE_A, "chn-1", "ops"), SetUp(1));
    run := Extend(run, SetUp(1), AddWebhook(NODE_A, "whk-1", "token", "chn-1"), SetUp(2));
  }

  /** A card an agent may publish on the first node of that state. */
  const PUBLISHED := Record("whk-1", "", Content("chn-1", "disk full", "bot", "", "[]", "{}", ""), 1, 1, Firing)

  /** Two nodes that never exchanged anything, and one card published without an operation,
      which the tables of its node accept: equal marks, and the card on one node only. */
  lemma DivergentRun() returns (run: Run, c: Cluster)
    ensures Reaches(run, c) && NODE_A in c.replicas && NODE_B in c.replicas
    ensures forall o :: HighWater(c.replicas[NODE_A], o) == HighWater(c.replicas[NODE_B], o)
    ensures RandomID(0) in c.replicas[NODE_A].notifications && RandomID(0) !in c.replicas[NODE_B].notifications
    ensures var before := SetUp(2).replicas[NODE_A];
            && InsertableNotification(before, RandomID(0), PUBLISHED)
            && c.replicas[NODE_A] == before.(notifications := before.notifications[RandomID(0) := PUBLISHED])
  {
    var c0 := SetUp(2);
    NamesDiffer();
    var run0 := SetUpIsReachable();
    forall o ensures HighWater(c0.replicas[NODE_A], o) == HighWater(c0.replicas[NODE_B], o) {
      NoRowsNoMark(c0.replicas[NODE_A], o);
      NoRowsNoMark(c0.replicas[NODE_B], o);
    }
    hide HighWater, Reaches;
    run, c := UnloggedWriteDiverges(run0, c0, NODE_A, NODE_B, RandomID(0), PUBLISHED);
  }

  /* ---------- The store's unlogged transactions are such steps ---------- */

  lemma NodeIsRecorded(run: Run, c: Cluster, n: string)
    requires Reaches(run, c) && n in c.replicas
    ensures n in c.log && n in c.processed
  {
    RunKeepsInv(run, |run.steps|);
    hide ReplicaOK, SentOK, WellNumbered, ValidRun;
  }

  /** What `CreateFromAgent` does to the tables is one unlogged write. */
  lemma AgentPublicationIsUnlogged(run: Run, c: Cluster, n: string, id: NotificationID, record: Record)
    returns (run': Run)
    requires Reaches(run, c) && n in c.replicas
    ensures var r := c.replicas[n];
            Reaches(run', c.(replicas := c.replicas[n := r.(notifications := r.notifications[id := record])]))
    ensures run'.steps == run.steps + [WriteUnlogged(n, id, record)]
  {
    NodeIsRecorded(run, c, n);
    var r := c.replicas[n];
    var c' := c.(replicas := c.replicas[n := r.(notifications := r.notifications[id := record])]);
    run' := Extend(run, c, WriteUnlogged(n, id, record), c');
  }

  /** `after` is `notes` with these cards acknowledged. */
  ghost predicate AcknowledgedIn(notes: Notes, ids: seq<NotificationID>, now: int, after: Notes)
  {
    && after.Keys == notes.Keys
    && forall id :: id in notes ==> after[id] == if id in ids then Acknowledge(notes[id], now) else notes[id]
  }

  /** What `AcknowledgeIncident` does to the tables is one unlogged write for each card. */
  lemma {:induction false} AcknowledgementIsUnlogged(run: Run, c: Cluster, n: string, ids: seq<NotificationID>,
                                                     now: int,
                                                     after: Notes) returns (run': Run)
    requires Reaches(run, c) && n in c.replicas && AcknowledgedIn(c.replicas[n].notifications, ids, now, after)
    requires forall i :: 0 <= i < |ids| ==> ids[i] in c.replicas[n].notifications
    requires forall i, j :: 0 <= i < j < |ids| ==> ids[i] != ids[j]
    ensures Reaches(run', c.(replicas := c.replicas[n := c.replicas[n].(notifications := after)]))
    ensures |run'.steps| == |run.steps| + |ids|
    ensures forall i :: 0 <= i < |ids| ==>
              run'.steps[|run.steps| + i] ==
              WriteUnlogged(n, ids[i], Acknowledge(c.replicas[n].notifications[ids[i]], now))
    decreases |ids|
  {
    hide Reaches, Acknowledge, AcknowledgedIn;
    var notes := c.replicas[n].notifications;
    if ids == [] {
      assert after == notes by { NothingToAcknowledge(notes, now, after); }
      assert c.replicas[n := c.replicas[n]] == c.replicas;
      run' := run;
    } else {
      var m := |ids| - 1;
      var mid := after[ids[m] := notes[ids[m]]];
      LastAcknowledged(notes, ids, now, after);
      var run1 := AcknowledgementIsUnlogged(run, c, n, ids[..m], now, mid);
      var c1 := c.(replicas := c.replicas[n := c.replicas[n].(notifications := mid)]);
      run' := AgentPublicationIsUnlogged(run1, c1, n, ids[m], Acknowledge(notes[ids[m]], now));
      assert c1.replicas[n := c1.replicas[n].(notifications := after)] ==
             c.replicas[n := c.replicas[n].(notifications := after)];
    }
  }

  lemma NothingToAcknowledge(notes: Notes, now: int, after: Notes)
    requires AcknowledgedIn(notes, [], now, after)
    ensures after == notes
  {
  }

  lemma LastAcknowledged(notes: Notes, ids: seq<NotificationID>, now: int, after: Notes)
    requires ids != [] && AcknowledgedIn(notes, ids, now, after)
    requires forall i :: 0 <= i < |ids| ==> ids[i] in notes
    requires forall i, j :: 0 <= i < j < |ids| ==> ids[i] != ids[j]
    ensures var m := |ids| - 1;
            var mid := after[ids[m] := notes[ids[m]]];
            && AcknowledgedIn(notes, ids[..m], now, mid)
            && mid[ids[m] := Acknowledge(notes[ids[m]], now)] == after
  {
    hide Acknowledge;
    var m := |ids| - 1;
    assert ids[m] in ids;
    forall id | id in notes
      ensures id in ids[..m] <==> id in ids && id != ids[m]
    {
      if id in ids {
        var i :| 0 <= i < |ids| && ids[i] == id;
        assert i < m ==> ids[..m][i] == id;
      }
    }
  }

  /** Acknowledging an open card of an incident keeps its origin and disturbs its state. */
  lemma AcknowledgeDisturbsState(c: Cluster, node: string, id: NotificationID, now: int)
    requires node in c.replicas && id in c.replicas[node].notifications
    requires c.replicas[node].notifications[id].state in {Received, Firing}
    ensures var step := WriteUnlogged(node, id, Acknowledge(c.replicas[node].notifications[id], now));
            !Disturbs(c, step, id, false) && Disturbs(c, step, id, true)
  {
  }

  /** A state change or update of a card that a node does not have is quarantined in every
      batch that begins with it, and nothing of that origin gets past it. */
  lemma MissingCardStallsItsOrigin(r: Replica, op: Operation, rest: seq<Operation>)
    requires op.payload.body.Some? && op.payload.body.value.notificationID !in r.notifications && !op.kind.Created?
    requires op.sequence == CursorRow(r, op.origin) + 1
    ensures var result := ApplyBatch(r, [op] + rest);
            && result.outcome == Quarantined && result.taken == {}
            && result.replica.notifications == r.notifications
            && result.replica.envelopes == r.envelopes && result.replica.cursors == r.cursors
  {
    var ops := [op] + rest;
    assert ops[0] == op;
    assert Effect(r, op) == Rejected(r);
    assert ApplyOne(r, op.origin, op) == Isolated(Quarantine(r, op));
    hide ApplyOne;
    assert ApplyFrom(r, r, {}, op.origin, ops) == BatchResult(Quarantine(r, op), Quarantined, {});
  }

  /** Moving a card forward appends an operation that stalls every node that lacks the card
      and has everything else of this origin. */
  lemma MoveStallsNodesWithoutTheCard(log: Log, r: Replica, id: NotificationID, next: State, actorID: string,
                                      authorised: bool, size: nat, now: int, r': Replica, other: Replica,
                                      rest: seq<Operation>)
    requires TablesOK(log, r) && r.clusterID != "" && r' != r
    requires ChangeState(r, id, next, actorID, authorised, size, now) == Some(r')
    requires id !in other.notifications && CursorRow(other, r.nodeID) == |log[r.nodeID]|
    ensures var k := OpKey(r.nodeID, |log[r.nodeID]| + 1);
            && k in r'.envelopes
            && ApplyBatch(other, [r'.envelopes[k]] + rest).outcome == Quarantined
  {
    MoveAppends(log, r, id, next, actorID, authorised, size, now, r');
    hide ChangeState, ApplyBatch, TablesOK;
    MissingCardStallsItsOrigin(other, r'.envelopes[OpKey(r.nodeID, |log[r.nodeID]| + 1)], rest);
  }

  /** The version of a card that a move to the next state stores. */
  function MovedCard(prior: Record, next: State, now: int): Record
  {
    prior.(state := next, updatedAt := if now <= prior.updatedAt then prior.updatedAt + 1 else now)
  }

  lemma MoveIsAppend(r: Replica, id: NotificationID, next: State, actorID: string, authorised: bool, size: nat,
                     now: int, r': Replica)
    requires ChangeState(r, id, next, actorID, authorised, size, now) == Some(r') && r' != r
    ensures id in r.notifications
    ensures var card := MovedCard(r.notifications[id], next, now);
            var payload := Payload(size, true, Some(Body(id, next, "", "", "", "", "", "", "", "", 0, card.updatedAt)));
            Append(r.(notifications := r.notifications[id := card]), StateChanged,
                   r.notifications[id].content.channelID, actorID, payload, card.updatedAt) == Some(r')
  {
    hide Append;
  }

  /** The operation a move appends is a state change of the card under the next own key. */
  lemma MoveAppends(log: Log, r: Replica, id: NotificationID, next: State, actorID: string, authorised: bool, size: nat,
                    now: int, r': Replica)
    requires TablesOK(log, r) && r.clusterID != "" && r' != r
    requires ChangeState(r, id, next, actorID, authorised, size, now) == Some(r')
    ensures var k := OpKey(r.nodeID, |log[r.nodeID]| + 1);
            && k in r'.envelopes && KeyOf(r'.envelopes[k]) == k
            && r'.envelopes[k].kind.StateChanged? && Concerns(r'.envelopes[k], id)
  {
    MoveIsAppend(r, id, next, actorID, authorised, size, now, r');
    hide Append, NextOwnOperation, Stamped, TablesOK, ChangeState;
    var card := MovedCard(r.notifications[id], next, now);
    var channelID, at := r.notifications[id].content.channelID, card.updatedAt;
    var mid := r.(notifications := r.notifications[id := card]);
    var payload := Payload(size, true, Some(Body(id, next, "", "", "", "", "", "", "", "", 0, at)));
    TablesIgnoreNotifications(log, r, mid, {});
    NextOwnFields(r, mid, StateChanged, channelID, actorID, payload, at);
    AppendShape(log, mid, StateChanged, channelID, actorID, payload, at, r');
  }
}
