/** All nodes of one cluster. Every operation an origin ever allocated and every
    snapshot ever built stay available to the network, which may delay, drop,
    repeat and reorder them; nodes run the transactions of ReplicaState. Some
    transactions write a notification without appending an operation; WriteUnlogged
    stands for them, with any card. */
module ReplicationCluster {
  import opened Basics
  import opened NotificationRecord
  import opened ReplicaState

  type Log = map<string, seq<Operation>>

  /** A built snapshot with, as history, the operations its source had taken in
      and the notifications it held. */
  datatype SentSnapshot = SentSnapshot(snapshot: Snapshot, covers: set<OpKey>, notes: map<NotificationID, Record>)

  /** `log` and `processed` are history: what each origin allocated, and the
      operations each node took in, directly or folded in through a snapshot. */
  datatype Cluster = Cluster(replicas: map<string, Replica>, log: Log,
                             processed: map<string, set<OpKey>>, sent: set<SentSnapshot>)

  datatype Step =
    | AddChannel(node: string, channelID: string, name: string)
    | AddWebhook(node: string, webhookID: string, token: string, channelID: string)
    | Receive(node: string, webhookID: string, channelID: string, input: Incoming, found: Option<NotificationID>,
              entropy: nat, now: int)
    | SetState(node: string, id: NotificationID, state: State, actorID: string, authorised: bool, size: nat, now: int)
    | Deliver(node: string, ops: seq<Operation>)
    | PruneRange(node: string, origin: string, through: nat)
    | BuildSnapshot(node: string, snapshot: Snapshot)
    | MergeSnapshot(node: string, message: SentSnapshot, now: int)
    | WriteUnlogged(node: string, id: NotificationID, record: Record)

  ghost predicate Known(log: Log, k: OpKey)
  {
    k.origin in log && 1 <= k.sequence <= |log[k.origin]|
  }

  ghost function OpAt(log: Log, k: OpKey): Operation
    requires Known(log, k)
  {
    log[k.origin][k.sequence - 1]
  }

  ghost predicate Allocated(log: Log, op: Operation)
  {
    Known(log, KeyOf(op)) && OpAt(log, KeyOf(op)) == op
  }

  ghost predicate EntropyUnused(log: Log, entropy: nat)
  {
    forall k :: Known(log, k) ==> !Concerns(OpAt(log, k), RandomID(entropy))
  }

  ghost predicate Concerns(op: Operation, id: NotificationID)
  {
    op.payload.body.Some? && op.payload.body.value.notificationID == id
  }

  /** Every node starts empty and configured. */
  ghost predicate Init(c: Cluster)
  {
    && c.log.Keys == c.replicas.Keys == c.processed.Keys
    && c.sent == {}
    && forall n :: n in c.replicas ==>
         && c.log[n] == [] && c.processed[n] == {} && n != ""
         && c.replicas[n].nodeID == n && c.replicas[n].clusterID != ""
         && c.replicas[n].notifications == map[] && c.replicas[n].envelopes == map[]
         && c.replicas[n].cursors == map[] && c.replicas[n].quarantine == map[]
  }

  /** A local transaction that may have appended one operation. */
  ghost predicate LocalChange(c: Cluster, node: string, result: Option<Replica>, c': Cluster)
    requires node in c.replicas && node in c.log && node in c.processed
  {
    match result
    case None => c' == c
    case Some(r') =>
      var added := r'.envelopes.Keys - c.replicas[node].envelopes.Keys;
      if added == {} then c' == c.(replicas := c.replicas[node := r'])
      else
        exists k :: added == {k} &&
          c' == c.(replicas := c.replicas[node := r'],
                   log := c.log[node := c.log[node] + [r'.envelopes[k]]],
                   processed := c.processed[node := c.processed[node] + {k}])
  }

  ghost predicate Next(c: Cluster, step: Step, c': Cluster)
  {
    && step.node in c.replicas && step.node in c.log && step.node in c.processed
    && var r := c.replicas[step.node];
    match step
    case AddChannel(node, channelID, name) =>
      && channelID !in r.channels && !NameTaken(r, name)
      && c' == c.(replicas := c.replicas[node := r.(channels := r.channels[channelID := name])])
    case AddWebhook(node, webhookID, token, channelID) =>
      && webhookID !in r.webhooks && !TokenTaken(r, token) && channelID in r.channels
      && c' == c.(replicas := c.replicas[node := r.(webhooks := r.webhooks[webhookID := Webhook(token, channelID)])])
    case Receive(node, webhookID, channelID, input, found, entropy, now) =>
      && EntropyUnused(c.log, entropy) && Lookup(r, webhookID, input.externalKey, found)
      && LocalChange(c, node, ReceiveWebhook(r, webhookID, channelID, input, found, entropy, now), c')
    case SetState(node, id, state, actorID, authorised, size, now) =>
      LocalChange(c, node, ChangeState(r, id, state, actorID, authorised, size, now), c')
    case Deliver(node, ops) =>
      && (forall i :: 0 <= i < |ops| ==> Allocated(c.log, ops[i]))
      && var result := ApplyBatch(r, ops);
         c' == c.(replicas := c.replicas[node := result.replica],
                  processed := c.processed[node := c.processed[node] + result.taken])
    case PruneRange(node, origin, through) =>
      && var result := Prune(r, origin, through);
         c' == if result.None? then c else c.(replicas := c.replicas[node := result.value])
    case BuildSnapshot(node, snapshot) =>
      && Exports(r, snapshot)
      && c' == c.(sent := c.sent + {SentSnapshot(snapshot, c.processed[node], r.notifications)})
    case MergeSnapshot(node, message, now) =>
      && message in c.sent
      && var result := ApplySnapshot(r, message.snapshot, now);
         c' == if result.None? then c
               else c.(replicas := c.replicas[node := result.value],
                       processed := c.processed[node := c.processed[node] + message.covers])
    case WriteUnlogged(node, id, record) =>
      c' == c.(replicas := c.replicas[node := r.(notifications := r.notifications[id := record])])
  }

  /** A run: states joined by steps, from an initial state. */
  datatype Run = Run(states: seq<Cluster>, steps: seq<Step>)

  ghost predicate ValidRun(run: Run)
  {
    && |run.states| == |run.steps| + 1
    && Init(run.states[0])
    && forall i :: 0 <= i < |run.steps| ==> Next(run.states[i], run.steps[i], run.states[i + 1])
  }

  /* ---------- What every reachable state keeps ---------- */

  /** Operations an honest node appends. */
  ghost predicate Honest(op: Operation)
  {
    && op.payload.body.Some? && op.payload.validJSON && op.physicalMS > 0
    && var body := op.payload.body.value;
       && StateRank(body.state) >= 0
       && !op.kind.OtherKind?
  }

  ghost predicate WellNumbered(log: Log)
  {
    forall k :: Known(log, k) ==> KeyOf(OpAt(log, k)) == k && Honest(OpAt(log, k))
  }

  /** The operations of `origin` a node has taken in are 1..Mark. */
  ghost function Mark(log: Log, r: Replica, origin: string): nat
  {
    if origin == r.nodeID && origin in log then |log[origin]| else CursorRow(r, origin)
  }

  ghost predicate TablesOK(log: Log, r: Replica)
  {
    && r.nodeID in log
    && (forall k :: k in r.envelopes ==> Known(log, k) && r.envelopes[k] == OpAt(log, k))
    && (forall k :: k in r.envelopes ==> k.sequence <= Mark(log, r, k.origin))
    && (forall o :: o in r.cursors ==> o in log && 1 <= r.cursors[o] <= |log[o]|)
    && (forall k :: Known(log, k) && k.origin == r.nodeID && k.sequence > CursorRow(r, k.origin) ==> k in r.envelopes)
  }

  ghost predicate ProcessedOK(log: Log, r: Replica, processed: set<OpKey>)
  {
    forall k :: k in processed <==> Known(log, k) && k.sequence <= Mark(log, r, k.origin)
  }

  ghost predicate ReplicaOK(log: Log, r: Replica, processed: set<OpKey>)
  {
    && TablesOK(log, r)
    && ProcessedOK(log, r, processed)
  }

  ghost predicate RowsAre(rows: seq<Row>, notes: map<NotificationID, Record>)
  {
    && (forall i :: 0 <= i < |rows| ==> rows[i].id in notes && notes[rows[i].id] == rows[i].record)
    && (forall id :: id in notes ==> SeenBefore(rows, id))
  }

  ghost predicate SentOK(log: Log, m: SentSnapshot)
  {
    && var cursors := m.snapshot.body.cursors;
    && (forall o :: o in cursors ==> o in log && 1 <= cursors[o] <= |log[o]|)
    && (forall k :: k in m.covers <==> Known(log, k) && k.origin in cursors && k.sequence <= cursors[k.origin])
    && RowsAre(m.snapshot.body.rows, m.notes)
  }

  ghost predicate Inv(c: Cluster)
  {
    && c.log.Keys == c.replicas.Keys == c.processed.Keys
    && WellNumbered(c.log)
    && (forall n :: n in c.replicas ==> c.replicas[n].nodeID == n != "" && c.replicas[n].clusterID != "")
    && (forall n :: n in c.replicas ==> ReplicaOK(c.log, c.replicas[n], c.processed[n]))
    && (forall m :: m in c.sent ==> SentOK(c.log, m))
  }

  /* ---------- The mark is the advertised high-water mark ---------- */

  lemma MarkIsHighWater(log: Log, r: Replica, origin: string)
    requires TablesOK(log, r)
    ensures HighWater(r, origin) == Mark(log, r, origin)
    ensures Reports(r, origin) <==> HighWater(r, origin) > 0
    ensures HighWater(r, origin) > 0 ==> origin in log && HighWater(r, origin) <= |log[origin]|
  {
    var high := HighWater(r, origin);
    if OpKey(origin, high) in r.envelopes {
      assert Known(log, OpKey(origin, high));
    }
    if origin == r.nodeID && |log[origin]| > 0 {
      assert Known(log, OpKey(origin, |log[origin]|));
    }
    if k :| k in r.envelopes && k.origin == origin {
      assert Known(log, k);
    }
  }

  /* ---------- Growing logs ---------- */

  ghost predicate Grows(log: Log, log': Log)
  {
    && (forall o :: o in log ==> o in log')
    && (forall k :: Known(log, k) ==> Known(log', k) && OpAt(log', k) == OpAt(log, k))
  }

  lemma AppendGrows(log: Log, node: string, op: Operation)
    requires node in log
    ensures Grows(log, log[node := log[node] + [op]])
    ensures forall k :: Known(log[node := log[node] + [op]], k) ==> Known(log, k) || k == OpKey(node, |log[node]| + 1)
    ensures OpAt(log[node := log[node] + [op]], OpKey(node, |log[node]| + 1)) == op
  {
  }

  /** Another origin's append does not disturb a node. */
  lemma AppendKeepsOthers(log: Log, node: string, op: Operation, r: Replica, processed: set<OpKey>)
    requires node in log && r.nodeID != node && ReplicaOK(log, r, processed)
    ensures ReplicaOK(log[node := log[node] + [op]], r, processed)
  {
    var log' := log[node := log[node] + [op]];
    AppendGrows(log, node, op);
    assert TablesOK(log', r);
    assert ProcessedOK(log', r, processed);
  }

  lemma AppendKeepsSent(log: Log, node: string, op: Operation, m: SentSnapshot)
    requires node in log && SentOK(log, m)
    ensures SentOK(log[node := log[node] + [op]], m)
  {
    AppendGrows(log, node, op);
  }

  /* ---------- One operation absorbed into the accounts ---------- */

  /** `record` is `notes` at `id` after taking in `op`: creation time and identity in any
      case, the state unless the operation is an update, which overwrites it. */
  ghost predicate Absorbs(notes: map<NotificationID, Record>, op: Operation, id: NotificationID, record: Record)
  {
    Concerns(op, id) && AbsorbsOrigin(notes, op, id, record) &&
      (!op.kind.Updated? ==> AbsorbsState(notes, op, id, record))
  }

  ghost predicate AbsorbsOrigin(notes: map<NotificationID, Record>, op: Operation, id: NotificationID, record: Record)
    requires Concerns(op, id)
  {
    var body := op.payload.body.value;
    && (op.kind.Created? ==>
        record.createdAt <= body.createdAt && SameExternalKey(record, op.actorID, body.externalKey))
    && (if id in notes then
          && record.createdAt <= notes[id].createdAt && SameIdentity(record, notes[id])
          && (record.createdAt == notes[id].createdAt || (op.kind.Created? && record.createdAt == body.createdAt))
        else op.kind.Created? && record.createdAt == body.createdAt)
  }

  ghost predicate AbsorbsState(notes: map<NotificationID, Record>, op: Operation, id: NotificationID, record: Record)
    requires Concerns(op, id)
  {
    var body := op.payload.body.value;
    && StateRank(body.state) <= StateRank(record.state)
    && (if id in notes then
          && StateRank(notes[id].state) <= StateRank(record.state)
          && (record.state == body.state || record.state == notes[id].state)
        else record.state == body.state)
  }

  /** Only channels, webhooks and the quarantine may differ. */
  ghost predicate SameReplicationTables(r: Replica, s: Replica)
  {
    && s.nodeID == r.nodeID && s.clusterID == r.clusterID
    && s.envelopes == r.envelopes && s.cursors == r.cursors
  }

  lemma StoreCreatedAbsorbs(r: Replica, op: Operation, body: Body, next: Replica)
    requires StoreCreated(r, op, body) == Effected(next) && Honest(op) && op.kind.Created? &&
             op.payload.body == Some(body)
    ensures SameReplicationTables(r, next)
    ensures var id := body.notificationID;
            && id in next.notifications && next.notifications == r.notifications[id := next.notifications[id]]
            && Absorbs(r.notifications, op, id, next.notifications[id])
  {
  }

  lemma RewriteAbsorbs(r: Replica, op: Operation, next: Replica)
    requires Effect(r, op) == Effected(next) && Honest(op) && !op.kind.Created?
    ensures SameReplicationTables(r, next)
    ensures var id := op.payload.body.value.notificationID;
            && id in next.notifications && next.notifications == r.notifications[id := next.notifications[id]]
            && Absorbs(r.notifications, op, id, next.notifications[id])
  {
    hide Absorbs, Effect;
    if op.kind.StateChanged? {
      StateChangeAbsorbs(r, op, next);
    } else {
      UpdateAbsorbs(r, op, next);
    }
  }

  lemma UpdateAbsorbs(r: Replica, op: Operation, next: Replica)
    requires Effect(r, op) == Effected(next) && Honest(op) && op.kind.Updated?
    ensures SameReplicationTables(r, next)
    ensures var id := op.payload.body.value.notificationID;
            && id in next.notifications && next.notifications == r.notifications[id := next.notifications[id]]
            && Absorbs(r.notifications, op, id, next.notifications[id])
  {
    hide CreatedEffect, BodyContent, AbsorbsState;
    var id := op.payload.body.value.notificationID;
    assert next.notifications == r.notifications[id := next.notifications[id]];
  }

  lemma StateChangeAbsorbs(r: Replica, op: Operation, next: Replica)
    requires Effect(r, op) == Effected(next) && Honest(op) && op.kind.StateChanged?
    ensures SameReplicationTables(r, next)
    ensures var id := op.payload.body.value.notificationID;
            && id in next.notifications && next.notifications == r.notifications[id := next.notifications[id]]
            && Absorbs(r.notifications, op, id, next.notifications[id])
  {
    hide CreatedEffect, BodyContent;
    var id := op.payload.body.value.notificationID;
    assert next.notifications == r.notifications[id := next.notifications[id]];
  }

  /** What a successful effect changes, and that its card absorbs the operation. */
  lemma EffectAbsorbs(r: Replica, op: Operation, next: Replica)
    requires Effect(r, op) == Effected(next) && Honest(op)
    ensures SameReplicationTables(r, next)
    ensures var id := op.payload.body.value.notificationID;
            && id in next.notifications && next.notifications == r.notifications[id := next.notifications[id]]
            && Absorbs(r.notifications, op, id, next.notifications[id])
  {
    hide Absorbs, Effect, Honest;
    if op.kind.Created? {
      CreateAbsorbs(r, op, next);
    } else {
      assert !op.kind.OtherKind? by { HonestKind(op); }
      RewriteAbsorbs(r, op, next);
    }
  }

  lemma HonestKind(op: Operation)
    requires Honest(op)
    ensures !op.kind.OtherKind? && op.payload.body.Some?
  {
  }

  lemma CreateAbsorbs(r: Replica, op: Operation, next: Replica)
    requires Effect(r, op) == Effected(next) && Honest(op) && op.kind.Created?
    ensures SameReplicationTables(r, next)
    ensures var id := op.payload.body.value.notificationID;
            && id in next.notifications && next.notifications == r.notifications[id := next.notifications[id]]
            && Absorbs(r.notifications, op, id, next.notifications[id])
  {
    hide StoreCreated, Absorbs, NameTaken, TokenTaken;
    var body := op.payload.body.value;
    StoreCreatedAbsorbs(WithWebhook(WithChannel(r, op, body), op), op, body, next);
  }

  lemma RejectionKeepsTables(r: Replica, op: Operation, partial: Replica)
    requires Effect(r, op) == Rejected(partial)
    ensures SameReplicationTables(r, partial) && partial.notifications == r.notifications
  {
    hide InsertableNotification, Join, SameIdentity, BodyRecord, BodyContent, StateRank, NameTaken, TokenTaken;
  }

  lemma SameTablesKeepOK(log: Log, r: Replica, s: Replica, processed: set<OpKey>)
    requires ReplicaOK(log, r, processed) && SameReplicationTables(r, s)
    ensures ReplicaOK(log, s, processed)
  {
  }

  /* ---------- Delivery ---------- */

  lemma IsolationKeepsTables(r: Replica, origin: string, op: Operation, next: Replica)
    requires ApplyOne(r, origin, op) == Isolated(next)
    ensures SameReplicationTables(r, next) && next.notifications == r.notifications
  {
    hide Effect, StorableEnvelope, SameOperation;
    match Effect(r, op)
    case Rejected(partial) => RejectionKeepsTables(r, op, partial);
    case Effected(_) =>
  }

  lemma AdvanceShape(r: Replica, origin: string, op: Operation, next: Replica)
    requires ApplyOne(r, origin, op) == Advanced(next)
    ensures op.origin == origin && op.sequence == CursorRow(r, origin) + 1 && Effect(r, op).Effected?
    ensures StorableEnvelope(Effect(r, op).next, op)
    ensures next == Effect(r, op).next.(envelopes := Effect(r, op).next.envelopes[KeyOf(op) := op],
                                        cursors := Effect(r, op).next.cursors[origin := op.sequence])
  {
  }

  lemma OwnOriginNeverAdvances(log: Log, r: Replica, op: Operation, next: Replica)
    requires TablesOK(log, r) && WellNumbered(log) && Allocated(log, op)
    ensures ApplyOne(r, r.nodeID, op) != Advanced(next)
  {
    if ApplyOne(r, r.nodeID, op) == Advanced(next) {
      AdvanceShape(r, r.nodeID, op, next);
      assert Honest(OpAt(log, KeyOf(op)));
      EffectAbsorbs(r, op, Effect(r, op).next);
    }
  }

  lemma AdvanceKeepsTables(log: Log, r: Replica, mid: Replica, op: Operation)
    requires TablesOK(log, r) && SameReplicationTables(r, mid) && Allocated(log, op)
    requires op.origin != r.nodeID && op.sequence == CursorRow(r, op.origin) + 1
    ensures TablesOK(log,
                     mid.(envelopes := mid.envelopes[KeyOf(op) := op],
                          cursors := mid.cursors[op.origin := op.sequence]))
  {
  }

  lemma AdvanceKeepsProcessed(log: Log, r: Replica, processed: set<OpKey>, next: Replica, op: Operation)
    requires ProcessedOK(log, r, processed) && Allocated(log, op)
    requires op.origin != r.nodeID && op.sequence == CursorRow(r, op.origin) + 1
    requires next.nodeID == r.nodeID && next.cursors == r.cursors[op.origin := op.sequence]
    ensures ProcessedOK(log, next, processed + {KeyOf(op)})
  {
  }

  lemma AdvanceKeepsOK(log: Log, r: Replica, processed: set<OpKey>, origin: string, op: Operation, next: Replica)
    requires WellNumbered(log) && ReplicaOK(log, r, processed) && Allocated(log, op)
    requires ApplyOne(r, origin, op) == Advanced(next)
    ensures ReplicaOK(log, next, processed + {KeyOf(op)}) && next.nodeID == r.nodeID && next.clusterID == r.clusterID
  {
    AdvanceShape(r, origin, op, next);
    if origin == r.nodeID {
      OwnOriginNeverAdvances(log, r, op, next);
    }
    assert Honest(OpAt(log, KeyOf(op)));
    var mid := Effect(r, op).next;
    EffectAbsorbs(r, op, mid);
    AdvanceKeepsTables(log, r, mid, op);
    AdvanceKeepsProcessed(log, r, processed, next, op);
  }

  /** A whole batch, from any point of it on. */
  lemma {:induction false} BatchKeepsOK(log: Log, start: Replica, before: set<OpKey>, current: Replica,
                                        taken: set<OpKey>, origin: string, ops: seq<Operation>)
    requires WellNumbered(log) && ReplicaOK(log, start, before) && ReplicaOK(log, current, before + taken)
    requires current.nodeID == start.nodeID && current.clusterID == start.clusterID
    requires forall i :: 0 <= i < |ops| ==> Allocated(log, ops[i])
    ensures var result := ApplyFrom(start, current, taken, origin, ops);
            && ReplicaOK(log, result.replica, before + result.taken)
            && result.replica.nodeID == start.nodeID && result.replica.clusterID == start.clusterID
    decreases |ops|
  {
    hide ReplicaOK, ApplyOne, KeyOf;
    if ops == [] {
    } else {
      assert Allocated(log, ops[0]);
      match ApplyOne(current, origin, ops[0])
      case Advanced(next) =>
        AdvanceKeepsOK(log, current, before + taken, origin, ops[0], next);
        assert before + taken + {KeyOf(ops[0])} == before + (taken + {KeyOf(ops[0])});
        BatchKeepsOK(log, start, before, next, taken + {KeyOf(ops[0])}, origin, ops[1..]);
      case Repeated =>
        BatchKeepsOK(log, start, before, current, taken, origin, ops[1..]);
      case Isolated(next) =>
        IsolationKeepsTables(current, origin, ops[0], next);
        SameTablesKeepOK(log, current, next, before + taken);
      case _ =>
        assert before + {} == before;
    }
  }

  /* ---------- Local changes ---------- */

  /** What a successful append adds to a node whose tables are in order. */
  lemma AppendShape(log: Log, r: Replica, kind: Kind, channelID: string, actorID: string, payload: Payload, now: int,
                    r': Replica)
    requires TablesOK(log, r) && r.clusterID != ""
    requires Append(r, kind, channelID, actorID, payload, now) == Some(r')
    ensures var op := NextOwnOperation(r, kind, channelID, actorID, payload, now);
            && KeyOf(op) == OpKey(r.nodeID, |log[r.nodeID]| + 1)
            && KeyOf(op) !in r.envelopes && op.physicalMS > 0 && op.payload.validJSON
            && r' == r.(envelopes := r.envelopes[KeyOf(op) := op])
            && r'.envelopes.Keys - r.envelopes.Keys == {KeyOf(op)}
  {
    MarkIsHighWater(log, r, r.nodeID);
  }

  lemma OwnAppendKeepsTables(log: Log, r: Replica, op: Operation)
    requires TablesOK(log, r) && KeyOf(op) == OpKey(r.nodeID, |log[r.nodeID]| + 1)
    ensures TablesOK(log[r.nodeID := log[r.nodeID] + [op]], r.(envelopes := r.envelopes[KeyOf(op) := op]))
  {
    var log', r' := log[r.nodeID := log[r.nodeID] + [op]], r.(envelopes := r.envelopes[KeyOf(op) := op]);
    AppendGrows(log, r.nodeID, op);
    forall k | k in r'.envelopes
      ensures Known(log', k) && r'.envelopes[k] == OpAt(log', k) && k.sequence <= Mark(log', r', k.origin)
    {
      if k != KeyOf(op) {
        assert Known(log, k);
      }
    }
  }

  lemma OwnAppendKeepsProcessed(log: Log, r: Replica, processed: set<OpKey>, op: Operation)
    requires r.nodeID in log && ProcessedOK(log, r, processed) && KeyOf(op) == OpKey(r.nodeID, |log[r.nodeID]| + 1)
    requires forall o :: o in r.cursors ==> o in log && r.cursors[o] <= |log[o]|
    ensures ProcessedOK(log[r.nodeID := log[r.nodeID] + [op]], r, processed + {KeyOf(op)})
  {
    AppendGrows(log, r.nodeID, op);
  }

  lemma AppendKeepsNumbering(log: Log, node: string, op: Operation)
    requires node in log && WellNumbered(log) && Honest(op) && KeyOf(op) == OpKey(node, |log[node]| + 1)
    ensures WellNumbered(log[node := log[node] + [op]])
  {
    AppendGrows(log, node, op);
  }

  lemma TablesIgnoreNotifications(log: Log, r: Replica, s: Replica, processed: set<OpKey>)
    requires SameReplicationTables(r, s)
    ensures TablesOK(log, r) == TablesOK(log, s)
    ensures ProcessedOK(log, r, processed) == ProcessedOK(log, s, processed)
  {
  }

  /** The node that appends stays in order. */
  lemma OwnAppendKeepsOK(log: Log, r: Replica, processed: set<OpKey>, op: Operation, id: NotificationID, record: Record)
    requires WellNumbered(log) && ReplicaOK(log, r, processed) && Honest(op)
    requires KeyOf(op) == OpKey(r.nodeID, |log[r.nodeID]| + 1)
    ensures var log' := log[r.nodeID := log[r.nodeID] + [op]];
            && WellNumbered(log')
            && ReplicaOK(log',
                         r.(notifications := r.notifications[id := record], envelopes := r.envelopes[KeyOf(op) := op]),
                         processed + {KeyOf(op)})
  {
    var log' := log[r.nodeID := log[r.nodeID] + [op]];
    var mid := r.(envelopes := r.envelopes[KeyOf(op) := op]);
    var r' := mid.(notifications := r.notifications[id := record]);
    AppendKeepsNumbering(log, r.nodeID, op);
    OwnAppendKeepsTables(log, r, op);
    OwnProcessedWithAppend(log, r, processed, op);
    hide TablesOK, WellNumbered, ProcessedOK;
    TablesIgnoreNotifications(log', mid, r', processed + {KeyOf(op)});
  }

  lemma OwnProcessedWithAppend(log: Log, r: Replica, processed: set<OpKey>, op: Operation)
    requires ReplicaOK(log, r, processed) && KeyOf(op) == OpKey(r.nodeID, |log[r.nodeID]| + 1)
    ensures ProcessedOK(log[r.nodeID := log[r.nodeID] + [op]], r.(envelopes := r.envelopes[KeyOf(op) := op]),
                        processed + {KeyOf(op)})
  {
    OwnAppendKeepsProcessed(log, r, processed, op);
  }

  /** A local transaction is either without effect, or one new card version with
      one appended operation that it absorbs. */
  ghost predicate LocalEffect(log: Log, r: Replica, r': Replica)
    requires r.nodeID in log
  {
    r' == r ||
    exists op, id, record ::
      && IsLocalEffect(log, r, r', op, id, record)
  }

  /** The operation carries the node's next hybrid timestamp. */
  ghost predicate Stamped(r: Replica, op: Operation)
  {
    Clock(op.sequence, op.physicalMS, op.logical) == NextClock(PreviousClock(r), op.createdAt)
  }

  ghost predicate IsLocalEffect(log: Log, r: Replica, r': Replica, op: Operation, id: NotificationID, record: Record)
    requires r.nodeID in log
  {
    && Honest(op) && KeyOf(op) == OpKey(r.nodeID, |log[r.nodeID]| + 1) && KeyOf(op) !in r.envelopes
    && Stamped(r, op)
    && Absorbs(r.notifications, op, id, record)
    && r' == r.(notifications := r.notifications[id := record], envelopes := r.envelopes[KeyOf(op) := op])
  }

  lemma ClockIgnoresNotifications(r: Replica, s: Replica)
    requires SameReplicationTables(r, s)
    ensures PreviousClock(r) == PreviousClock(s)
  {
    assert Retained(r, r.nodeID) == Retained(s, r.nodeID);
  }

  lemma AppendIsLocalEffect(log: Log, r: Replica, id: NotificationID, record: Record, kind: Kind, channelID: string,
                            actorID: string, payload: Payload, now: int, r': Replica)
    requires TablesOK(log, r) && r.clusterID != ""
    requires Append(r.(notifications := r.notifications[id := record]), kind, channelID, actorID, payload, now) ==
             Some(r')
    requires payload.body.Some? && StateRank(payload.body.value.state) >= 0 && !kind.OtherKind?
    requires var op :=
             NextOwnOperation(r.(notifications := r.notifications[id := record]), kind, channelID, actorID, payload,
                              now);
             Absorbs(r.notifications, op, id, record)
    ensures LocalEffect(log, r, r')
  {
    var mid := r.(notifications := r.notifications[id := record]);
    var op := NextOwnOperation(mid, kind, channelID, actorID, payload, now);
    NextOwnFields(r, mid, kind, channelID, actorID, payload, now);
    TablesIgnoreNotifications(log, r, mid, {});
    hide NextOwnOperation, Append, Absorbs, TablesOK, Stamped;
    AppendShape(log, mid, kind, channelID, actorID, payload, now, r');
    assert IsLocalEffect(log, r, r', op, id, record);
  }

  lemma NextOwnFields(r: Replica, mid: Replica, kind: Kind, channelID: string, actorID: string, payload: Payload,
                      now: int)
    requires SameReplicationTables(r, mid)
    ensures var op := NextOwnOperation(mid, kind, channelID, actorID, payload, now);
            op.kind == kind && op.payload == payload && Stamped(r, op)
  {
    ClockIgnoresNotifications(r, mid);
  }

  lemma ReceiveIsLocalEffect(log: Log, r: Replica, webhookID: string, channelID: string, input: Incoming,
                             found: Option<NotificationID>, entropy: nat, now: int, r': Replica)
    requires TablesOK(log, r) && r.clusterID != "" && Lookup(r, webhookID, input.externalKey, found)
    requires ReceiveWebhook(r, webhookID, channelID, input, found, entropy, now) == Some(r')
    ensures LocalEffect(log, r, r')
  {
    hide Append, LocalEffect, InsertCard, RewriteCard;
    if found.Some? {
      RewriteIsLocalEffect(log, r, webhookID, channelID, input, found.value, now, r');
    } else {
      InsertIsLocalEffect(log, r, webhookID, channelID, input, entropy, now, r');
    }
  }

  lemma InsertIsLocalEffect(log: Log, r: Replica, webhookID: string, channelID: string, input: Incoming, entropy: nat,
                            now: int, r': Replica)
    requires TablesOK(log, r) && r.clusterID != "" && channelID in r.channels && StateRank(IncomingState(input)) >= 0
    requires InsertCard(r, webhookID, channelID, input, entropy, now) == Some(r')
    ensures LocalEffect(log, r, r')
  {
    hide Append, LocalEffect;
    var id := FreshID(webhookID, input.externalKey, entropy);
    var record :=
      Record(webhookID, input.externalKey, IncomingContent(channelID, input), now, now, IncomingState(input));
    var payload := Payload(input.encodedSize, true, Some(CreatedBody(id, record, r.channels[channelID])));
    AppendIsLocalEffect(log, r, id, record, Created, channelID, webhookID, payload, now, r');
  }

  lemma RewriteIsLocalEffect(log: Log, r: Replica, webhookID: string, channelID: string, input: Incoming,
                             existing: NotificationID, now: int, r': Replica)
    requires TablesOK(log, r) && r.clusterID != "" && existing in r.notifications &&
             StateRank(IncomingState(input)) >= 0
    requires RewriteCard(r, webhookID, channelID, input, existing, now) == Some(r')
    ensures LocalEffect(log, r, r')
  {
    hide Append, LocalEffect;
    var prior := r.notifications[existing];
    var reopened := prior.state == Resolved && IncomingState(input) == Firing;
    var state := if !reopened then HigherState(IncomingState(input), prior.state) else IncomingState(input);
    var at := if now <= prior.createdAt then prior.createdAt + 1 else now;
    var record := prior.(content := IncomingContent(channelID, input), state := state, updatedAt := at);
    var body := CreatedBody(existing, record, "").(externalKey := "", createdAt := 0);
    AppendIsLocalEffect(log, r, existing, record, Updated, channelID, webhookID,
                        Payload(input.encodedSize, true, Some(body)), at, r');
  }

  lemma ChangeIsLocalEffect(log: Log, r: Replica, id: NotificationID, next: State, actorID: string, authorised: bool,
                            size: nat, now: int, r': Replica)
    requires TablesOK(log, r) && r.clusterID != ""
    requires ChangeState(r, id, next, actorID, authorised, size, now) == Some(r')
    ensures LocalEffect(log, r, r')
  {
    hide Append;
    var prior := r.notifications[id];
    if prior.state != next {
      var at := if now <= prior.updatedAt then prior.updatedAt + 1 else now;
      var body := Body(id, next, "", "", "", "", "", "", "", "", 0, at);
      AppendIsLocalEffect(log, r, id, prior.(state := next, updatedAt := at), StateChanged, prior.content.channelID,
                          actorID,
                          Payload(size, true, Some(body)), at, r');
    }
  }

  /* ---------- Pruning ---------- */

  /** Pruning any node, in any state, leaves every advertised mark as it was. */
  lemma PruneKeepsHighWater(r: Replica, origin: string, through: nat, r': Replica, o: string)
    requires Prune(r, origin, through) == Some(r')
    ensures HighWater(r', o) == HighWater(r, o)
  {
    var high, high' := HighWater(r, o), HighWater(r', o);
    if o == origin {
      var top := Largest(Retained(r, origin));
      assert top in Retained(r, origin);
      if top > through {
        assert OpKey(origin, top) in r'.envelopes;
      }
    } else {
      assert CursorRow(r', o) == CursorRow(r, o);
      assert OpKey(o, high) in r.envelopes ==> OpKey(o, high) in r'.envelopes;
    }
  }

  lemma PruneRangeIsAllocated(log: Log, r: Replica, origin: string, through: nat, r': Replica)
    requires TablesOK(log, r) && Prune(r, origin, through) == Some(r')
    ensures origin in log && 1 <= through <= |log[origin]| && through <= Mark(log, r, origin)
  {
    var top := Largest(Retained(r, origin));
    assert top in Retained(r, origin);
    assert OpKey(origin, top) in r.envelopes && Known(log, OpKey(origin, top));
  }

  lemma PruneShape(r: Replica, origin: string, through: nat, r': Replica)
    requires Prune(r, origin, through) == Some(r')
    ensures r' == r.(cursors := RaisedCursor(r, origin, through), envelopes := r'.envelopes)
    ensures forall k :: k in r'.envelopes <==> k in r.envelopes && !(k.origin == origin && k.sequence <= through)
    ensures forall k :: k in r'.envelopes ==> r'.envelopes[k] == r.envelopes[k]
  {
  }

  lemma PruneKeepsMarks(log: Log, r: Replica, origin: string, through: nat, r': Replica)
    requires through <= Mark(log, r, origin) && r'.nodeID == r.nodeID && r'.cursors == RaisedCursor(r, origin, through)
    ensures forall o :: Mark(log, r', o) == Mark(log, r, o)
    ensures forall o :: CursorRow(r', o) >= CursorRow(r, o)
    ensures CursorRow(r', origin) >= through
    ensures forall o :: o in r'.cursors ==> o == origin || (o in r.cursors && r'.cursors[o] == r.cursors[o])
  {
  }

  lemma FewerEnvelopesKeepTables(log: Log, r: Replica, r': Replica, origin: string, through: nat)
    requires TablesOK(log, r) && r'.nodeID == r.nodeID
    requires forall o :: Mark(log, r', o) == Mark(log, r, o)
    requires forall o :: CursorRow(r', o) >= CursorRow(r, o)
    requires CursorRow(r', origin) >= through
    requires forall o :: o in r'.cursors ==> o in log && 1 <= r'.cursors[o] <= |log[o]|
    requires forall k :: k in r'.envelopes <==> k in r.envelopes && !(k.origin == origin && k.sequence <= through)
    requires forall k :: k in r'.envelopes ==> r'.envelopes[k] == r.envelopes[k]
    ensures TablesOK(log, r')
  {
    hide Mark, CursorRow;
    forall k | Known(log, k) && k.origin == r'.nodeID && k.sequence > CursorRow(r', k.origin)
      ensures k in r'.envelopes
    {
      assert k.sequence > CursorRow(r, k.origin);
    }
  }

  lemma PruneKeepsTables(log: Log, r: Replica, origin: string, through: nat, r': Replica)
    requires TablesOK(log, r) && Prune(r, origin, through) == Some(r')
    ensures TablesOK(log, r')
    ensures forall o :: Mark(log, r', o) == Mark(log, r, o)
  {
    PruneRangeIsAllocated(log, r, origin, through, r');
    PruneShape(r, origin, through, r');
    PruneKeepsMarks(log, r, origin, through, r');
    forall o | o in r'.cursors
      ensures o in log && 1 <= r'.cursors[o] <= |log[o]|
    {
    }
    hide *;
    FewerEnvelopesKeepTables(log, r, r', origin, through);
  }

  lemma PruneKeepsOK(log: Log, r: Replica, processed: set<OpKey>, origin: string, through: nat, r': Replica)
    requires ReplicaOK(log, r, processed) && Prune(r, origin, through) == Some(r')
    ensures ReplicaOK(log, r', processed) && r'.nodeID == r.nodeID && r'.clusterID == r.clusterID
  {
    PruneKeepsTables(log, r, origin, through, r');
    hide TablesOK;
    assert ProcessedOK(log, r', processed);
  }

  /* ---------- Snapshots ---------- */

  lemma BuiltCursorsOK(log: Log, r: Replica, snapshot: Snapshot, o: string)
    requires TablesOK(log, r) && Exports(r, snapshot)
    ensures o in snapshot.body.cursors <==> Mark(log, r, o) > 0
    ensures o in snapshot.body.cursors ==>
            snapshot.body.cursors[o] == Mark(log, r, o) && o in log && Mark(log, r, o) <= |log[o]|
  {
    MarkIsHighWater(log, r, o);
  }

  lemma BuiltSnapshotOK(log: Log, r: Replica, processed: set<OpKey>, snapshot: Snapshot)
    requires ReplicaOK(log, r, processed) && Exports(r, snapshot)
    ensures SentOK(log, SentSnapshot(snapshot, processed, r.notifications))
  {
    BuiltRowsOK(r, snapshot);
    hide Exports, TablesOK, ProcessedOK, Mark, RowsAre, SentOK, Known;
    BuiltCursorsAreMarks(log, r, snapshot);
    BuiltCoversOK(log, r, processed, snapshot.body.cursors);
    CursorsWithinLog(log, r, snapshot);
    SentFromParts(log, SentSnapshot(snapshot, processed, r.notifications));
  }

  lemma BuiltCursorsAreMarks(log: Log, r: Replica, snapshot: Snapshot)
    requires TablesOK(log, r) && Exports(r, snapshot)
    ensures forall o :: o in snapshot.body.cursors <==> Mark(log, r, o) > 0
    ensures forall o :: o in snapshot.body.cursors ==> snapshot.body.cursors[o] == Mark(log, r, o)
  {
    hide Exports, TablesOK, Mark;
    forall o
      ensures o in snapshot.body.cursors <==> Mark(log, r, o) > 0
      ensures o in snapshot.body.cursors ==> snapshot.body.cursors[o] == Mark(log, r, o)
    {
      BuiltCursorsOK(log, r, snapshot, o);
    }
  }

  lemma CursorsWithinLog(log: Log, r: Replica, snapshot: Snapshot)
    requires TablesOK(log, r) && Exports(r, snapshot)
    ensures forall o :: o in snapshot.body.cursors ==> o in log && 1 <= snapshot.body.cursors[o] <= |log[o]|
  {
    hide Exports, TablesOK, Mark;
    forall o | o in snapshot.body.cursors
      ensures o in log && 1 <= snapshot.body.cursors[o] <= |log[o]|
    {
      BuiltCursorsOK(log, r, snapshot, o);
    }
  }

  lemma SentFromParts(log: Log, m: SentSnapshot)
    requires forall o :: o in m.snapshot.body.cursors ==> o in log && 1 <= m.snapshot.body.cursors[o] <= |log[o]|
    requires forall k :: k in m.covers <==>
             Known(log, k) && k.origin in m.snapshot.body.cursors && k.sequence <= m.snapshot.body.cursors[k.origin]
    requires RowsAre(m.snapshot.body.rows, m.notes)
    ensures SentOK(log, m)
  {
    hide RowsAre, Known;
  }

  lemma BuiltRowsOK(r: Replica, snapshot: Snapshot)
    requires Exports(r, snapshot)
    ensures RowsAre(snapshot.body.rows, r.notifications)
  {
  }

  lemma BuiltCoversOK(log: Log, r: Replica, processed: set<OpKey>, cursors: map<string, nat>)
    requires ProcessedOK(log, r, processed)
    requires forall o :: o in cursors <==> Mark(log, r, o) > 0
    requires forall o :: o in cursors ==> cursors[o] == Mark(log, r, o)
    ensures forall k :: k in processed <==> Known(log, k) && k.origin in cursors && k.sequence <= cursors[k.origin]
  {
    hide Mark;
  }

  /** `after` joins `theirs` into `ours`. */
  ghost predicate MergedNotes(ours: map<NotificationID, Record>, theirs: map<NotificationID, Record>,
                              after: map<NotificationID, Record>)
  {
    && after.Keys == ours.Keys + theirs.Keys
    && (forall id :: id in after ==> MergedNote(ours, theirs, id, after[id]))
  }

  ghost predicate MergedNote(ours: map<NotificationID, Record>, theirs: map<NotificationID, Record>,
                             id: NotificationID, record: Record)
  {
    if id in ours && id in theirs then SameIdentity(ours[id], theirs[id]) && record == Join(ours[id], theirs[id])
    else if id in ours then record == ours[id]
    else id in theirs && record == theirs[id]
  }

  ghost predicate RowsMerged(ours: map<NotificationID, Record>, rows: seq<Row>, after: map<NotificationID, Record>)
  {
    && (forall id :: id in after <==> id in ours || SeenBefore(rows, id))
    && (forall id :: id in ours && !SeenBefore(rows, id) ==> after[id] == ours[id])
    && (forall i :: 0 <= i < |rows| ==>
        MergedNote(ours, map[rows[i].id := rows[i].record], rows[i].id, after[rows[i].id]))
  }

  lemma MergeRowResult(r: Replica, row: Row, r': Replica)
    requires MergeRow(r, row) == Some(r')
    ensures row.id in r'.notifications && r' == r.(notifications := r.notifications[row.id := r'.notifications[row.id]])
    ensures MergedNote(r.notifications, map[row.id := row.record], row.id, r'.notifications[row.id])
  {
  }

  lemma SeenOneMore(rows: seq<Row>, id: NotificationID)
    requires rows != []
    ensures SeenBefore(rows, id) <==> SeenBefore(rows[..|rows| - 1], id) || id == rows[|rows| - 1].id
  {
    var n := |rows| - 1;
    if i :| 0 <= i < |rows| && rows[i].id == id {
      assert i < n ==> rows[..n][i].id == id;
    }
    if i :| 0 <= i < n && rows[..n][i].id == id {
      assert rows[i].id == id;
    }
  }

  lemma RowsMergedOneMore(ours: map<NotificationID, Record>, rows: seq<Row>, mid: map<NotificationID, Record>,
                          record: Record)
    requires rows != []
    requires var n := |rows| - 1;
             && RowsMerged(ours, rows[..n], mid) && !SeenBefore(rows[..n], rows[n].id)
             && MergedNote(mid, map[rows[n].id := rows[n].record], rows[n].id, record)
    ensures RowsMerged(ours, rows, mid[rows[|rows| - 1].id := record])
  {
    hide Join, SameIdentity;
    var n := |rows| - 1;
    var after := mid[rows[n].id := record];
    forall id
      ensures SeenBefore(rows, id) <==> SeenBefore(rows[..n], id) || id == rows[n].id
    {
      SeenOneMore(rows, id);
    }
    forall i | 0 <= i < |rows|
      ensures MergedNote(ours, map[rows[i].id := rows[i].record], rows[i].id, after[rows[i].id])
    {
      if i < n {
        assert rows[..n][i] == rows[i] && SeenBefore(rows[..n], rows[i].id);
      }
    }
  }

  lemma {:induction false} MergeRowsResult(r: Replica, rows: seq<Row>, r': Replica)
    requires MergeRows(r, rows) == Some(r')
    ensures r' == r.(notifications := r'.notifications)
    ensures RowsMerged(r.notifications, rows, r'.notifications)
  {
    hide MergeRow, MergedNote, RowsMerged;
    if rows == [] {
      NothingMerged(r.notifications);
    } else {
      var n := |rows| - 1;
      var mid := MergeRows(r, rows[..n]).value;
      MergeRowsResult(r, rows[..n], mid);
      MergeRowResult(mid, rows[n], r');
      RowsMergedOneMore(r.notifications, rows, mid.notifications, r'.notifications[rows[n].id]);
    }
  }

  lemma NothingMerged(ours: map<NotificationID, Record>)
    ensures RowsMerged(ours, [], ours)
  {
  }

  lemma RowsMergedIsMerged(ours: map<NotificationID, Record>, rows: seq<Row>, theirs: map<NotificationID, Record>,
                           after: map<NotificationID, Record>)
    requires RowsAre(rows, theirs) && RowsMerged(ours, rows, after)
    ensures MergedNotes(ours, theirs, after)
  {
    hide Join, SameIdentity;
    forall id | id in theirs
      ensures id in after && MergedNote(ours, theirs, id, after[id])
    {
      assert SeenBefore(rows, id);
      var i :| 0 <= i < |rows| && rows[i].id == id;
      assert MergedNote(ours, map[rows[i].id := rows[i].record], rows[i].id, after[rows[i].id]);
    }
    forall id | id in after && id !in theirs
      ensures MergedNote(ours, theirs, id, after[id])
    {
      assert !SeenBefore(rows, id);
    }
    assert forall id :: id in ours ==> id in after;
  }

  lemma MergedCursorsKeepTables(log: Log, r: Replica, theirs: map<string, nat>)
    requires TablesOK(log, r)
    requires forall o :: o in theirs ==> o in log && 1 <= theirs[o] <= |log[o]|
    ensures TablesOK(log, r.(cursors := MergeCursors(r.cursors, theirs)))
  {
    var r' := r.(cursors := MergeCursors(r.cursors, theirs));
    assert forall o :: CursorRow(r', o) >= CursorRow(r, o);
  }

  lemma MergedCursorsKeepProcessed(log: Log, r: Replica, processed: set<OpKey>, theirs: map<string, nat>,
                                   covers: set<OpKey>)
    requires ProcessedOK(log, r, processed)
    requires forall k :: k in covers <==> Known(log, k) && k.origin in theirs && k.sequence <= theirs[k.origin]
    ensures ProcessedOK(log, r.(cursors := MergeCursors(r.cursors, theirs)), processed + covers)
  {
    var r' := r.(cursors := MergeCursors(r.cursors, theirs));
    forall k | Known(log, k)
      ensures k in processed + covers <==> k.sequence <= Mark(log, r', k.origin)
    {
    }
  }

  /** A merged snapshot touches only notifications and cursors. */
  lemma SnapshotShape(r: Replica, snapshot: Snapshot, now: int, r': Replica)
    requires ApplySnapshot(r, snapshot, now) == Some(r')
    ensures r' == r.(notifications := r'.notifications, cursors := MergeCursors(r.cursors, snapshot.body.cursors))
  {
    MergeRowsResult(r, snapshot.body.rows, MergeRows(r, snapshot.body.rows).value);
  }

  lemma MergeKeepsOK(log: Log, r: Replica, processed: set<OpKey>, m: SentSnapshot, now: int, r': Replica)
    requires ReplicaOK(log, r, processed) && SentOK(log, m)
    requires ApplySnapshot(r, m.snapshot, now) == Some(r')
    ensures ReplicaOK(log, r', processed + m.covers) && r'.nodeID == r.nodeID && r'.clusterID == r.clusterID
  {
    var body := m.snapshot.body;
    var mid := MergeRows(r, body.rows).value;
    MergeRowsResult(r, body.rows, mid);
    hide MergeRows, TablesOK, ProcessedOK, RowsMerged;
    TablesIgnoreNotifications(log, r, mid, processed);
    MergedCursorsKeepTables(log, mid, body.cursors);
    MergedCursorsKeepProcessed(log, mid, processed, body.cursors, m.covers);
  }

  /* ---------- Every step keeps the invariant ---------- */

  lemma InitHolds(c: Cluster)
    requires Init(c)
    ensures Inv(c)
  {
    forall n | n in c.replicas
      ensures ReplicaOK(c.log, c.replicas[n], c.processed[n])
    {
      assert forall k :: !Known(c.log, k);
    }
  }

  lemma NodeUpdateKeepsInv(c: Cluster, n: string, r': Replica, processed: set<OpKey>, c': Cluster)
    requires Inv(c) && n in c.replicas
    requires r'.nodeID == n && r'.clusterID == c.replicas[n].clusterID && ReplicaOK(c.log, r', processed)
    requires c' == c.(replicas := c.replicas[n := r'], processed := c.processed[n := processed])
    ensures Inv(c')
  {
    hide ReplicaOK, SentOK, WellNumbered;
  }

  lemma LocalEffectKeepsOK(log: Log, r: Replica, processed: set<OpKey>, r': Replica, op: Operation, id: NotificationID,
                           record: Record)
    requires WellNumbered(log) && ReplicaOK(log, r, processed) && IsLocalEffect(log, r, r', op, id, record)
    ensures var log' := log[r.nodeID := log[r.nodeID] + [op]];
            WellNumbered(log') && ReplicaOK(log', r', processed + {KeyOf(op)})
    ensures r'.nodeID == r.nodeID && r'.clusterID == r.clusterID
  {
    hide WellNumbered, ReplicaOK, Honest, Stamped, Absorbs;
    OwnAppendKeepsOK(log, r, processed, op, id, record);
  }

  lemma LocalAppendKeepsInv(c: Cluster, n: string, r': Replica, op: Operation, id: NotificationID, record: Record,
                            c': Cluster)
    requires Inv(c) && n in c.replicas && IsLocalEffect(c.log, c.replicas[n], r', op, id, record)
    requires c' == c.(replicas := c.replicas[n := r'], log := c.log[n := c.log[n] + [op]],
                      processed := c.processed[n := c.processed[n] + {KeyOf(op)}])
    ensures Inv(c')
  {
    hide ReplicaOK, SentOK, WellNumbered, IsLocalEffect;
    LocalEffectKeepsOK(c.log, c.replicas[n], c.processed[n], r', op, id, record);
    forall m | m in c'.replicas
      ensures ReplicaOK(c'.log, c'.replicas[m], c'.processed[m])
    {
      if m != n {
        AppendKeepsOthers(c.log, n, op, c.replicas[m], c.processed[m]);
      }
    }
    forall m | m in c'.sent
      ensures SentOK(c'.log, m)
    {
      AppendKeepsSent(c.log, n, op, m);
    }
  }

  /** A local transaction either changes nothing or appends one operation. */
  lemma LocalChangeCases(c: Cluster, n: string, r': Replica, c': Cluster)
    returns (op: Operation, id: NotificationID, record: Record)
    requires n in c.replicas && n in c.log && n in c.processed && c.replicas[n].nodeID == n &&
             LocalEffect(c.log, c.replicas[n], r')
    requires LocalChange(c, n, Some(r'), c')
    ensures c' == c ||
            (&& IsLocalEffect(c.log, c.replicas[n], r', op, id, record)
             && c' == c.(replicas := c.replicas[n := r'], log := c.log[n := c.log[n] + [op]],
                         processed := c.processed[n := c.processed[n] + {KeyOf(op)}]))
  {
    hide Absorbs, Honest, Stamped;
    var r := c.replicas[n];
    if r' == r {
      assert r'.envelopes.Keys - r.envelopes.Keys == {};
      assert c.replicas[n := r] == c.replicas;
      op, id, record := *, *, *;
    } else {
      op, id, record :| IsLocalEffect(c.log, r, r', op, id, record);
      assert r'.envelopes.Keys - r.envelopes.Keys == {KeyOf(op)};
      assert KeyOf(op) in {KeyOf(op)};
    }
  }

  lemma LocalChangeKeepsInv(c: Cluster, n: string, r': Replica, c': Cluster)
    requires Inv(c) && n in c.replicas && LocalEffect(c.log, c.replicas[n], r')
    requires LocalChange(c, n, Some(r'), c')
    ensures Inv(c')
  {
    hide ReplicaOK, SentOK, WellNumbered, IsLocalEffect, LocalEffect, LocalChange;
    var op, id, record := LocalChangeCases(c, n, r', c');
    if c' != c {
      LocalAppendKeepsInv(c, n, r', op, id, record, c');
    }
  }

  lemma DeliverKeepsInv(c: Cluster, n: string, ops: seq<Operation>, c': Cluster)
    requires Inv(c) && Next(c, Deliver(n, ops), c')
    ensures Inv(c')
  {
    hide ReplicaOK, SentOK, WellNumbered, ApplyFrom, Allocated;
    var r := c.replicas[n];
    if ops == [] {
      assert c.processed[n] + {} == c.processed[n];
    } else {
      assert c.processed[n] + {} == c.processed[n];
      BatchKeepsOK(c.log, r, c.processed[n], r, {}, ops[0].origin, ops);
    }
    var result := ApplyBatch(r, ops);
    NodeUpdateKeepsInv(c, n, result.replica, c.processed[n] + result.taken, c');
  }

  lemma ControlKeepsInv(c: Cluster, step: Step, c': Cluster)
    requires Inv(c) && Next(c, step, c') && (step.AddChannel? || step.AddWebhook? || step.WriteUnlogged?)
    ensures Inv(c')
  {
    hide ReplicaOK, SentOK, WellNumbered, NameTaken, TokenTaken;
    var r := c.replicas[step.node];
    var r' := c'.replicas[step.node];
    SameTablesKeepOK(c.log, r, r', c.processed[step.node]);
    assert c.processed[step.node := c.processed[step.node]] == c.processed;
    NodeUpdateKeepsInv(c, step.node, r', c.processed[step.node], c');
  }

  lemma PruneKeepsInv(c: Cluster, n: string, origin: string, through: nat, c': Cluster)
    requires Inv(c) && Next(c, PruneRange(n, origin, through), c')
    ensures Inv(c')
  {
    hide ReplicaOK, SentOK, WellNumbered, Prune;
    var r := c.replicas[n];
    if Prune(r, origin, through).Some? {
      var r' := Prune(r, origin, through).value;
      PruneKeepsOK(c.log, r, c.processed[n], origin, through, r');
      assert c.processed[n := c.processed[n]] == c.processed;
      NodeUpdateKeepsInv(c, n, r', c.processed[n], c');
    }
  }

  lemma SnapshotStepsKeepInv(c: Cluster, step: Step, c': Cluster)
    requires Inv(c) && Next(c, step, c') && (step.BuildSnapshot? || step.MergeSnapshot?)
    ensures Inv(c')
  {
    hide ReplicaOK, SentOK, WellNumbered, Exports, ApplySnapshot;
    var n, r := step.node, c.replicas[step.node];
    if step.BuildSnapshot? {
      BuiltSnapshotOK(c.log, r, c.processed[n], step.snapshot);
    } else if ApplySnapshot(r, step.message.snapshot, step.now).Some? {
      var r' := ApplySnapshot(r, step.message.snapshot, step.now).value;
      MergeKeepsOK(c.log, r, c.processed[n], step.message, step.now, r');
      NodeUpdateKeepsInv(c, n, r', c.processed[n] + step.message.covers, c');
    }
  }

  lemma NodeTablesOK(c: Cluster, n: string)
    requires Inv(c) && n in c.replicas
    ensures TablesOK(c.log, c.replicas[n]) && c.replicas[n].nodeID == n && c.replicas[n].clusterID != ""
    ensures n in c.log && n in c.processed
  {
    hide SentOK, WellNumbered;
    assert ReplicaOK(c.log, c.replicas[n], c.processed[n]);
  }

  lemma ReceiveKeepsInv(c: Cluster, step: Step, c': Cluster)
    requires Inv(c) && Next(c, step, c') && step.Receive?
    ensures Inv(c')
  {
    var n, r := step.node, c.replicas[step.node];
    NodeTablesOK(c, n);
    hide Inv, LocalEffect, LocalChange, TablesOK, ReceiveWebhook;
    var result := ReceiveWebhook(r, step.webhookID, step.channelID, step.input, step.found, step.entropy, step.now);
    if result.Some? {
      ReceiveIsLocalEffect(c.log, r, step.webhookID, step.channelID, step.input, step.found, step.entropy, step.now,
                           result.value);
      LocalChangeKeepsInv(c, n, result.value, c');
    } else {
      assert c' == c by { NoLocalChange(c, n, result, c'); }
    }
  }

  lemma SetStateKeepsInv(c: Cluster, step: Step, c': Cluster)
    requires Inv(c) && Next(c, step, c') && step.SetState?
    ensures Inv(c')
  {
    var n, r := step.node, c.replicas[step.node];
    NodeTablesOK(c, n);
    hide Inv, LocalEffect, LocalChange, TablesOK, ChangeState;
    var result := ChangeState(r, step.id, step.state, step.actorID, step.authorised, step.size, step.now);
    if result.Some? {
      ChangeIsLocalEffect(c.log, r, step.id, step.state, step.actorID, step.authorised, step.size, step.now,
                          result.value);
      LocalChangeKeepsInv(c, n, result.value, c');
    } else {
      assert c' == c by { NoLocalChange(c, n, result, c'); }
    }
  }

  lemma NoLocalChange(c: Cluster, n: string, result: Option<Replica>, c': Cluster)
    requires n in c.replicas && n in c.log && n in c.processed && result.None? && LocalChange(c, n, result, c')
    ensures c' == c
  {
  }

  lemma NextKeepsInv(c: Cluster, step: Step, c': Cluster)
    requires Inv(c) && Next(c, step, c')
    ensures Inv(c')
  {
    hide Inv, Next;
    match step
    case AddChannel(_, _, _) => ControlKeepsInv(c, step, c');
    case AddWebhook(_, _, _, _) => ControlKeepsInv(c, step, c');
    case Receive(_, _, _, _, _, _, _) => ReceiveKeepsInv(c, step, c');
    case SetState(_, _, _, _, _, _, _) => SetStateKeepsInv(c, step, c');
    case Deliver(n, ops) => DeliverKeepsInv(c, n, ops, c');
    case PruneRange(n, origin, through) => PruneKeepsInv(c, n, origin, through, c');
    case BuildSnapshot(_, _) => SnapshotStepsKeepInv(c, step, c');
    case MergeSnapshot(_, _, _) => SnapshotStepsKeepInv(c, step, c');
    case WriteUnlogged(_, _, _) => ControlKeepsInv(c, step, c');
  }

  lemma {:induction false} RunKeepsInv(run: Run, i: nat)
    requires ValidRun(run) && i < |run.states|
    ensures Inv(run.states[i])
  {
    hide Inv, Next, Init;
    if i == 0 {
      InitHolds(run.states[0]);
    } else {
      RunKeepsInv(run, i - 1);
      assert Next(run.states[i - 1], run.steps[i - 1], run.states[i - 1 + 1]);
      NextKeepsInv(run.states[i - 1], run.steps[i - 1], run.states[i]);
    }
  }

  /* ---------- Main results, over every run ---------- */

  /** At every point of every run, what a node has processed of each origin is
      exactly 1..its advertised mark, and the mark is at most what the origin
      allocated. */
  lemma ProcessedIsGapFree(run: Run, i: nat, node: string, origin: string)
    requires ValidRun(run) && i < |run.states| && node in run.states[i].replicas
    ensures var c := run.states[i];
            && node in c.processed
            && (forall s: nat :: OpKey(origin, s) in c.processed[node] <==>
                1 <= s <= HighWater(c.replicas[node], origin))
            && HighWater(c.replicas[node], origin) <= (if origin in c.log then |c.log[origin]| else 0)
            && (node == origin ==> origin in c.log && HighWater(c.replicas[node], origin) == |c.log[origin]|)
  {
    RunKeepsInv(run, i);
    hide ReplicaOK, SentOK, WellNumbered, ValidRun, HighWater;
    var c := run.states[i];
    ReplicaIsGapFree(c.log, c.replicas[node], c.processed[node], origin);
  }

  lemma ReplicaIsGapFree(log: Log, r: Replica, processed: set<OpKey>, origin: string)
    requires ReplicaOK(log, r, processed)
    ensures forall s: nat :: OpKey(origin, s) in processed <==> 1 <= s <= HighWater(r, origin)
    ensures HighWater(r, origin) <= (if origin in log then |log[origin]| else 0)
    ensures r.nodeID == origin ==> origin in log && HighWater(r, origin) == |log[origin]|
  {
    MarkIsHighWater(log, r, origin);
    hide HighWater;
    forall s: nat
      ensures OpKey(origin, s) in processed <==> 1 <= s <= HighWater(r, origin)
    {
      assert Known(log, OpKey(origin, s)) <==> origin in log && 1 <= s <= |log[origin]|;
    }
  }

  /** Retained envelopes with one origin and sequence are the same operation on
      all nodes, namely the one the origin allocated. */
  lemma EnvelopesAgree(run: Run, i: nat, a: string, b: string, k: OpKey)
    requires ValidRun(run) && i < |run.states|
    requires a in run.states[i].replicas && k in run.states[i].replicas[a].envelopes
    requires b in run.states[i].replicas && k in run.states[i].replicas[b].envelopes
    ensures run.states[i].replicas[a].envelopes[k] == run.states[i].replicas[b].envelopes[k]
    ensures Allocated(run.states[i].log, run.states[i].replicas[a].envelopes[k])
    ensures KeyOf(run.states[i].replicas[a].envelopes[k]) == k
  {
    RunKeepsInv(run, i);
    var c := run.states[i];
    assert Known(c.log, k);
  }

  lemma SameProcessed(run: Run, i: nat, a: string, b: string)
    requires ValidRun(run) && i < |run.states| && a in run.states[i].replicas && b in run.states[i].replicas
    requires forall o :: HighWater(run.states[i].replicas[a], o) == HighWater(run.states[i].replicas[b], o)
    ensures a in run.states[i].processed && b in run.states[i].processed
    ensures run.states[i].processed[a] == run.states[i].processed[b]
  {
    var c := run.states[i];
    ProcessedIsGapFree(run, i, a, "");
    ProcessedIsGapFree(run, i, b, "");
    forall k: OpKey
      ensures k in c.processed[a] <==> k in c.processed[b]
    {
      ProcessedIsGapFree(run, i, a, k.origin);
      ProcessedIsGapFree(run, i, b, k.origin);
      assert k == OpKey(k.origin, k.sequence);
    }
  }

  /* ---------- Continuing a run ---------- */

  ghost predicate Reaches(run: Run, c: Cluster)
  {
    ValidRun(run) && run.states[|run.steps|] == c
  }

  lemma Extend(run: Run, c: Cluster, step: Step, c': Cluster) returns (run': Run)
    requires Reaches(run, c) && Next(c, step, c')
    ensures Reaches(run', c')
    ensures run'.states == run.states + [c'] && run'.steps == run.steps + [step]
  {
    hide Next, Init;
    run' := Run(run.states + [c'], run.steps + [step]);
    forall i | 0 <= i < |run'.steps|
      ensures Next(run'.states[i], run'.steps[i], run'.states[i + 1])
    {
      if i < |run.steps| {
        assert Next(run.states[i], run.steps[i], run.states[i + 1]);
      }
    }
  }
}
