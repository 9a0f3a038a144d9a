/** What received operations and snapshots do to a node's tables, field by field, exactly
    when they are accepted, and that a card arrives as it was stored at its origin. */
module DeliveryLaws {
  import opened Basics
  import opened Ordering
  import opened NotificationRecord
  import opened ReplicaState
  import opened ReplicaLaws
  import opened ReplicationCluster

  /* ---------- The visible effect of an operation ---------- */

  predicate NamesCard(op: Operation) { op.payload.body.Some? && !op.payload.body.value.notificationID.NoID? }

  /** Every document field in its own column. */
  function DocumentedContent(op: Operation): Content
    requires NamesCard(op)
  {
    var b := op.payload.body.value;
    Content(op.channelID, b.text, b.username, b.iconURL, b.attachments, b.rawPayload, b.card)
  }

  function DocumentedCard(op: Operation): Record
    requires NamesCard(op)
  {
    var b := op.payload.body.value;
    Record(op.actorID, b.externalKey, DocumentedContent(op), b.createdAt, b.updatedAt, b.state)
  }

  /** No other channel has the name, and no other webhook the token. */
  predicate NamesAreFree(r: Replica, op: Operation)
    requires NamesCard(op)
  {
    && op.payload.body.value.channelName != ""
    && (op.channelID in r.channels || forall c :: c in r.channels ==>
        r.channels[c] != op.payload.body.value.channelName)
    && (op.actorID in r.webhooks || forall w :: w in r.webhooks ==> r.webhooks[w].token != op.actorID)
  }

  /** A new card whose key is free, or a keyed card that is here under the same key. */
  ghost predicate CardIsFree(r: Replica, op: Operation)
    requires NamesCard(op)
  {
    var b := op.payload.body.value;
    var id := b.notificationID;
    if id in r.notifications then
      && b.externalKey != "" && id == KeyedID(op.actorID, b.externalKey)
      && r.notifications[id].webhookID == op.actorID && r.notifications[id].externalKey == b.externalKey
    else
      b.externalKey == "" || forall other :: other in r.notifications ==>
        !(r.notifications[other].webhookID == op.actorID && r.notifications[other].externalKey == b.externalKey)
  }

  /** A create adds channel and webhook if needed and stores the card, or merges it. */
  ghost predicate Creates(r: Replica, op: Operation, s: Replica)
    requires NamesCard(op)
  {
    var b := op.payload.body.value;
    && s == r.(channels := s.channels, webhooks := s.webhooks, notifications := s.notifications)
    && s.channels == (if op.channelID in r.channels then r.channels else r.channels[op.channelID := b.channelName])
    && s.webhooks ==
         (if op.actorID in r.webhooks then r.webhooks else r.webhooks[op.actorID := Webhook(op.actorID, op.channelID)])
    && b.notificationID in s.notifications
    && s.notifications == r.notifications[b.notificationID := s.notifications[b.notificationID]]
    && (if b.notificationID in r.notifications
        then IsMerge(r.notifications[b.notificationID], DocumentedCard(op), s.notifications[b.notificationID])
        else s.notifications[b.notificationID] == DocumentedCard(op))
  }

  lemma CreateLaw(r: Replica, op: Operation)
    requires op.kind.Created? && NamesCard(op)
    ensures Effect(r, op).Effected? <==> NamesAreFree(r, op) && CardIsFree(r, op)
    ensures Effect(r, op).Effected? ==> Creates(r, op, Effect(r, op).next)
  {
    var prepared := Prepared(r, op);
    StoreLaw(prepared, op);
    EffectPrepares(r, op);
    FreeIgnoresNames(r, prepared, op);
    hide StoreCreated, CardIsFree, IsMerge, NamesAreFree, Effect, DocumentedCard;
  }

  /** The tables once channel and webhook are there. */
  function Prepared(r: Replica, op: Operation): Replica
    requires NamesCard(op)
  {
    r.(channels := if op.channelID in r.channels then r.channels
         else r.channels[op.channelID := op.payload.body.value.channelName],
       webhooks := if op.actorID in r.webhooks then r.webhooks
         else r.webhooks[op.actorID := Webhook(op.actorID, op.channelID)])
  }

  lemma EffectPrepares(r: Replica, op: Operation)
    requires op.kind.Created? && NamesCard(op)
    ensures NamesAreFree(r, op) ==> Effect(r, op) == StoreCreated(Prepared(r, op), op, op.payload.body.value)
    ensures !NamesAreFree(r, op) ==> Effect(r, op).Rejected?
  {
    hide StoreCreated;
    assert WithWebhook(WithChannel(r, op, op.payload.body.value), op) == Prepared(r, op);
  }

  lemma FreeIgnoresNames(r: Replica, s: Replica, op: Operation)
    requires NamesCard(op) && r.notifications == s.notifications
    ensures CardIsFree(r, op) <==> CardIsFree(s, op)
  {
  }

  lemma StoreLaw(r: Replica, op: Operation)
    requires NamesCard(op)
    ensures var b := op.payload.body.value;
            var result := StoreCreated(r, op, b);
            && (op.channelID in r.channels && op.actorID in r.webhooks ==> (result.Effected? <==> CardIsFree(r, op)))
            && (result.Effected? ==>
                && result.next == r.(notifications := result.next.notifications)
                && b.notificationID in result.next.notifications
                && result.next.notifications ==
                     r.notifications[b.notificationID := result.next.notifications[b.notificationID]]
                && (if b.notificationID in r.notifications
                    then IsMerge(r.notifications[b.notificationID], DocumentedCard(op),
                                 result.next.notifications[b.notificationID])
                    else result.next.notifications[b.notificationID] == DocumentedCard(op)))
  {
    var b := op.payload.body.value;
    if b.notificationID in r.notifications {
      JoinIsMerge(r.notifications[b.notificationID], DocumentedCard(op));
    }
    hide Join, IsMerge;
  }

  /** An update needs the card and its channel; it overwrites content, state and time. */
  lemma UpdateLaw(r: Replica, op: Operation)
    requires op.kind.Updated? && NamesCard(op)
    ensures var b := op.payload.body.value;
            && (Effect(r, op).Effected? <==> b.notificationID in r.notifications && op.channelID in r.channels)
            && (Effect(r, op).Effected? ==>
                var prior := r.notifications[b.notificationID];
                Effect(r, op).next == r.(notifications := r.notifications[b.notificationID :=
                  Record(prior.webhookID, prior.externalKey, DocumentedContent(op), prior.createdAt, b.updatedAt,
                         b.state)]))
  {
  }

  /** A state change needs the card; a higher state is taken over with the later of both
      times, and the content stays. */
  lemma StateChangeLaw(r: Replica, op: Operation)
    requires op.kind.StateChanged? && NamesCard(op)
    ensures var b := op.payload.body.value;
            && (Effect(r, op).Effected? <==> b.notificationID in r.notifications)
            && (Effect(r, op).Effected? ==>
                var prior := r.notifications[b.notificationID];
                Effect(r, op).next ==
                if StateRank(b.state) <= StateRank(prior.state) then r
                else r.(notifications := r.notifications[b.notificationID :=
                  Record(prior.webhookID, prior.externalKey, prior.content, prior.createdAt,
                         if b.updatedAt > prior.updatedAt then b.updatedAt else prior.updatedAt, b.state)]))
  {
    hide StateRank;
  }

  /** Operations of other kinds, or without a card, have no effect. */
  lemma NoEffectLaw(r: Replica, op: Operation)
    requires op.kind.OtherKind? || !NamesCard(op)
    ensures Effect(r, op) == Rejected(r)
  {
  }

  /** Whether an operation has an effect, and which, for every kind. */
  ghost predicate HasEffect(r: Replica, op: Operation, ok: bool, s: Replica)
  {
    if !NamesCard(op) || op.kind.OtherKind? then !ok && s == r
    else
      var b := op.payload.body.value;
      var id := b.notificationID;
      match op.kind
      case Created => (ok <==> NamesAreFree(r, op) && CardIsFree(r, op)) && (ok ==> Creates(r, op, s))
      case Updated =>
        && (ok <==> id in r.notifications && op.channelID in r.channels)
        && (ok ==> var prior := r.notifications[id];
            s == r.(notifications := r.notifications[id :=
              Record(prior.webhookID, prior.externalKey, DocumentedContent(op), prior.createdAt, b.updatedAt,
                     b.state)]))
      case StateChanged =>
        && (ok <==> id in r.notifications)
        && (ok ==> var prior := r.notifications[id];
            s == if StateRank(b.state) <= StateRank(prior.state) then r
                 else r.(notifications := r.notifications[id :=
                   Record(prior.webhookID, prior.externalKey, prior.content, prior.createdAt,
                          if b.updatedAt > prior.updatedAt then b.updatedAt else prior.updatedAt, b.state)]))
      case OtherKind(_) => true
  }

  lemma EffectLaw(r: Replica, op: Operation)
    ensures match Effect(r, op)
            case Effected(s) => HasEffect(r, op, true, s)
            case Rejected(s) => HasEffect(r, op, false, s)
  {
    hide Effect, NamesAreFree, CardIsFree, Creates, StateRank;
    if !NamesCard(op) || op.kind.OtherKind? {
      NoEffectLaw(r, op);
    } else if op.kind.Created? {
      CreateLaw(r, op);
    } else if op.kind.Updated? {
      UpdateLaw(r, op);
    } else {
      StateChangeLaw(r, op);
    }
  }

  /* ---------- A card arrives as it was stored ---------- */

  /** A delivery stored at one node, its operation applied at another: a node without the
      card then has exactly the stored record; after a rewrite a node with the card has the
      stored content, state and update time, and keeps creation time and identity. */
  lemma DeliveryIsReproduced(r: Replica, webhookID: string, channelID: string, input: Incoming,
                             found: Option<NotificationID>, entropy: nat, now: int, r': Replica, s: Replica,
                               s': Replica)
    requires r.clusterID != "" && Lookup(r, webhookID, input.externalKey, found)
    requires ReceiveWebhook(r, webhookID, channelID, input, found, entropy, now) == Some(r')
    requires OpKey(r.nodeID, HighWater(r, r.nodeID) + 1) in r'.envelopes ==>
               Effect(s, r'.envelopes[OpKey(r.nodeID, HighWater(r, r.nodeID) + 1)]) == Effected(s')
    ensures var id := DeliveryID(webhookID, input, found, entropy);
            && OpKey(r.nodeID, HighWater(r, r.nodeID) + 1) in r'.envelopes && id in r'.notifications
            && (found.None? && id !in s.notifications && !id.NoID? ==>
                id in s'.notifications && s'.notifications[id] == r'.notifications[id])
            && (found.Some? && !id.NoID? ==>
                && id in s.notifications && id in s'.notifications
                && var there, card := s'.notifications[id], r'.notifications[id];
                && there.content == card.content && there.state == card.state && there.updatedAt == card.updatedAt
                && there.createdAt == s.notifications[id].createdAt && SameIdentity(there, s.notifications[id]))
  {
    DeliveryLaw(r, webhookID, channelID, input, found, entropy, now, r');
    var id := DeliveryID(webhookID, input, found, entropy);
    var card := r'.notifications[id];
    DeliveredOperation(r, webhookID, channelID, input, found, entropy, now, r');
    var op := r'.envelopes[OpKey(r.nodeID, HighWater(r, r.nodeID) + 1)];
    hide HighWater, Effect, ReceiveWebhook, StoresDelivery;
    if !id.NoID? {
      if found.Some? {
        UpdateLaw(s, op);
      } else {
        CreateLaw(s, op);
      }
    }
  }

  /** The operation a delivery appends documents the stored card. */
  lemma DeliveredOperation(r: Replica, webhookID: string, channelID: string, input: Incoming,
                           found: Option<NotificationID>, entropy: nat, now: int, r': Replica)
    requires r.clusterID != "" && StoresDelivery(r, webhookID, channelID, input, found, entropy, now, r')
    ensures var id := DeliveryID(webhookID, input, found, entropy);
            var k := OpKey(r.nodeID, HighWater(r, r.nodeID) + 1);
            && k in r'.envelopes && id in r'.notifications
            && var op, card := r'.envelopes[k], r'.notifications[id];
            && op.kind == (if found.Some? then Updated else Created)
            && op.actorID == webhookID && op.channelID == card.content.channelID
            && op.payload.body.Some? && op.payload.body.value.notificationID == id
            && (!id.NoID? ==> DocumentedContent(op) == card.content)
            && op.payload.body.value.state == card.state && op.payload.body.value.updatedAt == card.updatedAt
            && (found.None? ==>
                && op.payload.body.value.createdAt == card.createdAt
                && card.webhookID == webhookID && op.payload.body.value.externalKey == card.externalKey)
  {
    var id := DeliveryID(webhookID, input, found, entropy);
    MarkIgnoresNotifications(r, r.notifications[id := r'.notifications[id]], r.nodeID);
    hide HighWater, StampFollows, Rewrites;
  }

  /* ---------- One operation of a batch ---------- */

  /** The next expected operation: stored as it is, with its effect and the cursor, or set
      aside exactly if its version, cluster, document or effect is unacceptable. */
  ghost predicate TakesNext(r: Replica, op: Operation, stored: bool, s: Replica)
  {
    var k := OpKey(op.origin, op.sequence);
    var sound := op.version == 1 && op.clusterID == r.clusterID && op.payload.size <= 1048576 && op.payload.validJSON;
    if stored then
      && sound && s.quarantine == r.quarantine
      && HasEffect(r, op, true, s.(envelopes := r.envelopes, cursors := r.cursors))
      && s.envelopes == r.envelopes[k := op] && s.cursors == r.cursors[op.origin := op.sequence]
    else
      && (sound ==> exists partial :: HasEffect(r, op, false, partial))
      && k in s.quarantine && (k !in r.quarantine ==> s.quarantine == r.quarantine[k := op])
      && s.notifications == r.notifications && s.envelopes == r.envelopes && s.cursors == r.cursors
  }

  lemma EffectTouchesNoLog(r: Replica, op: Operation, s: Replica)
    requires HasEffect(r, op, true, s)
    ensures s.envelopes == r.envelopes && s.cursors == r.cursors && s.quarantine == r.quarantine
  {
    hide NamesAreFree, CardIsFree, IsMerge;
  }

  lemma StoredOperationLaw(r: Replica, op: Operation, next: Replica)
    requires ApplyOne(r, op.origin, op) == Advanced(next)
    ensures TakesNext(r, op, true, next)
  {
    AdvanceShape(r, op.origin, op, next);
    EffectLaw(r, op);
    hide Effect, HasEffect, SameOperation, StorableEnvelope;
    var effected := Effect(r, op).next;
    EffectTouchesNoLog(r, op, effected);
    assert next.(envelopes := r.envelopes, cursors := r.cursors) == effected;
  }

  lemma SetAsideOperationLaw(r: Replica, op: Operation, next: Replica)
    requires op.sequence == CursorRow(r, op.origin) + 1 && ApplyOne(r, op.origin, op) == Isolated(next)
    ensures TakesNext(r, op, false, next)
  {
    IsolationKeepsTables(r, op.origin, op, next);
    EffectLaw(r, op);
    RefusalKeepsQuarantine(r, op);
    hide Effect, HasEffect, SameOperation, StorableEnvelope;
  }

  lemma RefusalKeepsQuarantine(r: Replica, op: Operation)
    ensures Effect(r, op).Rejected? ==> Effect(r, op).partial.quarantine == r.quarantine
  {
    hide NameTaken, TokenTaken, InsertableNotification, Join, StateRank;
  }

  /** What becomes of the next expected operation; an error only if its envelope cannot be
      stored. */
  lemma NextOperationLaw(r: Replica, op: Operation)
    requires op.sequence == CursorRow(r, op.origin) + 1
    ensures match ApplyOne(r, op.origin, op)
            case Advanced(next) => TakesNext(r, op, true, next)
            case Isolated(next) => TakesNext(r, op, false, next)
            case Refused => op.physicalMS <= 0 || OpKey(op.origin, op.sequence) in r.envelopes
            case _ => false
  {
    match ApplyOne(r, op.origin, op)
    case Advanced(next) => StoredOperationLaw(r, op, next);
    case Isolated(next) => SetAsideOperationLaw(r, op, next);
    case Refused => RefusedOperationLaw(r, op);
    case Repeated =>
    case OutOfOrder =>
  }

  lemma RefusedOperationLaw(r: Replica, op: Operation)
    requires op.sequence == CursorRow(r, op.origin) + 1 && ApplyOne(r, op.origin, op) == Refused
    ensures op.physicalMS <= 0 || OpKey(op.origin, op.sequence) in r.envelopes
  {
    EffectLaw(r, op);
    hide Effect, HasEffect, SameOperation;
    EffectTouchesNoLog(r, op, Effect(r, op).next);
  }

  /** Any other operation: skipped if it repeats what is retained, a gap if it is ahead, and
      otherwise an error. */
  lemma OtherOperationLaw(r: Replica, origin: string, op: Operation)
    requires op.origin != origin || op.sequence != CursorRow(r, origin) + 1
    ensures ApplyOne(r, origin, op) ==
            if op.origin != origin || op.sequence == 0 then Refused
            else if op.sequence > CursorRow(r, origin) then OutOfOrder
            else if OpKey(op.origin, op.sequence) in r.envelopes &&
                    var kept := r.envelopes[OpKey(op.origin, op.sequence)];
                    kept.clusterID == op.clusterID && kept.kind == op.kind && kept.payload == op.payload
            then Repeated
            else Refused
  {
    hide Effect;
  }

  /** Already applied and retained as the same operation. */
  predicate IsRepeat(r: Replica, op: Operation)
  {
    && OpKey(op.origin, op.sequence) in r.envelopes
    && var kept := r.envelopes[OpKey(op.origin, op.sequence)];
       kept.clusterID == op.clusterID && kept.kind == op.kind && kept.payload == op.payload
  }

  /** A batch, operation by operation: repeats are skipped, expected ones stored, a gap or an
      error takes everything back, and a quarantine keeps what was stored before it. */
  ghost predicate TakesBatch(start: Replica, r: Replica, origin: string, ops: seq<Operation>, outcome: Outcome,
                             s: Replica)
    decreases |ops|
  {
    if ops == [] then outcome == Committed && s == r
    else
      var op, cursor := ops[0], CursorRow(r, origin);
      if op.origin != origin || op.sequence == 0 || (op.sequence <= cursor && !IsRepeat(r, op)) then
        outcome == Failed && s == start
      else if op.sequence <= cursor then TakesBatch(start, r, origin, ops[1..], outcome, s)
      else if op.sequence > cursor + 1 then outcome == Gap && s == start
      else
        || (outcome == Quarantined && TakesNext(r, op, false, s))
        || (exists mid :: TakesNext(r, op, true, mid) && TakesBatch(start, mid, origin, ops[1..], outcome, s))
        || (outcome == Failed && s == start && (op.physicalMS <= 0 || OpKey(op.origin, op.sequence) in r.envelopes))
  }

  lemma {:induction false} BatchLaw(start: Replica, r: Replica, taken: set<OpKey>, origin: string, ops: seq<Operation>)
    ensures var result := ApplyFrom(start, r, taken, origin, ops);
            TakesBatch(start, r, origin, ops, result.outcome, result.replica)
    decreases |ops|
  {
    hide ApplyOne, TakesNext;
    if ops != [] {
      var op := ops[0];
      if op.origin != origin || op.sequence != CursorRow(r, origin) + 1 {
        OtherOperationLaw(r, origin, op);
        BatchLaw(start, r, taken, origin, ops[1..]);
      } else {
        NextOperationLaw(r, op);
        match ApplyOne(r, origin, op)
        case Advanced(next) => BatchLaw(start, next, taken + {KeyOf(op)}, origin, ops[1..]);
        case Isolated(next) =>
        case _ =>
      }
    }
  }

  lemma WholeBatchLaw(r: Replica, ops: seq<Operation>)
    ensures ops != [] ==>
              TakesBatch(r, r, ops[0].origin, ops, ApplyBatch(r, ops).outcome, ApplyBatch(r, ops).replica)
    ensures ops == [] ==> ApplyBatch(r, ops).replica == r && ApplyBatch(r, ops).outcome == Committed
  {
    if ops != [] {
      BatchLaw(r, r, {}, ops[0].origin, ops);
    }
  }

  /* ---------- Snapshots ---------- */

  /** The snapshot's envelope: versions, cluster, source, digest, date and cursors. */
  predicate SnapshotIsSound(r: Replica, snapshot: Snapshot, now: int)
  {
    var body := snapshot.body;
    && body.version == 1 && body.protocolVersion == 1 && body.clusterID == r.clusterID && IsIdentity(body.source)
    && snapshot.digest == Some(body) && body.createdAt <= now + 120000
    && forall o :: o in body.cursors ==> IsIdentity(o) && body.cursors[o] > 0
  }

  lemma AcceptableLaw(r: Replica, snapshot: Snapshot, now: int)
    ensures AcceptableSnapshot(r, snapshot, now) <==> SnapshotIsSound(r, snapshot, now)
  {
    hide ValidIdentity, IsIdentity;
    IdentityLaw(snapshot.body.source);
    forall o | o in snapshot.body.cursors ensures ValidIdentity(o) <==> IsIdentity(o) {
      IdentityLaw(o);
    }
  }

  /** A row's own fields. */
  predicate RowIsSound(row: Row)
  {
    && !row.id.NoID? && row.record.content.channelID != "" && row.record.webhookID != ""
    && row.record.createdAt > 0 && row.record.createdAt <= row.record.updatedAt
    && row.record.state in {Received, Firing, Acknowledged, Resolved} && row.validJSON
  }

  lemma RowLaw(row: Row)
    ensures ValidRow(row) <==> RowIsSound(row)
  {
  }

  /** A row fits the tables: a known card of the same identity, or a new one whose channel,
      webhook and key allow it. */
  ghost predicate RowFits(r: Replica, row: Row)
  {
    if row.id in r.notifications then
      && r.notifications[row.id].webhookID == row.record.webhookID
      && r.notifications[row.id].externalKey == row.record.externalKey
      && row.record.content.channelID in r.channels
    else
      && row.record.content.channelID in r.channels && row.record.webhookID in r.webhooks
      && (row.record.externalKey == "" || forall other :: other in r.notifications ==>
          !(r.notifications[other].webhookID == row.record.webhookID &&
            r.notifications[other].externalKey == row.record.externalKey))
  }

  lemma FittingRowIsMerged(r: Replica, row: Row)
    requires RowFits(r, row)
    ensures MergeRow(r, row).Some?
  {
  }

  /** Two rows do not claim one external key. */
  ghost predicate KeysApart(rows: seq<Row>)
  {
    forall i, j :: 0 <= i < j < |rows| && rows[i].record.externalKey != "" ==>
      !(rows[i].record.webhookID == rows[j].record.webhookID &&
        rows[i].record.externalKey == rows[j].record.externalKey)
  }

  ghost predicate IdsApart(rows: seq<Row>)
  {
    forall i, j :: 0 <= i < j < |rows| ==> rows[i].id != rows[j].id
  }

  /** What one merged row does: the card is joined or taken over, nothing else changes. */
  lemma MergedRowLaw(r: Replica, row: Row, r': Replica)
    requires MergeRow(r, row) == Some(r')
    ensures row.id in r'.notifications
    ensures r' == r.(notifications := r.notifications[row.id := r'.notifications[row.id]])
    ensures if row.id in r.notifications then IsMerge(r.notifications[row.id], row.record, r'.notifications[row.id])
            else r'.notifications[row.id] == row.record
    ensures r'.notifications[row.id].webhookID == row.record.webhookID
    ensures r'.notifications[row.id].externalKey == row.record.externalKey
  {
    if row.id in r.notifications {
      JoinIsMerge(r.notifications[row.id], row.record);
    }
    hide IsMerge;
  }

  lemma FitsAfterAnotherRow(r: Replica, row: Row, r': Replica, later: Row)
    requires RowFits(r, later) && MergeRow(r, row) == Some(r') && row.id != later.id
    requires later.record.externalKey != "" ==>
               !(row.record.webhookID == later.record.webhookID && row.record.externalKey == later.record.externalKey)
    ensures RowFits(r', later)
  {
    MergedRowLaw(r, row, r');
    hide MergeRow, IsMerge;
  }

  lemma {:induction false} RowsStillFit(r: Replica, rows: seq<Row>, merged: Replica, later: Row)
    requires MergeRows(r, rows) == Some(merged) && RowFits(r, later)
    requires forall i :: 0 <= i < |rows| ==>
               && rows[i].id != later.id
               && (later.record.externalKey != "" ==>
                   !(rows[i].record.webhookID == later.record.webhookID &&
                     rows[i].record.externalKey == later.record.externalKey))
    ensures RowFits(merged, later)
    decreases |rows|
  {
    hide MergeRow, RowFits;
    if rows != [] {
      var n := |rows| - 1;
      var mid := MergeRows(r, rows[..n]).value;
      RowsStillFit(r, rows[..n], mid, later);
      FitsAfterAnotherRow(mid, rows[n], merged, later);
    }
  }

  /** Rows that are sound, distinct and fit the tables are all merged. */
  lemma {:induction false} FittingRowsAreMerged(r: Replica, rows: seq<Row>)
    requires forall i :: 0 <= i < |rows| ==> RowIsSound(rows[i]) && RowFits(r, rows[i])
    requires IdsApart(rows) && KeysApart(rows)
    ensures MergeRows(r, rows).Some?
    decreases |rows|
  {
    hide MergeRow, RowFits, RowIsSound, ValidRow;
    if rows != [] {
      var n := |rows| - 1;
      FittingRowsAreMerged(r, rows[..n]);
      var mid := MergeRows(r, rows[..n]).value;
      RowsStillFit(r, rows[..n], mid, rows[n]);
      FittingRowIsMerged(mid, rows[n]);
      RowLaw(rows[n]);
    }
  }

  /** A sound snapshot whose rows fit is accepted. */
  lemma FittingSnapshotIsAccepted(r: Replica, snapshot: Snapshot, now: int)
    requires SnapshotIsSound(r, snapshot, now)
    requires var rows := snapshot.body.rows;
             && IdsApart(rows) && KeysApart(rows)
             && forall i :: 0 <= i < |rows| ==> RowIsSound(rows[i]) && RowFits(r, rows[i])
    ensures ApplySnapshot(r, snapshot, now).Some?
  {
    hide MergeRows, AcceptableSnapshot, SnapshotIsSound, RowFits, RowIsSound;
    AcceptableLaw(r, snapshot, now);
    FittingRowsAreMerged(r, snapshot.body.rows);
  }

  /** Rows of a snapshot in a card's terms. */
  ghost predicate TakesOver(r: Replica, row: Row, r': Replica)
  {
    && row.id in r'.notifications
    && (if row.id in r.notifications then IsMerge(r.notifications[row.id], row.record, r'.notifications[row.id])
        else r'.notifications[row.id] == row.record)
  }

  /** A cursor after a snapshot: its own value, or the snapshot's if that is greater. */
  function Raised(cursor: nat, cursors: map<string, nat>, o: string): nat
  {
    if o in cursors && cursors[o] > cursor then cursors[o] else cursor
  }

  /** An accepted snapshot, field by field. */
  ghost predicate MergesSnapshot(r: Replica, snapshot: Snapshot, now: int, s: Replica)
  {
    && SnapshotIsSound(r, snapshot, now)
    && s == r.(notifications := s.notifications, cursors := s.cursors)
    && (forall i :: 0 <= i < |snapshot.body.rows| ==>
        RowIsSound(snapshot.body.rows[i]) && TakesOver(r, snapshot.body.rows[i], s))
    && IdsApart(snapshot.body.rows)
    && (forall id :: id in s.notifications ==> id in r.notifications || SeenBefore(snapshot.body.rows, id))
    && (forall id :: id in r.notifications && !SeenBefore(snapshot.body.rows, id) ==>
        id in s.notifications && s.notifications[id] == r.notifications[id])
    && (forall o :: CursorRow(s, o) == Raised(CursorRow(r, o), snapshot.body.cursors, o))
  }

  lemma {:induction false} MergedRowsAreSound(r: Replica, rows: seq<Row>)
    requires MergeRows(r, rows).Some?
    ensures IdsApart(rows) && forall i :: 0 <= i < |rows| ==> RowIsSound(rows[i])
  {
    hide MergeRow, ValidRow, RowIsSound;
    if rows != [] {
      var n := |rows| - 1;
      MergedRowsAreSound(r, rows[..n]);
      RowLaw(rows[n]);
      forall i | 0 <= i < n ensures rows[i].id != rows[n].id && RowIsSound(rows[i]) {
        assert rows[..n][i] == rows[i];
      }
    }
  }

  lemma AcceptedSnapshotLaw(r: Replica, snapshot: Snapshot, now: int, s: Replica)
    requires ApplySnapshot(r, snapshot, now) == Some(s)
    ensures MergesSnapshot(r, snapshot, now, s)
  {
    MergedRowsAreSound(r, snapshot.body.rows);
    hide ApplySnapshot, MergeRows, SnapshotIsSound, TakesOver, RowIsSound, CursorRow;
    SnapshotLaw(r, snapshot, now, s);
  }

  /** An accepted snapshot was sound; every row is merged into its card field by field or
      taken over, other cards stay, and every cursor is the greater of both. */
  lemma SnapshotLaw(r: Replica, snapshot: Snapshot, now: int, r': Replica)
    requires ApplySnapshot(r, snapshot, now) == Some(r')
    ensures SnapshotIsSound(r, snapshot, now)
    ensures r' == r.(notifications := r'.notifications, cursors := r'.cursors)
    ensures forall i :: 0 <= i < |snapshot.body.rows| ==> TakesOver(r, snapshot.body.rows[i], r')
    ensures forall id :: id in r'.notifications ==> id in r.notifications || SeenBefore(snapshot.body.rows, id)
    ensures forall id :: id in r.notifications && !SeenBefore(snapshot.body.rows, id) ==>
              id in r'.notifications && r'.notifications[id] == r.notifications[id]
    ensures forall o :: CursorRow(r', o) == Raised(CursorRow(r, o), snapshot.body.cursors, o)
  {
    AcceptableLaw(r, snapshot, now);
    var rows := snapshot.body.rows;
    var merged := MergeRows(r, rows).value;
    MergeRowsResult(r, rows, merged);
    hide MergeRows, AcceptableSnapshot, SnapshotIsSound, IsMerge, Join;
    forall i | 0 <= i < |rows| ensures TakesOver(r, rows[i], r') {
      assert SeenBefore(rows, rows[i].id);
      assert MergedNote(r.notifications, map[rows[i].id := rows[i].record], rows[i].id,
                        merged.notifications[rows[i].id]);
      if rows[i].id in r.notifications {
        JoinIsMerge(r.notifications[rows[i].id], rows[i].record);
      }
    }
  }

  /** No card's update time falls below either side's, and its creation time never rises. */
  lemma SnapshotNeverAgesACard(r: Replica, snapshot: Snapshot, now: int, r': Replica)
    requires ApplySnapshot(r, snapshot, now) == Some(r')
    ensures forall id :: id in r.notifications ==>
              && id in r'.notifications && r'.notifications[id].updatedAt >= r.notifications[id].updatedAt
              && r'.notifications[id].createdAt <= r.notifications[id].createdAt
    ensures forall i :: 0 <= i < |snapshot.body.rows| ==>
              var row := snapshot.body.rows[i];
              && row.id in r'.notifications && r'.notifications[row.id].updatedAt >= row.record.updatedAt
              && r'.notifications[row.id].createdAt <= row.record.createdAt
  {
    SnapshotLaw(r, snapshot, now, r');
    hide ApplySnapshot, SnapshotIsSound, Less, ContentKey, StateRank;
    forall id | id in r.notifications
      ensures id in r'.notifications && r'.notifications[id].updatedAt >= r.notifications[id].updatedAt
      ensures r'.notifications[id].createdAt <= r.notifications[id].createdAt
    {
      if SeenBefore(snapshot.body.rows, id) {
        var i :| 0 <= i < |snapshot.body.rows| && snapshot.body.rows[i].id == id;
        assert TakesOver(r, snapshot.body.rows[i], r');
      }
    }
    forall i | 0 <= i < |snapshot.body.rows|
      ensures var row := snapshot.body.rows[i];
              && row.id in r'.notifications && r'.notifications[row.id].updatedAt >= row.record.updatedAt
              && r'.notifications[row.id].createdAt <= row.record.createdAt
    {
      assert TakesOver(r, snapshot.body.rows[i], r');
    }
  }
}
