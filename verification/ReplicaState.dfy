/** One node's replication tables and, as functions on their value, the
    transactions that change them. SHA-256 appears as an injective constructor:
    KeyedID for ids derived from a webhook and an external key, and the snapshot
    digest as the digested body itself. */
module ReplicaState {
  import opened Basics
  import opened NotificationRecord

  const PROTOCOL_VERSION := 1
  const SNAPSHOT_VERSION := 1
  const MAX_PAYLOAD_BYTES := 1048576
  const LOGICAL_RANGE := 0x1_0000_0000
  const CLOCK_TOLERANCE_MS := 120000

  datatype NotificationID =
    | NoID
    | RandomID(entropy: nat)
    | KeyedID(webhookID: string, externalKey: string)

  datatype Kind = Created | Updated | StateChanged | OtherKind(name: string)

  datatype Body = Body(notificationID: NotificationID, state: State, text: string, username: string,
                       iconURL: string, card: string, attachments: string, rawPayload: string,
                       externalKey: string, channelName: string, createdAt: int, updatedAt: int)

  /** The JSON document of an operation: its length, whether it parses, and the
      notification it decodes to, if it decodes to one. */
  datatype Payload = Payload(size: nat, validJSON: bool, body: Option<Body>)

  datatype Operation = Operation(version: int, clusterID: string, origin: string, sequence: nat,
                                 physicalMS: int, logical: nat, kind: Kind, channelID: string,
                                 actorID: string, payload: Payload, createdAt: int)

  datatype OpKey = OpKey(origin: string, sequence: nat)

  datatype Webhook = Webhook(token: string, channelID: string)

  datatype Replica = Replica(clusterID: string, nodeID: string,
                             channels: map<string, string>,
                             webhooks: map<string, Webhook>,
                             notifications: map<NotificationID, Record>,
                             envelopes: map<OpKey, Operation>,
                             cursors: map<string, nat>,
                             quarantine: map<OpKey, Operation>)

  function KeyOf(op: Operation): OpKey { OpKey(op.origin, op.sequence) }

  /* ---------- High-water marks ---------- */

  ghost function Largest(s: set<nat>): (m: nat)
    ensures forall x :: x in s ==> x <= m
    ensures s != {} ==> m in s
    ensures s == {} ==> m == 0
    decreases |s|
  {
    if s == {} then 0
    else
      var x :| x in s;
      var rest := Largest(s - {x});
      assert forall y :: y in s ==> y == x || y in s - {x};
      if rest > x then rest else x
  }

  function Retained(r: Replica, origin: string): set<nat>
  {
    set k | k in r.envelopes && k.origin == origin :: k.sequence
  }

  function CursorRow(r: Replica, origin: string): nat
  {
    if origin in r.cursors then r.cursors[origin] else 0
  }

  /** The largest sequence of an origin among retained envelopes and cursor rows:
      what status, snapshots and the pull loop report. */
  ghost function HighWater(r: Replica, origin: string): (high: nat)
    ensures high >= CursorRow(r, origin)
    ensures forall k :: k in r.envelopes && k.origin == origin ==> k.sequence <= high
    ensures high == CursorRow(r, origin) || OpKey(origin, high) in r.envelopes
  {
    var retained := Largest(Retained(r, origin));
    assert forall k :: k in r.envelopes && k.origin == origin ==> k.sequence in Retained(r, origin);
    if retained > CursorRow(r, origin) then retained else CursorRow(r, origin)
  }

  ghost predicate Reports(r: Replica, origin: string)
  {
    origin in r.cursors || exists k :: k in r.envelopes && k.origin == origin
  }

  /* ---------- Appending local operations ---------- */

  datatype Clock = Clock(sequence: nat, physicalMS: int, logical: nat)

  /** The newest own row: an envelope, or a cursor row standing for (0, 0). */
  ghost function PreviousClock(r: Replica): Clock
  {
    var high := HighWater(r, r.nodeID);
    var key := OpKey(r.nodeID, high);
    if key in r.envelopes && (r.envelopes[key].physicalMS > 0 || high > CursorRow(r, r.nodeID)) then
      Clock(high, r.envelopes[key].physicalMS, r.envelopes[key].logical)
    else
      Clock(high, 0, 0)
  }

  /** Hybrid clock: never behind the previous stamp; uint32 logical part wraps. */
  function NextClock(previous: Clock, now: int): Clock
  {
    if previous.physicalMS >= now then
      Clock(previous.sequence + 1, previous.physicalMS, (previous.logical + 1) % LOGICAL_RANGE)
    else
      Clock(previous.sequence + 1, now, 0)
  }

  ghost function NextOwnOperation(r: Replica, kind: Kind, channelID: string, actorID: string, payload: Payload,
                                  now: int): Operation
  {
    var clock := NextClock(PreviousClock(r), now);
    Operation(PROTOCOL_VERSION, r.clusterID, r.nodeID, clock.sequence, clock.physicalMS, clock.logical,
              kind, channelID, actorID, payload, now)
  }

  /** Table constraints on an envelope row. */
  predicate StorableEnvelope(r: Replica, op: Operation)
  {
    op.sequence > 0 && op.physicalMS > 0 && op.payload.validJSON && KeyOf(op) !in r.envelopes
  }

  /** Append one local operation; None when the transaction fails. */
  ghost function Append(r: Replica, kind: Kind, channelID: string, actorID: string, payload: Payload,
                        now: int): Option<Replica>
  {
    if r.clusterID == "" then Some(r)
    else if payload.size > MAX_PAYLOAD_BYTES then None
    else
      var op := NextOwnOperation(r, kind, channelID, actorID, payload, now);
      if StorableEnvelope(r, op) then Some(r.(envelopes := r.envelopes[KeyOf(op) := op])) else None
  }

  /* ---------- Local changes ---------- */

  datatype Incoming = Incoming(state: State, text: string, username: string, iconURL: string, attachments: string,
                               rawPayload: string, card: string, externalKey: string, encodedSize: nat)

  predicate SameExternalKey(record: Record, webhookID: string, externalKey: string)
  {
    record.webhookID == webhookID && record.externalKey == externalKey
  }

  /** Primary key, external-key index and foreign keys of the notification table. */
  predicate InsertableNotification(r: Replica, id: NotificationID, record: Record)
  {
    && id !in r.notifications
    && record.content.channelID in r.channels
    && record.webhookID in r.webhooks
    && (record.externalKey != "" ==>
          forall other :: other in r.notifications ==>
            !SameExternalKey(r.notifications[other], record.webhookID, record.externalKey))
  }

  function IncomingState(input: Incoming): State
  {
    if input.state == Unrecognised("") then Received else input.state
  }

  function IncomingContent(channelID: string, input: Incoming): Content
  {
    Content(channelID, input.text, if input.username == "" then "webhook" else input.username, input.iconURL,
            if input.attachments == "" then "[]" else input.attachments, input.rawPayload, input.card)
  }

  function CreatedBody(id: NotificationID, record: Record, channelName: string): Body
  {
    Body(id, record.state, record.content.text, record.content.username, record.content.iconURL, record.content.card,
         record.content.attachments, record.content.rawPayload, record.externalKey, channelName,
         record.createdAt, record.updatedAt)
  }

  function FreshID(webhookID: string, externalKey: string, entropy: nat): NotificationID
  {
    if externalKey != "" then KeyedID(webhookID, externalKey) else RandomID(entropy)
  }

  /** The answer of the lookup by webhook and external key. */
  predicate Lookup(r: Replica, webhookID: string, externalKey: string, found: Option<NotificationID>)
  {
    match found
    case Some(id) =>
      externalKey != "" && id in r.notifications && SameExternalKey(r.notifications[id], webhookID, externalKey)
    case None =>
      externalKey == "" || forall id :: id in r.notifications ==>
        !SameExternalKey(r.notifications[id], webhookID, externalKey)
  }

  /** A webhook delivery: insert a new card, or rewrite the card the external key names. */
  ghost function ReceiveWebhook(r: Replica, webhookID: string, channelID: string, input: Incoming,
                                found: Option<NotificationID>, entropy: nat, now: int): Option<Replica>
    requires Lookup(r, webhookID, input.externalKey, found)
  {
    if webhookID !in r.webhooks || channelID !in r.channels || StateRank(IncomingState(input)) < 0 then None
    else if found.Some? then RewriteCard(r, webhookID, channelID, input, found.value, now)
    else InsertCard(r, webhookID, channelID, input, entropy, now)
  }

  ghost function InsertCard(r: Replica, webhookID: string, channelID: string, input: Incoming, entropy: nat,
                            now: int): Option<Replica>
    requires channelID in r.channels
  {
    var id := FreshID(webhookID, input.externalKey, entropy);
    var record :=
      Record(webhookID, input.externalKey, IncomingContent(channelID, input), now, now, IncomingState(input));
    if !InsertableNotification(r, id, record) then None
    else
      var payload := Payload(input.encodedSize, true, Some(CreatedBody(id, record, r.channels[channelID])));
      Append(r.(notifications := r.notifications[id := record]), Created, channelID, webhookID, payload, now)
  }

  ghost function RewriteCard(r: Replica, webhookID: string, channelID: string, input: Incoming,
                             existing: NotificationID, now: int): Option<Replica>
    requires existing in r.notifications
  {
    var prior := r.notifications[existing];
    var reopened := prior.state == Resolved && IncomingState(input) == Firing;
    var state := if !reopened then HigherState(IncomingState(input), prior.state) else IncomingState(input);
    var at := if now <= prior.createdAt then prior.createdAt + 1 else now;
    var record := prior.(content := IncomingContent(channelID, input), state := state, updatedAt := at);
    var body := CreatedBody(existing, record, "").(externalKey := "", createdAt := 0);
    Append(r.(notifications := r.notifications[existing := record]), Updated, channelID, webhookID,
           Payload(input.encodedSize, true, Some(body)), at)
  }

  predicate ValidTransition(current: State, next: State)
  {
    ((current == Received || current == Firing) && (next == Acknowledged || next == Resolved)) ||
    (current == Acknowledged && next == Resolved)
  }

  /** A person moves a card forward; a repeat of the current state is a no-op. */
  ghost function ChangeState(r: Replica, id: NotificationID, next: State, actorID: string, authorised: bool,
                             encodedSize: nat, now: int): Option<Replica>
  {
    if (next != Acknowledged && next != Resolved) || id !in r.notifications || !authorised then None
    else
      var prior := r.notifications[id];
      if prior.state == next then Some(r)
      else if !ValidTransition(prior.state, next) then None
      else
        var at := if now <= prior.updatedAt then prior.updatedAt + 1 else now;
        var body := Body(id, next, "", "", "", "", "", "", "", "", 0, at);
        Append(r.(notifications := r.notifications[id := prior.(state := next, updatedAt := at)]), StateChanged,
               prior.content.channelID, actorID, Payload(encodedSize, true, Some(body)), at)
  }

  /* ---------- Pruning ---------- */

  predicate IdentityLetter(c: char) { 'a' <= c <= 'z' || 'A' <= c <= 'Z' || '0' <= c <= '9' }

  predicate ValidIdentity(s: string)
  {
    8 <= |s| <= 128 && IdentityLetter(s[0]) &&
    forall i :: 1 <= i < |s| ==> IdentityLetter(s[i]) || s[i] in "._-"
  }

  function RaisedCursor(r: Replica, origin: string, sequence: nat): map<string, nat>
  {
    r.cursors[origin := if CursorRow(r, origin) > sequence then CursorRow(r, origin) else sequence]
  }

  ghost function Prune(r: Replica, origin: string, through: nat): Option<Replica>
  {
    if !ValidIdentity(origin) || through == 0 || through > Largest(Retained(r, origin)) then None
    else
      Some(r.(cursors := RaisedCursor(r, origin, through),
              envelopes := map k | k in r.envelopes &&
                !(k.origin == origin && k.sequence <= through) :: r.envelopes[k]))
  }

  /* ---------- Applying received operations ---------- */

  datatype EffectResult = Effected(next: Replica) | Rejected(partial: Replica)

  /** The visible effect of one operation. A rejection keeps the rows the failed
      statement sequence had already written. */
  function Effect(r: Replica, op: Operation): EffectResult
  {
    if op.payload.body.None? || op.payload.body.value.notificationID.NoID? then Rejected(r)
    else
      var body := op.payload.body.value;
      match op.kind
      case Created => CreatedEffect(r, op, body)
      case Updated =>
        if body.notificationID !in r.notifications || op.channelID !in r.channels then Rejected(r)
        else Effected(r.(notifications := r.notifications[body.notificationID :=
               r.notifications[body.notificationID].(content := BodyContent(op, body), state := body.state,
                                                     updatedAt := body.updatedAt)]))
      case StateChanged =>
        if body.notificationID !in r.notifications then Rejected(r)
        else
          var prior := r.notifications[body.notificationID];
          if StateRank(body.state) > StateRank(prior.state) then
            Effected(r.(notifications := r.notifications[body.notificationID :=
              prior.(state := body.state,
                     updatedAt := if body.updatedAt > prior.updatedAt then body.updatedAt else prior.updatedAt)]))
          else Effected(r)
      case OtherKind(_) => Rejected(r)
  }

  function BodyContent(op: Operation, body: Body): Content
  {
    Content(op.channelID, body.text, body.username, body.iconURL, body.attachments, body.rawPayload, body.card)
  }

  function BodyRecord(op: Operation, body: Body): Record
  {
    Record(op.actorID, body.externalKey, BodyContent(op, body), body.createdAt, body.updatedAt, body.state)
  }

  predicate NameTaken(r: Replica, name: string)
  {
    exists c :: c in r.channels && r.channels[c] == name
  }

  predicate TokenTaken(r: Replica, token: string)
  {
    exists w :: w in r.webhooks && r.webhooks[w].token == token
  }

  function WithChannel(r: Replica, op: Operation, body: Body): Replica
  {
    if op.channelID in r.channels then r else r.(channels := r.channels[op.channelID := body.channelName])
  }

  function WithWebhook(r: Replica, op: Operation): Replica
  {
    if op.actorID in r.webhooks then r else r.(webhooks := r.webhooks[op.actorID := Webhook(op.actorID, op.channelID)])
  }

  function CreatedEffect(r: Replica, op: Operation, body: Body): EffectResult
  {
    if body.channelName == "" then Rejected(r)
    else if op.channelID !in r.channels && NameTaken(r, body.channelName) then Rejected(r)
    else
      var r1 := WithChannel(r, op, body);
      if op.actorID !in r.webhooks && TokenTaken(r, op.actorID) then Rejected(r1)
      else StoreCreated(WithWebhook(r1, op), op, body)
  }

  /** Insert the new card or, for a keyed card that is already here, join it. */
  function StoreCreated(r: Replica, op: Operation, body: Body): EffectResult
  {
    var id, record := body.notificationID, BodyRecord(op, body);
    if InsertableNotification(r, id, record) then Effected(r.(notifications := r.notifications[id := record]))
    else if body.externalKey == "" || id !in r.notifications then Rejected(r)
    else if !SameIdentity(r.notifications[id], record) || id != KeyedID(op.actorID, body.externalKey) then Rejected(r)
    else Effected(r.(notifications := r.notifications[id := Join(r.notifications[id], record)]))
  }

  datatype StepResult = Advanced(next: Replica) | Repeated | Refused | OutOfOrder | Isolated(next: Replica)

  function Quarantine(r: Replica, op: Operation): Replica
  {
    if KeyOf(op) in r.quarantine then r else r.(quarantine := r.quarantine[KeyOf(op) := op])
  }

  /** One iteration of the apply loop. */
  function ApplyOne(r: Replica, origin: string, op: Operation): StepResult
  {
    var cursor := CursorRow(r, origin);
    if op.origin != origin || op.sequence == 0 then Refused
    else if op.sequence <= cursor then
      if KeyOf(op) in r.envelopes && SameOperation(r.envelopes[KeyOf(op)], op) then Repeated else Refused
    else if op.sequence != cursor + 1 then OutOfOrder
    else if op.version != PROTOCOL_VERSION || op.clusterID != r.clusterID then Isolated(Quarantine(r, op))
    else if op.payload.size > MAX_PAYLOAD_BYTES || !op.payload.validJSON then Isolated(Quarantine(r, op))
    else
      match Effect(r, op)
      case Rejected(partial) => Isolated(Quarantine(partial, op))
      case Effected(next) =>
        if StorableEnvelope(next, op) then
          Advanced(next.(envelopes := next.envelopes[KeyOf(op) := op], cursors := next.cursors[origin := op.sequence]))
        else Refused
  }

  predicate SameOperation(stored: Operation, op: Operation)
  {
    stored.clusterID == op.clusterID && stored.kind == op.kind && stored.payload == op.payload
  }

  datatype Outcome = Committed | Gap | Quarantined | Failed
  datatype BatchResult = BatchResult(replica: Replica, outcome: Outcome, taken: set<OpKey>)

  /** The rest of the apply loop. Errors roll back to `start`; a quarantine
      commits what the batch has done so far. `taken` collects the operations
      whose effect is committed. */
  function ApplyFrom(start: Replica, current: Replica, taken: set<OpKey>, origin: string,
                     ops: seq<Operation>): BatchResult
    decreases |ops|
  {
    if ops == [] then BatchResult(current, Committed, taken)
    else
      match ApplyOne(current, origin, ops[0])
      case Advanced(next) => ApplyFrom(start, next, taken + {KeyOf(ops[0])}, origin, ops[1..])
      case Repeated => ApplyFrom(start, current, taken, origin, ops[1..])
      case Refused => BatchResult(start, Failed, {})
      case OutOfOrder => BatchResult(start, Gap, {})
      case Isolated(next) => BatchResult(next, Quarantined, taken)
  }

  function ApplyBatch(r: Replica, ops: seq<Operation>): BatchResult
  {
    if ops == [] then BatchResult(r, Committed, {}) else ApplyFrom(r, r, {}, ops[0].origin, ops)
  }

  /* ---------- Snapshots ---------- */

  /** A snapshot row; `validJSON` says whether its attachments, payload and card parse. */
  datatype Row = Row(id: NotificationID, record: Record, validJSON: bool)

  datatype SnapshotBody = SnapshotBody(version: int, protocolVersion: int, clusterID: string, source: string,
                                       createdAt: int, cursors: map<string, nat>, rows: seq<Row>)

  datatype Snapshot = Snapshot(body: SnapshotBody, digest: Option<SnapshotBody>)

  /** A snapshot that exports exactly this node's notifications and marks. */
  ghost predicate Exports(r: Replica, snapshot: Snapshot)
  {
    var body := snapshot.body;
    && r.clusterID != "" && r.nodeID != ""
    && snapshot.digest == Some(body)
    && body.version == SNAPSHOT_VERSION && body.protocolVersion == PROTOCOL_VERSION
    && body.clusterID == r.clusterID && body.source == r.nodeID
    && (forall o :: o in body.cursors <==> Reports(r, o))
    && (forall o :: o in body.cursors ==> body.cursors[o] == HighWater(r, o))
    && (forall i :: 0 <= i < |body.rows| ==>
        body.rows[i].id in r.notifications && body.rows[i].record == r.notifications[body.rows[i].id])
    && (forall i, j :: 0 <= i < j < |body.rows| ==> body.rows[i].id != body.rows[j].id)
    && (forall id :: id in r.notifications ==> exists i :: 0 <= i < |body.rows| && body.rows[i].id == id)
  }

  predicate ValidRow(row: Row)
  {
    && !row.id.NoID? && row.record.content.channelID != "" && row.record.webhookID != ""
    && row.record.createdAt > 0 && row.record.updatedAt >= row.record.createdAt
    && StateRank(row.record.state) >= 0 && row.validJSON
  }

  function MergeRow(r: Replica, row: Row): Option<Replica>
  {
    if row.id !in r.notifications then
      if InsertableNotification(r, row.id, row.record)
        then Some(r.(notifications := r.notifications[row.id := row.record])) else None
    else if !SameIdentity(r.notifications[row.id], row.record) then None
    else if IncomingWins(r.notifications[row.id], row.record) && row.record.content.channelID !in r.channels then None
    else Some(r.(notifications := r.notifications[row.id := Join(r.notifications[row.id], row.record)]))
  }

  predicate SeenBefore(rows: seq<Row>, id: NotificationID)
  {
    exists i :: 0 <= i < |rows| && rows[i].id == id
  }

  function MergeRows(r: Replica, rows: seq<Row>): Option<Replica>
  {
    if rows == [] then Some(r)
    else
      var n := |rows| - 1;
      var before := MergeRows(r, rows[..n]);
      if before.None? || !ValidRow(rows[n]) || SeenBefore(rows[..n], rows[n].id) then None
      else MergeRow(before.value, rows[n])
  }

  function MergeCursors(ours: map<string, nat>, theirs: map<string, nat>): map<string, nat>
  {
    map o | o in ours.Keys + theirs.Keys ::
      if o !in theirs then ours[o] else if o in ours && ours[o] > theirs[o] then ours[o] else theirs[o]
  }

  predicate AcceptableSnapshot(r: Replica, snapshot: Snapshot, now: int)
  {
    var body := snapshot.body;
    && body.version == SNAPSHOT_VERSION && body.protocolVersion == PROTOCOL_VERSION
    && body.clusterID == r.clusterID && ValidIdentity(body.source)
    && snapshot.digest == Some(body)
    && body.createdAt <= now + CLOCK_TOLERANCE_MS
    && forall o :: o in body.cursors ==> ValidIdentity(o) && body.cursors[o] > 0
  }

  /** Merge a snapshot in one transaction; None leaves the node as it was. */
  function ApplySnapshot(r: Replica, snapshot: Snapshot, now: int): Option<Replica>
  {
    if !AcceptableSnapshot(r, snapshot, now) then None
    else
      match MergeRows(r, snapshot.body.rows)
      case None => None
      case Some(merged) => Some(merged.(cursors := MergeCursors(merged.cursors, snapshot.body.cursors)))
  }
}
