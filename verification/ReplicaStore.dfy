/** The store object whose tables the replication code updates in place. Each
    method is one transaction, proved against the function of ReplicaState that
    gives the new tables; a failed transaction restores the saved tables. */
module ReplicaStore {
  import opened Basics
  import opened NotificationRecord
  import opened ReplicaState
  import opened ReplicaLaws
  import opened DeliveryLaws

  datatype NextResult = Stored | SetAside | Unstorable

  /** An entry in a card's history; webhook deliveries have no actor. */
  datatype Event = Event(id: NotificationID, state: State, payload: string, at: int, actorID: string)

  /** A card an incident acknowledgement applies to. */
  predicate IsOpen(notes: map<NotificationID, Record>, channelID: string, incident: set<NotificationID>,
                   id: NotificationID)
  {
    && id in notes && id in incident && notes[id].content.channelID == channelID
    && (notes[id].state == Received || notes[id].state == Firing)
  }

  function Acknowledge(record: Record, now: int): Record { record.(state := Acknowledged, updatedAt := now) }

  function AcknowledgeEvents(ids: seq<NotificationID>, actorID: string, clock: nat -> int): seq<Event>
  {
    seq(|ids|, i requires 0 <= i < |ids| => Event(ids[i], Acknowledged, "{}", clock(i), actorID))
  }

  /** The open cards outside `rows` are acknowledged, each once, and nothing else changed. */
  ghost predicate AcknowledgedSoFar(prior: map<NotificationID, Record>, notes: map<NotificationID, Record>,
                                    channelID: string, incident: set<NotificationID>, rows: set<NotificationID>,
                                    changed: seq<NotificationID>, now: int)
  {
    && notes.Keys == prior.Keys
    && (forall id :: id in changed <==> id !in rows && IsOpen(prior, channelID, incident, id))
    && (forall i, j :: 0 <= i < j < |changed| ==> changed[i] != changed[j])
    && (forall id :: id in prior ==> notes[id] == if id in changed then Acknowledge(prior[id], now) else prior[id])
  }

  lemma AcknowledgeLaw(notes: map<NotificationID, Record>, channelID: string, incident: set<NotificationID>, now: int)
    ensures forall id :: IsOpen(notes, channelID, incident, id) <==>
              id in notes && id in incident && notes[id].content.channelID == channelID &&
              (notes[id].state == Received || notes[id].state == Firing)
    ensures forall record :: Acknowledge(record, now) == record.(state := Acknowledged, updatedAt := now)
  {
  }

  lemma EventsLaw(ids: seq<NotificationID>, actorID: string, clock: nat -> int)
    ensures |AcknowledgeEvents(ids, actorID, clock)| == |ids|
    ensures forall i :: 0 <= i < |ids| ==>
              AcknowledgeEvents(ids, actorID, clock)[i] == Event(ids[i], Acknowledged, "{}", clock(i), actorID)
  {
  }

  class Store {
    const clusterID: string
    const nodeID: string
    var channels: map<string, string>
    var webhooks: map<string, Webhook>
    var notifications: map<NotificationID, Record>
    var envelopes: map<OpKey, Operation>
    var cursors: map<string, nat>
    var quarantine: map<OpKey, Operation>
    var events: seq<Event>

    constructor (clusterID: string, nodeID: string)
      ensures Tables() == Replica(clusterID, nodeID, map[], map[], map[], map[], map[], map[])
      ensures events == []
    {
      events := [];
      this.clusterID, this.nodeID := clusterID, nodeID;
      channels, webhooks, notifications := map[], map[], map[];
      envelopes, cursors, quarantine := map[], map[], map[];
    }

    function Tables(): Replica
      reads this
    {
      Replica(clusterID, nodeID, channels, webhooks, notifications, envelopes, cursors, quarantine)
    }

    method Rollback(saved: Replica)
      requires saved.clusterID == clusterID && saved.nodeID == nodeID
      modifies this
      ensures Tables() == saved && events == old(events)
    {
      channels, webhooks, notifications := saved.channels, saved.webhooks, saved.notifications;
      envelopes, cursors, quarantine := saved.envelopes, saved.cursors, saved.quarantine;
    }

    /** The advertised mark of one origin: the largest of its rows in both tables. */
    method ReplicationCursor(origin: string) returns (high: nat)
      ensures high == HighWater(Tables(), origin)
    {
      high := if origin in cursors then cursors[origin] else 0;
      var rows := envelopes.Keys;
      while rows != {}
        invariant rows <= envelopes.Keys
        invariant high >= CursorRow(Tables(), origin)
        invariant high == CursorRow(Tables(), origin) || OpKey(origin, high) in envelopes
        invariant forall k :: k in envelopes && k !in rows && k.origin == origin ==> k.sequence <= high
        decreases |rows|
      {
        var k :| k in rows;
        if k.origin == origin && k.sequence > high {
          high := k.sequence;
        }
        rows := rows - {k};
      }
    }

    /** Rows are stored under their own origin and sequence. */
    ghost predicate Valid()
      reads this
    {
      forall k :: k in envelopes ==> KeyOf(envelopes[k]) == k
    }

    method NextRetained(origin: string, after: nat) returns (found: Option<nat>)
      ensures found.Some? ==> found.value > after && OpKey(origin, found.value) in envelopes
      ensures forall k :: k in envelopes && k.origin == origin && k.sequence > after ==>
              found.Some? && found.value <= k.sequence
    {
      found := None;
      var rows := envelopes.Keys;
      while rows != {}
        invariant rows <= envelopes.Keys
        invariant found.Some? ==> found.value > after && OpKey(origin, found.value) in envelopes
        invariant forall k :: k in envelopes && k !in rows && k.origin == origin && k.sequence > after ==>
                    found.Some? && found.value <= k.sequence
        decreases |rows|
      {
        var k :| k in rows;
        if k.origin == origin && k.sequence > after && (found.None? || k.sequence < found.value) {
          found := Some(k.sequence);
        }
        rows := rows - {k};
      }
    }

    /** The sequences of one page: the `page` smallest retained ones above `after`. */
    method RetainedAbove(origin: string, after: nat, page: nat) returns (picked: seq<nat>)
      ensures |picked| <= page
      ensures forall i :: 0 <= i < |picked| ==> picked[i] > after && OpKey(origin, picked[i]) in envelopes
      ensures forall i, j :: 0 <= i < j < |picked| ==> picked[i] < picked[j]
      ensures forall s :: s > after && OpKey(origin, s) in envelopes ==>
                s in picked || (|picked| == page && forall i :: 0 <= i < |picked| ==> picked[i] < s)
    {
      picked := [];
      var last := after;
      while |picked| < page
        invariant |picked| <= page && last >= after
        invariant forall i :: 0 <= i < |picked| ==> after < picked[i] <= last && OpKey(origin, picked[i]) in envelopes
        invariant forall i, j :: 0 <= i < j < |picked| ==> picked[i] < picked[j]
        invariant forall s :: after < s <= last && OpKey(origin, s) in envelopes ==> s in picked
      {
        var found := NextRetained(origin, last);
        if found.None? {
          return;
        }
        picked := picked + [found.value];
        last := found.value;
      }
    }

    /** Retained operations of one origin above `after`, ascending, without
        holes in what is retained, at most 500 at a time. */
    method ReplicationOperations(origin: string, after: nat, limit: int)
      returns (ops: seq<Operation>, ghost picked: seq<nat>)
      requires Valid()
      ensures |ops| == |picked| <= (if limit <= 0 || limit > 500 then 500 else limit)
      ensures forall i :: 0 <= i < |ops| ==>
              OpKey(origin, picked[i]) in envelopes && ops[i] == envelopes[OpKey(origin, picked[i])]
      ensures forall i :: 0 <= i < |ops| ==> ops[i].origin == origin && ops[i].sequence == picked[i] > after
      ensures forall i, j :: 0 <= i < j < |ops| ==> ops[i].sequence < ops[j].sequence
      ensures forall s :: s > after && OpKey(origin, s) in envelopes ==>
                s in picked ||
                  (|ops| == (if limit <= 0 || limit > 500 then 500 else limit) && forall i :: 0 <= i < |ops| ==>
                   ops[i].sequence < s)
    {
      var sequences := RetainedAbove(origin, after, if limit <= 0 || limit > 500 then 500 else limit);
      picked := sequences;
      ops := [];
      while |ops| < |sequences|
        invariant |ops| <= |sequences|
        invariant forall i :: 0 <= i < |ops| ==> ops[i] == envelopes[OpKey(origin, sequences[i])]
      {
        ops := ops + [envelopes[OpKey(origin, sequences[|ops|])]];
      }
      forall i | 0 <= i < |ops|
        ensures ops[i].origin == origin && ops[i].sequence == picked[i]
      {
        assert KeyOf(envelopes[OpKey(origin, picked[i])]) == OpKey(origin, picked[i]);
      }
    }

    /** The stamp and the row of an own operation. */
    method StoreOperation(kind: Kind, channelID: string, actorID: string, payload: Payload, now: int)
      returns (ok: bool)
      requires Valid()
      modifies this`envelopes
      ensures Valid()
      ensures ok == Append(old(Tables()), kind, channelID, actorID, payload, now).Some?
      ensures ok ==> Append(old(Tables()), kind, channelID, actorID, payload, now) == Some(Tables())
      ensures !ok ==> Tables() == old(Tables())
    {
      hide HighWater;
      if clusterID == "" {
        return true;
      }
      if payload.size > MAX_PAYLOAD_BYTES {
        return false;
      }
      var sequence := ReplicationCursor(nodeID);
      var key := OpKey(nodeID, sequence);
      var physical, logical := 0, 0;
      if key in envelopes && (envelopes[key].physicalMS > 0 || !(nodeID in cursors && cursors[nodeID] >= sequence)) {
        physical, logical := envelopes[key].physicalMS, envelopes[key].logical;
      }
      if physical >= now {
        logical := (logical + 1) % LOGICAL_RANGE;
      } else {
        physical, logical := now, 0;
      }
      var op := Operation(PROTOCOL_VERSION, clusterID, nodeID, sequence + 1, physical, logical, kind, channelID,
                          actorID, payload, now);
      ok := StorableEnvelope(Tables(), op);
      if ok {
        envelopes := envelopes[KeyOf(op) := op];
      }
    }

    /** Append one local operation, or fail without a change. */
    method AppendOperation(kind: Kind, channelID: string, actorID: string, payload: Payload, now: int)
      returns (ok: bool)
      requires Valid()
      modifies this`envelopes
      ensures Valid()
      ensures ok <==> CanAppend(old(Tables()), payload, now)
      ensures ok ==> AppendsNext(old(Tables()), Tables(), kind, channelID, actorID, payload, now)
      ensures ok == Append(old(Tables()), kind, channelID, actorID, payload, now).Some?
      ensures ok ==> Append(old(Tables()), kind, channelID, actorID, payload, now) == Some(Tables())
      ensures !ok ==> Tables() == old(Tables())
    {
      ghost var before := Tables();
      ok := StoreOperation(kind, channelID, actorID, payload, now);
      hide Append, CanAppend, AppendsNext;
      AppendLaw(before, kind, channelID, actorID, payload, now);
    }

    /** Store a webhook delivery together with its event and its operation. */
    method CreateFromWebhook(webhookID: string, channelID: string, input: Incoming, entropy: nat, now: int)
      returns (ok: bool, ghost found: Option<NotificationID>)
      requires Valid()
      modifies this`notifications, this`envelopes, this`events
      ensures Valid()
      ensures Lookup(old(Tables()), webhookID, input.externalKey, found)
      ensures var result := ReceiveWebhook(old(Tables()), webhookID, channelID, input, found, entropy, now);
              ok == result.Some? && Tables() == if ok then result.value else old(Tables())
      ensures ok ==> StoresDelivery(old(Tables()), webhookID, channelID, input, found, entropy, now, Tables())
      ensures !ok ==> events == old(events)
      ensures ok ==>
                var id := if found.Some? then found.value else FreshID(webhookID, input.externalKey, entropy);
                && id in notifications
                && events ==
                     old(events) +
                       [Event(id, notifications[id].state, input.rawPayload, notifications[id].updatedAt, "")]
    {
      var existing := LookupCard(webhookID, input.externalKey);
      found := existing;
      if webhookID !in webhooks || channelID !in channels || StateRank(IncomingState(input)) < 0 {
        return false, found;
      }
      ghost var before := Tables();
      hide Append, InsertCard, RewriteCard, StoresDelivery, Lookup;
      if existing.Some? {
        ok := RewriteExisting(webhookID, channelID, input, existing.value, now);
      } else {
        ok := InsertNew(webhookID, channelID, input, entropy, now);
      }
      if ok {
        DeliveryLaw(before, webhookID, channelID, input, found, entropy, now, Tables());
      }
    }

    method RewriteExisting(webhookID: string, channelID: string, input: Incoming, id: NotificationID, now: int)
      returns (ok: bool)
      requires Valid() && id in notifications
      modifies this`notifications, this`envelopes, this`events
      ensures Valid()
      ensures var result := RewriteCard(old(Tables()), webhookID, channelID, input, id, now);
              ok == result.Some? && Tables() == if ok then result.value else old(Tables())
      ensures id in notifications
      ensures var event := Event(id, notifications[id].state, input.rawPayload, notifications[id].updatedAt, "");
              events == if ok then old(events) + [event] else old(events)
    {
      hide Append;
      var saved, prior, state := notifications, notifications[id], IncomingState(input);
      if !(prior.state == Resolved && state == Firing) && StateRank(prior.state) > StateRank(state) {
        state := prior.state;
      }
      var at := if now <= prior.createdAt then prior.createdAt + 1 else now;
      var record := prior.(content := IncomingContent(channelID, input), state := state, updatedAt := at);
      notifications := notifications[id := record];
      var body := CreatedBody(id, record, "").(externalKey := "", createdAt := 0);
      ok := AppendOperation(Updated, channelID, webhookID, Payload(input.encodedSize, true, Some(body)), at);
      if ok {
        events := events + [Event(id, state, input.rawPayload, at, "")];
      } else {
        notifications := saved;
      }
    }

    method InsertNew(webhookID: string, channelID: string, input: Incoming, entropy: nat, now: int) returns (ok: bool)
      requires Valid() && channelID in channels
      modifies this`notifications, this`envelopes, this`events
      ensures Valid()
      ensures var result := InsertCard(old(Tables()), webhookID, channelID, input, entropy, now);
              ok == result.Some? && Tables() == if ok then result.value else old(Tables())
      ensures !ok ==> events == old(events)
      ensures ok ==>
                var id := FreshID(webhookID, input.externalKey, entropy);
                && id in notifications
                && events ==
                     old(events) +
                       [Event(id, notifications[id].state, input.rawPayload, notifications[id].updatedAt, "")]
    {
      hide Append, InsertableNotification;
      var saved, id := notifications, FreshID(webhookID, input.externalKey, entropy);
      var record :=
        Record(webhookID, input.externalKey, IncomingContent(channelID, input), now, now, IncomingState(input));
      if !InsertableNotification(Tables(), id, record) {
        return false;
      }
      notifications := notifications[id := record];
      var body := CreatedBody(id, record, channels[channelID]);
      ok := AppendOperation(Created, channelID, webhookID, Payload(input.encodedSize, true, Some(body)), now);
      if ok {
        events := events + [Event(id, record.state, input.rawPayload, now, "")];
      } else {
        notifications := saved;
      }
    }

    method LookupCard(webhookID: string, externalKey: string) returns (found: Option<NotificationID>)
      ensures Lookup(Tables(), webhookID, externalKey, found)
    {
      found := None;
      if externalKey != "" {
        if id :| id in notifications && SameExternalKey(notifications[id], webhookID, externalKey) {
          found := Some(id);
        }
      }
    }

    /** The guards, the row, the event and the operation of a move. */
    method MoveCard(id: NotificationID, next: State, actorID: string, authorised: bool, encodedSize: nat,
                                now: int) returns (ok: bool)
      requires Valid()
      modifies this`notifications, this`envelopes, this`events
      ensures Valid()
      ensures var result := ChangeState(old(Tables()), id, next, actorID, authorised, encodedSize, now);
              ok == result.Some? && Tables() == if ok then result.value else old(Tables())
      ensures Tables() == old(Tables()) ==> events == old(events)
      ensures Tables() != old(Tables()) ==>
                && id in notifications
                && events == old(events) + [Event(id, next, "{}", notifications[id].updatedAt, actorID)]
    {
      hide Append;
      if (next != Acknowledged && next != Resolved) || id !in notifications || !authorised {
        return false;
      }
      var saved, prior := notifications, notifications[id];
      if prior.state == next {
        return true;
      }
      if !ValidTransition(prior.state, next) {
        return false;
      }
      var at := if now <= prior.updatedAt then prior.updatedAt + 1 else now;
      notifications := notifications[id := prior.(state := next, updatedAt := at)];
      var body := Body(id, next, "", "", "", "", "", "", "", "", 0, at);
      ok := AppendOperation(StateChanged, prior.content.channelID, actorID, Payload(encodedSize, true, Some(body)), at);
      if ok {
        events := events + [Event(id, next, "{}", at, actorID)];
        assert notifications[id].state != old(notifications)[id].state;
      } else {
        notifications := saved;
      }
    }

    /** Move a card forward together with its event and its operation. */
    method SetNotificationState(id: NotificationID, next: State, actorID: string, authorised: bool, encodedSize: nat,
                                now: int) returns (ok: bool)
      requires Valid()
      modifies this`notifications, this`envelopes, this`events
      ensures Valid()
      ensures var result := ChangeState(old(Tables()), id, next, actorID, authorised, encodedSize, now);
              ok == result.Some? && Tables() == if ok then result.value else old(Tables())
      ensures MovesIfAllowed(old(Tables()), id, next, actorID, authorised, encodedSize, now, ok, Tables())
      ensures Tables() == old(Tables()) ==> events == old(events)
      ensures Tables() != old(Tables()) ==>
                && id in notifications
                && events == old(events) + [Event(id, next, "{}", notifications[id].updatedAt, actorID)]
    {
      ghost var before := Tables();
      ok := MoveCard(id, next, actorID, authorised, encodedSize, now);
      hide ChangeState, MovesIfAllowed;
      MoveLaw(before, id, next, actorID, authorised, encodedSize, now);
    }

    /** Acknowledge every open card of an incident in a channel. No operation is appended.
        The rows get one clock reading, each event its own. */
    method AcknowledgeIncident(channelID: string, incident: set<NotificationID>, operator: bool, actorID: string,
                               now: int, clock: nat -> int)
      returns (ok: bool, changed: seq<NotificationID>)
      modifies this`notifications, this`events
      ensures ok == operator
      ensures !ok ==> Tables() == old(Tables()) && changed == []
      ensures ok ==> forall id :: id in changed <==> IsOpen(old(notifications), channelID, incident, id)
      ensures forall i, j :: 0 <= i < j < |changed| ==> changed[i] != changed[j]
      ensures notifications.Keys == old(notifications).Keys
      ensures forall id :: id in notifications ==>
                notifications[id] == if id in changed then Acknowledge(old(notifications)[id], now)
                  else old(notifications)[id]
      ensures events == old(events) + AcknowledgeEvents(changed, actorID, clock)
      ensures ok ==> forall id :: id in changed <==>
                id in old(notifications) && id in incident && old(notifications)[id].content.channelID == channelID &&
                (old(notifications)[id].state == Received || old(notifications)[id].state == Firing)
      ensures forall id :: id in notifications && id in changed ==>
                notifications[id] == old(notifications)[id].(state := Acknowledged, updatedAt := now)
      ensures |events| == |old(events)| + |changed| && old(events) <= events
      ensures forall i :: 0 <= i < |changed| ==>
                events[|old(events)| + i] == Event(changed[i], Acknowledged, "{}", clock(i), actorID)
    {
      AcknowledgeLaw(notifications, channelID, incident, now);
      hide Acknowledge, AcknowledgeEvents;
      changed := [];
      NoEvents(actorID, clock);
      assert events + [] == events;
      if !operator {
        return false, changed;
      }
      var rows, prior, notes, entries := notifications.Keys, notifications, notifications, [];
      NothingAcknowledged(prior, channelID, incident, now);
      hide IsOpen, AcknowledgedSoFar;
      while rows != {}
        invariant rows <= prior.Keys
        invariant AcknowledgedSoFar(prior, notes, channelID, incident, rows, changed, now)
        invariant entries == AcknowledgeEvents(changed, actorID, clock) && events == old(events)
        decreases |rows|
      {
        var id :| id in rows;
        RowDone(prior, notes, channelID, incident, rows, changed, now, id);
        if IsOpen(prior, channelID, incident, id) {
          OneMoreEvent(changed, id, actorID, clock);
          entries := entries + [Event(id, Acknowledged, "{}", clock(|changed|), actorID)];
          notes := notes[id := Acknowledge(notes[id], now)];
          changed := changed + [id];
        }
        rows := rows - {id};
      }
      EverythingAcknowledged(prior, notes, channelID, incident, changed, now);
      EventsLaw(changed, actorID, clock);
      notifications, events := notes, events + entries;
      ok := true;
    }

    /** A card published by an agent: no external key, and no operation is appended. */
    method CreateFromAgent(webhookID: string, content: Content, state: State, entropy: nat, now: int) returns (ok: bool)
      modifies this`notifications, this`events
      ensures var id, record := RandomID(entropy), Record(webhookID, "", content, now, now, state);
              && ok == InsertableNotification(old(Tables()), id, record)
              && Tables() ==
                   (if ok then old(Tables()).(notifications := old(notifications)[id := record]) else old(Tables()))
              && events == old(events) + if ok then [Event(id, state, content.rawPayload, now, "")] else []
    {
      var id, record := RandomID(entropy), Record(webhookID, "", content, now, now, state);
      ok := InsertableNotification(Tables(), id, record);
      if ok {
        notifications := notifications[id := record];
        events := events + [Event(id, state, content.rawPayload, now, "")];
      }
    }

    /** Record the covered cursor, then drop the covered envelopes. */
    method PruneReplicationOperations(origin: string, through: nat) returns (ok: bool)
      modifies this`envelopes, this`cursors
      ensures Prunes(old(Tables()), origin, through, ok, Tables())
      ensures ok == Prune(old(Tables()), origin, through).Some?
      ensures ok ==> Prune(old(Tables()), origin, through) == Some(Tables())
      ensures !ok ==> Tables() == old(Tables())
    {
      PruneLaw(Tables(), origin, through);
      hide Prunes;
      if !ValidIdentity(origin) || through == 0 {
        return false;
      }
      ghost var r := Tables();
      var found := NextRetained(origin, through - 1);
      // through is at most the retained maximum exactly if something at or above it is retained
      assert found.Some? <==> through <= Largest(Retained(r, origin)) by {
        if found.Some? {
          assert found.value in Retained(r, origin);
        }
        if through <= Largest(Retained(r, origin)) {
          assert Largest(Retained(r, origin)) in Retained(r, origin);
          assert OpKey(origin, Largest(Retained(r, origin))) in r.envelopes;
        }
      }
      ok := found.Some?;
      if ok {
        cursors :=
          cursors[origin := if origin in cursors && cursors[origin] > through then cursors[origin] else through];
        envelopes := map k | k in envelopes && !(k.origin == origin && k.sequence <= through) :: envelopes[k];
      }
    }

    /* ---------- Received operations ---------- */

    /** The visible effect of an operation; a refusal keeps the rows already written. */
    method ApplyEffect(op: Operation) returns (ok: bool)
      modifies this`channels, this`webhooks, this`notifications
      ensures Effect(old(Tables()), op) == if ok then Effected(Tables()) else Rejected(Tables())
      ensures HasEffect(old(Tables()), op, ok, Tables())
    {
      EffectLaw(Tables(), op);
      hide HasEffect;
      if op.payload.body.None? || op.payload.body.value.notificationID.NoID? {
        return false;
      }
      var body := op.payload.body.value;
      var id := body.notificationID;
      match op.kind
      case Created =>
        ok := ApplyCreated(op, body);
      case Updated =>
        ok := id in notifications && op.channelID in channels;
        if ok {
          notifications :=
            notifications[id :=
                          notifications[id].(content := BodyContent(op, body), state := body.state,
                                             updatedAt := body.updatedAt)];
        }
      case StateChanged =>
        ok := id in notifications;
        if ok && StateRank(body.state) > StateRank(notifications[id].state) {
          var updatedAt := if body.updatedAt > notifications[id].updatedAt then body.updatedAt
            else notifications[id].updatedAt;
          notifications := notifications[id := notifications[id].(state := body.state, updatedAt := updatedAt)];
        }
      case OtherKind(_) =>
        ok := false;
    }

    method ApplyCreated(op: Operation, body: Body) returns (ok: bool)
      modifies this`channels, this`webhooks, this`notifications
      ensures CreatedEffect(old(Tables()), op, body) == if ok then Effected(Tables()) else Rejected(Tables())
    {
      if body.channelName == "" {
        return false;
      }
      if op.channelID !in channels {
        if NameTaken(Tables(), body.channelName) {
          return false;
        }
        channels := channels[op.channelID := body.channelName];
      }
      if op.actorID !in webhooks {
        if TokenTaken(Tables(), op.actorID) {
          return false;
        }
        webhooks := webhooks[op.actorID := Webhook(op.actorID, op.channelID)];
      }
      var id, record := body.notificationID, BodyRecord(op, body);
      if InsertableNotification(Tables(), id, record) {
        notifications := notifications[id := record];
        return true;
      }
      if body.externalKey == "" || id !in notifications ||
         !SameIdentity(notifications[id], record) || id != KeyedID(op.actorID, body.externalKey) {
        return false;
      }
      var merged := MergeVersions(notifications[id], record);
      notifications := notifications[id := merged];
      return true;
    }

    /** The branch-by-branch merge of two versions computes their join. */
    method MergeVersions(local: Record, incoming: Record) returns (merged: Record)
      ensures merged == Join(local, incoming)
      ensures IsMerge(local, incoming, merged)
    {
      JoinIsMerge(local, incoming);
      hide IsMerge;
      var state := local.state;
      if StateRank(incoming.state) > StateRank(state) {
        state := incoming.state;
      }
      if IncomingWins(local, incoming) {
        merged := local.(content := incoming.content, createdAt := Min(local.createdAt, incoming.createdAt),
                         updatedAt := incoming.updatedAt, state := state);
      } else if state != local.state {
        merged := local.(createdAt := Min(local.createdAt, incoming.createdAt), state := state);
      } else if incoming.createdAt < local.createdAt {
        merged := local.(createdAt := incoming.createdAt);
      } else {
        merged := local;
      }
    }

    /** The checks and the updates for one expected operation. */
    method StoreNext(op: Operation) returns (stored: NextResult)
      requires Valid() && op.sequence == CursorRow(Tables(), op.origin) + 1
      modifies this
      ensures Valid() && events == old(events)
      ensures stored.Stored? ==> ApplyOne(old(Tables()), op.origin, op) == Advanced(Tables())
      ensures stored.Stored? ==> CursorRow(Tables(), op.origin) == op.sequence
      ensures stored.SetAside? ==> ApplyOne(old(Tables()), op.origin, op) == Isolated(Tables())
      ensures stored.Unstorable? ==> ApplyOne(old(Tables()), op.origin, op) == Refused
    {
      hide Effect, SameOperation, HasEffect;
      var ok := op.version == PROTOCOL_VERSION && op.clusterID == clusterID &&
                op.payload.size <= MAX_PAYLOAD_BYTES && op.payload.validJSON;
      if ok {
        ok := ApplyEffect(op);
      }
      if !ok {
        if KeyOf(op) !in quarantine {
          quarantine := quarantine[KeyOf(op) := op];
        }
        return SetAside;
      }
      if !StorableEnvelope(Tables(), op) {
        return Unstorable;
      }
      envelopes := envelopes[KeyOf(op) := op];
      cursors := cursors[op.origin := op.sequence];
      stored := Stored;
    }

    /** The next operation of its origin: its effect, its envelope and the cursor, or the
        quarantine. What a database error leaves behind is for the caller to roll back. */
    method ApplyNext(op: Operation) returns (stored: NextResult)
      requires Valid() && op.sequence == CursorRow(Tables(), op.origin) + 1
      modifies this
      ensures Valid() && events == old(events)
      ensures stored.Stored? ==> ApplyOne(old(Tables()), op.origin, op) == Advanced(Tables())
      ensures stored.Stored? ==> CursorRow(Tables(), op.origin) == op.sequence
      ensures stored.Stored? || stored.SetAside? ==> TakesNext(old(Tables()), op, stored.Stored?, Tables())
      ensures stored.SetAside? ==> ApplyOne(old(Tables()), op.origin, op) == Isolated(Tables())
      ensures stored.Unstorable? ==> ApplyOne(old(Tables()), op.origin, op) == Refused
    {
      ghost var before := Tables();
      stored := StoreNext(op);
      hide ApplyOne, TakesNext;
      NextOperationLaw(before, op);
    }

    /** The loop over a range, with its running cursor. */
    method ApplyRange(ops: seq<Operation>) returns (outcome: Outcome)
      requires Valid()
      modifies this
      ensures Valid() && events == old(events)
      ensures Tables() == ApplyBatch(old(Tables()), ops).replica
      ensures outcome == ApplyBatch(old(Tables()), ops).outcome
    {
      hide Effect, SameOperation, StorableEnvelope;
      if ops == [] {
        return Committed;
      }
      var saved := Tables();
      ghost var taken := {};
      var origin := ops[0].origin;
      var cursor := if origin in cursors then cursors[origin] else 0;
      var i := 0;
      while i < |ops|
        invariant 0 <= i <= |ops| && Valid() && events == old(events)
        invariant cursor == CursorRow(Tables(), origin)
        invariant ApplyFrom(saved, Tables(), taken, origin, ops[i..]) == ApplyBatch(old(Tables()), ops)
      {
        var op := ops[i];
        assert ops[i..][0] == op && ops[i..][1..] == ops[i + 1..];
        if op.origin != origin || op.sequence == 0 {
          Rollback(saved);
          return Failed;
        }
        if op.sequence <= cursor {
          if KeyOf(op) !in envelopes || !SameOperation(envelopes[KeyOf(op)], op) {
            Rollback(saved);
            return Failed;
          }
        } else if op.sequence != cursor + 1 {
          Rollback(saved);
          return Gap;
        } else {
          var stored := ApplyNext(op);
          match stored
          case SetAside => return Quarantined;
          case Unstorable => Rollback(saved); return Failed;
          case Stored =>
            cursor := op.sequence;
            taken := taken + {KeyOf(op)};
        }
        i := i + 1;
      }
      outcome := Committed;
    }

    /** Apply one origin's range in one transaction. */
    method ApplyReplicationOperations(ops: seq<Operation>) returns (outcome: Outcome)
      requires Valid()
      modifies this
      ensures Valid() && events == old(events)
      ensures Tables() == ApplyBatch(old(Tables()), ops).replica
      ensures outcome == ApplyBatch(old(Tables()), ops).outcome
      ensures ops == [] ==> Tables() == old(Tables()) && outcome == Committed
      ensures ops != [] ==> TakesBatch(old(Tables()), old(Tables()), ops[0].origin, ops, outcome, Tables())
    {
      ghost var before := Tables();
      outcome := ApplyRange(ops);
      hide ApplyBatch, TakesBatch;
      WholeBatchLaw(before, ops);
    }

    /* ---------- Snapshots ---------- */

    method ReportedCursors() returns (marks: map<string, nat>)
      ensures forall o :: o in marks <==> Reports(Tables(), o)
      ensures forall o :: o in marks ==> marks[o] == HighWater(Tables(), o)
    {
      marks := map[];
      var origins := cursors.Keys + set k | k in envelopes :: k.origin;
      while origins != {}
        invariant forall o :: Reports(Tables(), o) <==> o in origins || o in marks
        invariant forall o :: o in marks ==> marks[o] == HighWater(Tables(), o)
        decreases |origins|
      {
        var o :| o in origins;
        var high := ReplicationCursor(o);
        marks := marks[o := high];
        origins := origins - {o};
      }
    }

    /** `malformed` are the cards whose stored JSON columns do not parse. */
    method BuildReplicationSnapshot(createdAt: int, malformed: set<NotificationID>) returns (snapshot: Snapshot)
      requires clusterID != "" && nodeID != ""
      ensures Exports(Tables(), snapshot)
    {
      var marks := ReportedCursors();
      var rows: seq<Row> := [];
      var ids := notifications.Keys;
      while ids != {}
        invariant ids <= notifications.Keys
        invariant forall i :: 0 <= i < |rows| ==>
                  rows[i].id in notifications && rows[i].id !in ids && rows[i].record == notifications[rows[i].id]
        invariant forall i, j :: 0 <= i < j < |rows| ==> rows[i].id != rows[j].id
        invariant forall id :: id in notifications && id !in ids ==> exists i :: 0 <= i < |rows| && rows[i].id == id
        decreases |ids|
      {
        var id :| id in ids;
        ghost var before := rows;
        rows := rows + [Row(id, notifications[id], id !in malformed)];
        ids := ids - {id};
        forall x | x in notifications && x !in ids
          ensures exists i :: 0 <= i < |rows| && rows[i].id == x
        {
          if x == id {
            assert rows[|rows| - 1].id == x;
          } else {
            var i :| 0 <= i < |before| && before[i].id == x;
            assert rows[i].id == x;
          }
        }
      }
      var body := SnapshotBody(SNAPSHOT_VERSION, PROTOCOL_VERSION, clusterID, nodeID, createdAt, marks, rows);
      snapshot := Snapshot(body, Some(body));
    }

    /** Merge a snapshot in one transaction, or restore the tables. */
    method ApplyReplicationSnapshot(snapshot: Snapshot, now: int) returns (ok: bool)
      modifies this
      ensures ok == ReplicaState.ApplySnapshot(old(Tables()), snapshot, now).Some?
      ensures ok ==> ReplicaState.ApplySnapshot(old(Tables()), snapshot, now) == Some(Tables())
      ensures ok ==> MergesSnapshot(old(Tables()), snapshot, now, Tables())
      ensures !ok ==> Tables() == old(Tables())
      ensures events == old(events)
    {
      hide MergeRow, ValidRow, MergeCursors, AcceptableSnapshot, MergesSnapshot;
      if !AcceptableSnapshot(Tables(), snapshot, now) {
        return false;
      }
      var saved := Tables();
      var rows := snapshot.body.rows;
      var seen: set<NotificationID> := {};
      var i := 0;
      while i < |rows|
        invariant 0 <= i <= |rows| && events == old(events)
        invariant forall id :: id in seen <==> SeenBefore(rows[..i], id)
        invariant MergeRows(saved, rows[..i]) == Some(Tables())
      {
        var row := rows[i];
        assert rows[..i + 1][..i] == rows[..i] && rows[..i + 1][i] == row;
        ghost var before := Tables();
        ghost var next := MergeRows(saved, rows[..i + 1]);
        var stored := false;
        if ValidRow(row) && row.id !in seen {
          stored := MergeSnapshotRow(row);
        }
        if !stored {
          assert next.None?;
          MergeStopsAtFirstFailure(saved, rows, i + 1);
          Rollback(saved);
          return false;
        }
        assert next == Some(Tables());
        forall id
          ensures id in seen + {row.id} <==> SeenBefore(rows[..i + 1], id)
        {
          SeenGrows(rows, i, id);
        }
        seen := seen + {row.id};
        i := i + 1;
      }
      assert rows[..i] == rows;
      cursors := MergeCursors(cursors, snapshot.body.cursors);
      AcceptedSnapshotLaw(saved, snapshot, now, Tables());
      ok := true;
    }

    method MergeSnapshotRow(row: Row) returns (stored: bool)
      modifies this`notifications
      ensures stored == MergeRow(old(Tables()), row).Some?
      ensures stored ==> MergeRow(old(Tables()), row) == Some(Tables())
      ensures !stored ==> Tables() == old(Tables())
    {
      if row.id !in notifications {
        stored := InsertableNotification(Tables(), row.id, row.record);
        if stored {
          notifications := notifications[row.id := row.record];
        }
        return;
      }
      var local := notifications[row.id];
      if !SameIdentity(local, row.record) ||
        (IncomingWins(local, row.record) && row.record.content.channelID !in channels) {
        return false;
      }
      var merged := MergeVersions(local, row.record);
      notifications := notifications[row.id := merged];
      return true;
    }
  }

  lemma NoEvents(actorID: string, clock: nat -> int)
    ensures AcknowledgeEvents([], actorID, clock) == []
  {
  }

  lemma OneMoreEvent(ids: seq<NotificationID>, id: NotificationID, actorID: string, clock: nat -> int)
    ensures AcknowledgeEvents(ids + [id], actorID, clock) ==
            AcknowledgeEvents(ids, actorID, clock) + [Event(id, Acknowledged, "{}", clock(|ids|), actorID)]
  {
  }

  lemma NothingAcknowledged(prior: map<NotificationID, Record>, channelID: string, incident: set<NotificationID>,
                            now: int)
    ensures AcknowledgedSoFar(prior, prior, channelID, incident, prior.Keys, [], now)
  {
  }

  lemma RowDone(prior: map<NotificationID, Record>, notes: map<NotificationID, Record>, channelID: string,
                incident: set<NotificationID>, rows: set<NotificationID>, changed: seq<NotificationID>, now: int,
                id: NotificationID)
    requires AcknowledgedSoFar(prior, notes, channelID, incident, rows, changed, now) && id in rows &&
             rows <= prior.Keys
    ensures id in notes
    ensures if IsOpen(prior, channelID, incident, id) then
              AcknowledgedSoFar(prior, notes[id := Acknowledge(notes[id], now)], channelID, incident, rows - {id},
                                changed + [id], now)
            else AcknowledgedSoFar(prior, notes, channelID, incident, rows - {id}, changed, now)
  {
    hide IsOpen, Acknowledge;
    var longer := changed + [id];
    assert forall other :: other in longer <==> other in changed || other == id;
  }

  lemma EverythingAcknowledged(prior: map<NotificationID, Record>, notes: map<NotificationID, Record>,
                               channelID: string,
                               incident: set<NotificationID>, changed: seq<NotificationID>, now: int)
    requires AcknowledgedSoFar(prior, notes, channelID, incident, {}, changed, now)
    ensures notes.Keys == prior.Keys && forall id :: id in changed <==> IsOpen(prior, channelID, incident, id)
    ensures forall i, j :: 0 <= i < j < |changed| ==> changed[i] != changed[j]
    ensures forall id :: id in notes ==>
              notes[id] == if id in changed then Acknowledge(prior[id], now) else prior[id]
  {
  }

  lemma SeenGrows(rows: seq<Row>, i: nat, id: NotificationID)
    requires i < |rows|
    ensures SeenBefore(rows[..i + 1], id) <==> SeenBefore(rows[..i], id) || id == rows[i].id
  {
    var shorter, longer := rows[..i], rows[..i + 1];
    if j :| 0 <= j < |longer| && longer[j].id == id {
      assert j < i ==> shorter[j].id == id;
    }
    if j :| 0 <= j < |shorter| && shorter[j].id == id {
      assert longer[j].id == id;
    }
    assert longer[i].id == rows[i].id;
  }

  lemma {:induction false} MergeStopsAtFirstFailure(r: Replica, rows: seq<Row>, i: nat)
    requires i <= |rows| && MergeRows(r, rows[..i]).None?
    ensures MergeRows(r, rows).None?
    decreases |rows| - i
  {
    if i == |rows| {
      assert rows[..i] == rows;
    } else {
      assert rows[..i + 1][..i] == rows[..i];
      MergeStopsAtFirstFailure(r, rows, i + 1);
    }
  }
}
