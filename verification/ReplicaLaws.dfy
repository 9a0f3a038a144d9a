/** What each transaction on a node's tables does, field by field and without the
    functions that compute it, and exactly when it succeeds. */
module ReplicaLaws {
  import opened Basics
  import opened Ordering
  import opened NotificationRecord
  import opened ReplicaState

  /* ---------- Appending ---------- */

  /** The newest own envelope, if that is the newest own row. */
  ghost predicate HasLast(r: Replica, last: OpKey)
  {
    last == OpKey(r.nodeID, HighWater(r, r.nodeID)) && last in r.envelopes && r.envelopes[last].physicalMS > 0
  }

  /** Wall clock if it is ahead of the last stamp; otherwise the last physical time with
      the next logical count, modulo 2^32. */
  ghost predicate StampFollows(r: Replica, op: Operation)
  {
    var last := OpKey(r.nodeID, HighWater(r, r.nodeID));
    && op.physicalMS > 0
    && (HasLast(r, last) && r.envelopes[last].physicalMS >= op.createdAt ==>
        && op.physicalMS == r.envelopes[last].physicalMS
        && op.logical == (r.envelopes[last].logical + 1) % 4294967296)
    && (!HasLast(r, last) || r.envelopes[last].physicalMS < op.createdAt ==>
        op.physicalMS == op.createdAt && op.logical == 0)
  }

  /** One envelope is added under the next own sequence and nothing else changes; without
      replication nothing at all. */
  ghost predicate AppendsNext(r: Replica, r': Replica, kind: Kind, channelID: string, actorID: string, payload: Payload,
                              now: int)
  {
    if r.clusterID == "" then r' == r
    else
      var k := OpKey(r.nodeID, HighWater(r, r.nodeID) + 1);
      && k !in r.envelopes && k in r'.envelopes
      && r' == r.(envelopes := r.envelopes[k := r'.envelopes[k]])
      && StampFollows(r, r'.envelopes[k])
      && var op := r'.envelopes[k];
         op == Operation(1, r.clusterID, r.nodeID, k.sequence, op.physicalMS, op.logical, kind, channelID, actorID,
                         payload, now)
  }

  /** An append is possible: the payload fits and some clock is past zero. */
  ghost predicate CanAppend(r: Replica, payload: Payload, now: int)
  {
    r.clusterID == "" ||
    (&& payload.size <= 1048576 && payload.validJSON
     && (now > 0 || HasLast(r, OpKey(r.nodeID, HighWater(r, r.nodeID)))))
  }

  lemma AppendLaw(r: Replica, kind: Kind, channelID: string, actorID: string, payload: Payload, now: int)
    ensures Append(r, kind, channelID, actorID, payload, now).Some? <==> CanAppend(r, payload, now)
    ensures Append(r, kind, channelID, actorID, payload, now).Some? ==>
              AppendsNext(r, Append(r, kind, channelID, actorID, payload, now).value, kind, channelID, actorID,
                          payload, now)
  {
  }

  lemma MarkIgnoresNotifications(r: Replica, notes: map<NotificationID, Record>, o: string)
    ensures HighWater(r.(notifications := notes), o) == HighWater(r, o)
  {
    assert Retained(r.(notifications := notes), o) == Retained(r, o);
  }

  lemma CanAppendIgnoresNotifications(r: Replica, notes: map<NotificationID, Record>, payload: Payload, now: int)
    ensures CanAppend(r.(notifications := notes), payload, now) <==> CanAppend(r, payload, now)
  {
    MarkIgnoresNotifications(r, notes, r.nodeID);
  }

  /* ---------- Webhook deliveries ---------- */

  /** The operation's document for this card, with these outer fields. */
  function Document(size: nat, id: NotificationID, card: Record, externalKey: string, channelName: string,
                    createdAt: int): Payload
  {
    Payload(size, true, Some(
      Body(id, card.state, card.content.text, card.content.username, card.content.iconURL, card.content.card,
           card.content.attachments, card.content.rawPayload, externalKey, channelName, createdAt, card.updatedAt)))
  }

  function GivenState(input: Incoming): State { if input.state == Unrecognised("") then Received else input.state }

  /** The content is that of the delivery, with the two defaults. */
  predicate HasContent(card: Record, channelID: string, input: Incoming)
  {
    card.content == Content(channelID, input.text, if input.username == "" then "webhook" else input.username,
                            input.iconURL, if input.attachments == "" then "[]" else input.attachments,
                            input.rawPayload, input.card)
  }

  /** A rewritten card: identity and creation time stay, a resolved card that fires again is
      firing, and otherwise the higher state stays. */
  ghost predicate Rewrites(prior: Record, input: Incoming, now: int, card: Record)
  {
    && card.webhookID == prior.webhookID && card.externalKey == prior.externalKey && card.createdAt == prior.createdAt
    && card.updatedAt == (if now <= prior.createdAt then prior.createdAt + 1 else now)
    && (prior.state == Resolved && GivenState(input) == Firing ==> card.state == Firing)
    && (!(prior.state == Resolved && GivenState(input) == Firing) ==>
        card.state == if StateRank(prior.state) > StateRank(GivenState(input)) then prior.state else GivenState(input))
  }

  /** The id a delivery is stored under. */
  function DeliveryID(webhookID: string, input: Incoming, found: Option<NotificationID>, entropy: nat): NotificationID
  {
    if found.Some? then found.value
    else if input.externalKey != "" then KeyedID(webhookID, input.externalKey)
    else RandomID(entropy)
  }

  /** A delivery stores one card and appends one operation that documents it. */
  ghost predicate StoresDelivery(r: Replica, webhookID: string, channelID: string, input: Incoming,
                                 found: Option<NotificationID>, entropy: nat, now: int, r': Replica)
  {
    var id := DeliveryID(webhookID, input, found, entropy);
    && id in r'.notifications && (found.Some? <==> id in r.notifications) && channelID in r.channels
    && var card := r'.notifications[id];
    && HasContent(card, channelID, input)
    && (if found.Some? then Rewrites(r.notifications[id], input, now, card)
        else card == Record(webhookID, input.externalKey, card.content, now, now, GivenState(input)))
    && AppendsNext(r.(notifications := r.notifications[id := card]), r', if found.Some? then Updated else Created,
                   channelID, webhookID,
                   if found.Some? then Document(input.encodedSize, id, card, "", "", 0)
                   else Document(input.encodedSize, id, card, input.externalKey, r.channels[channelID], now),
                   card.updatedAt)
  }

  function RewrittenCard(prior: Record, channelID: string, input: Incoming, now: int): Record
  {
    var state :=
      if prior.state == Resolved && GivenState(input) == Firing then Firing
      else if StateRank(prior.state) > StateRank(GivenState(input)) then prior.state
      else GivenState(input);
    prior.(content := IncomingContent(channelID, input), state := state,
           updatedAt := if now <= prior.createdAt then prior.createdAt + 1 else now)
  }

  lemma RewrittenCardLaw(prior: Record, channelID: string, input: Incoming, now: int)
    ensures var card := RewrittenCard(prior, channelID, input, now);
            HasContent(card, channelID, input) && Rewrites(prior, input, now, card)
  {
    hide StateRank;
  }

  lemma RewriteIsAppend(r: Replica, webhookID: string, channelID: string, input: Incoming, id: NotificationID, now: int)
    requires id in r.notifications
    ensures var card := RewrittenCard(r.notifications[id], channelID, input, now);
            RewriteCard(r, webhookID, channelID, input, id, now) ==
            Append(r.(notifications := r.notifications[id := card]), Updated, channelID, webhookID,
                   Document(input.encodedSize, id, card, "", "", 0), card.updatedAt)
  {
    hide Append, StateRank;
  }

  lemma RewriteLaw(r: Replica, webhookID: string, channelID: string, input: Incoming, id: NotificationID, entropy: nat,
                   now: int, r': Replica)
    requires id in r.notifications && channelID in r.channels
    requires RewriteCard(r, webhookID, channelID, input, id, now) == Some(r')
    ensures StoresDelivery(r, webhookID, channelID, input, Some(id), entropy, now, r')
  {
    RewriteIsAppend(r, webhookID, channelID, input, id, now);
    RewrittenCardLaw(r.notifications[id], channelID, input, now);
    hide Append, AppendsNext, RewriteCard, RewrittenCard, HasContent, Rewrites, Document;
    var card := RewrittenCard(r.notifications[id], channelID, input, now);
    var mid := r.(notifications := r.notifications[id := card]);
    var payload := Document(input.encodedSize, id, card, "", "", 0);
    AppendLaw(mid, Updated, channelID, webhookID, payload, card.updatedAt);
    AppendKeepsNotifications(mid, Updated, channelID, webhookID, payload, card.updatedAt, r');
  }

  lemma AppendKeepsNotifications(r: Replica, kind: Kind, channelID: string, actorID: string, payload: Payload, now: int,
                                 r': Replica)
    requires Append(r, kind, channelID, actorID, payload, now) == Some(r')
    ensures r'.notifications == r.notifications
  {
  }

  lemma InsertLaw(r: Replica, webhookID: string, channelID: string, input: Incoming, entropy: nat, now: int,
                  r': Replica)
    requires channelID in r.channels
    requires InsertCard(r, webhookID, channelID, input, entropy, now) == Some(r')
    ensures StoresDelivery(r, webhookID, channelID, input, None, entropy, now, r')
  {
    hide Append, AppendsNext, StateRank;
    var id := DeliveryID(webhookID, input, None, entropy);
    var card := Record(webhookID, input.externalKey, IncomingContent(channelID, input), now, now, GivenState(input));
    var payload := Payload(input.encodedSize, true, Some(CreatedBody(id, card, r.channels[channelID])));
    var mid := r.(notifications := r.notifications[id := card]);
    AppendLaw(mid, Created, channelID, webhookID, payload, now);
    assert r'.notifications ==
           mid.notifications by { AppendKeepsNotifications(mid, Created, channelID, webhookID, payload, now, r'); }
    assert payload == Document(input.encodedSize, id, card, input.externalKey, r.channels[channelID], now);
    assert r'.notifications[id] == card;
  }

  lemma DeliveryLaw(r: Replica, webhookID: string, channelID: string, input: Incoming, found: Option<NotificationID>,
                    entropy: nat, now: int, r': Replica)
    requires Lookup(r, webhookID, input.externalKey, found)
    requires ReceiveWebhook(r, webhookID, channelID, input, found, entropy, now) == Some(r')
    ensures StoresDelivery(r, webhookID, channelID, input, found, entropy, now, r')
  {
    hide InsertCard, RewriteCard, StoresDelivery, StateRank;
    if found.Some? {
      RewriteLaw(r, webhookID, channelID, input, found.value, entropy, now, r');
    } else {
      InsertLaw(r, webhookID, channelID, input, entropy, now, r');
    }
  }

  /** Exactly when a delivery is stored. */
  lemma DeliverySucceeds(r: Replica, webhookID: string, channelID: string, input: Incoming,
                         found: Option<NotificationID>, entropy: nat, now: int)
    requires Lookup(r, webhookID, input.externalKey, found)
    ensures var id := DeliveryID(webhookID, input, found, entropy);
            ReceiveWebhook(r, webhookID, channelID, input, found, entropy, now).Some? <==>
            && webhookID in r.webhooks && channelID in r.channels
            && GivenState(input) in {Received, Firing, Acknowledged, Resolved}
            && (found.None? ==> id !in r.notifications)
            && CanAppend(r, Payload(input.encodedSize, true, None),
                         if found.Some? &&
                           now <= r.notifications[id].createdAt then r.notifications[id].createdAt + 1 else now)
  {
    hide Append, CanAppend;
    var id := DeliveryID(webhookID, input, found, entropy);
    if webhookID in r.webhooks && channelID in r.channels && StateRank(IncomingState(input)) >= 0 {
      if found.Some? {
        RewriteSucceeds(r, webhookID, channelID, input, id, now);
      } else if id !in r.notifications {
        InsertSucceeds(r, webhookID, channelID, input, entropy, now);
      }
    }
  }

  lemma CanAppendBySize(r: Replica, p: Payload, q: Payload, now: int)
    requires p.size == q.size && p.validJSON == q.validJSON
    ensures CanAppend(r, p, now) <==> CanAppend(r, q, now)
  {
  }

  lemma RewriteSucceeds(r: Replica, webhookID: string, channelID: string, input: Incoming, id: NotificationID, now: int)
    requires id in r.notifications
    ensures var prior := r.notifications[id];
            RewriteCard(r, webhookID, channelID, input, id, now).Some? <==>
            CanAppend(r, Payload(input.encodedSize, true, None),
                      if now <= prior.createdAt then prior.createdAt + 1 else now)
  {
    RewriteIsAppend(r, webhookID, channelID, input, id, now);
    hide Append, CanAppend, RewriteCard;
    var card := RewrittenCard(r.notifications[id], channelID, input, now);
    var payload := Document(input.encodedSize, id, card, "", "", 0);
    var notes := r.notifications[id := card];
    AppendLaw(r.(notifications := notes), Updated, channelID, webhookID, payload, card.updatedAt);
    CanAppendIgnoresNotifications(r, notes, payload, card.updatedAt);
    CanAppendBySize(r, payload, Payload(input.encodedSize, true, None), card.updatedAt);
  }

  lemma InsertSucceeds(r: Replica, webhookID: string, channelID: string, input: Incoming, entropy: nat, now: int)
    requires webhookID in r.webhooks && channelID in r.channels && Lookup(r, webhookID, input.externalKey, None)
    requires DeliveryID(webhookID, input, None, entropy) !in r.notifications
    ensures InsertCard(r, webhookID, channelID, input, entropy, now).Some? <==>
            CanAppend(r, Payload(input.encodedSize, true, None), now)
  {
    hide Append, CanAppend;
    var id := DeliveryID(webhookID, input, None, entropy);
    var card := Record(webhookID, input.externalKey, IncomingContent(channelID, input), now, now, IncomingState(input));
    var payload := Payload(input.encodedSize, true, Some(CreatedBody(id, card, r.channels[channelID])));
    var notes := r.notifications[id := card];
    assert InsertableNotification(r, id, card);
    AppendLaw(r.(notifications := notes), Created, channelID, webhookID, payload, now);
    CanAppendIgnoresNotifications(r, notes, payload, now);
    CanAppendBySize(r, payload, Payload(input.encodedSize, true, None), now);
  }

  /* ---------- Moving a card ---------- */

  predicate ForwardMove(from: State, to: State)
  {
    (from in {Received, Firing} && to in {Acknowledged, Resolved}) || (from == Acknowledged && to == Resolved)
  }

  /** The moved card has the new state and a later update time; the rest stays. */
  ghost predicate Moves(r: Replica, id: NotificationID, next: State, actorID: string, size: nat, now: int, r': Replica)
  {
    && id in r.notifications && id in r'.notifications
    && var prior, card := r.notifications[id], r'.notifications[id];
    && card == Record(prior.webhookID, prior.externalKey, prior.content, prior.createdAt,
                      if now <= prior.updatedAt then prior.updatedAt + 1 else now, next)
    && AppendsNext(r.(notifications := r.notifications[id := card]), r', StateChanged, prior.content.channelID, actorID,
                   Payload(size, true, Some(Body(id, next, "", "", "", "", "", "", "", "", 0, card.updatedAt))),
                     card.updatedAt)
  }

  /** Exactly when a card may be moved: forward, or as a repeat of its state. */
  ghost predicate MayMove(r: Replica, id: NotificationID, next: State, authorised: bool, size: nat, now: int)
  {
    && id in r.notifications && authorised && next in {Acknowledged, Resolved}
    && var prior := r.notifications[id];
       (prior.state == next ||
        (ForwardMove(prior.state, next) &&
         CanAppend(r, Payload(size, true, None), if now <= prior.updatedAt then prior.updatedAt + 1 else now)))
  }

  /** Whether a move happens and what it does; repeating the state does nothing. */
  ghost predicate MovesIfAllowed(r: Replica, id: NotificationID, next: State, actorID: string, authorised: bool,
                                 size: nat, now: int, ok: bool, s: Replica)
  {
    && (ok <==> MayMove(r, id, next, authorised, size, now))
    && (!ok ==> s == r)
    && (ok ==> if r.notifications[id].state == next then s == r else Moves(r, id, next, actorID, size, now, s))
  }

  lemma MoveLaw(r: Replica, id: NotificationID, next: State, actorID: string, authorised: bool, size: nat, now: int)
    ensures match ChangeState(r, id, next, actorID, authorised, size, now)
            case None => MovesIfAllowed(r, id, next, actorID, authorised, size, now, false, r)
            case Some(s) => MovesIfAllowed(r, id, next, actorID, authorised, size, now, true, s)
  {
    hide Append, CanAppend, AppendsNext;
    if id in r.notifications {
      var prior := r.notifications[id];
      var card := prior.(state := next, updatedAt := if now <= prior.updatedAt then prior.updatedAt + 1 else now);
      var payload := Payload(size, true, Some(Body(id, next, "", "", "", "", "", "", "", "", 0, card.updatedAt)));
      MoveAppendLaw(r, id, card, actorID, payload);
    }
  }

  lemma MoveAppendLaw(r: Replica, id: NotificationID, card: Record, actorID: string, payload: Payload)
    ensures var mid := r.(notifications := r.notifications[id := card]);
            var result := Append(mid, StateChanged, card.content.channelID, actorID, payload, card.updatedAt);
            && (result.Some? <==> CanAppend(r, Payload(payload.size, payload.validJSON, None), card.updatedAt))
            && (result.Some? ==>
                && result.value.notifications == mid.notifications
                && AppendsNext(mid, result.value, StateChanged, card.content.channelID, actorID, payload,
                               card.updatedAt))
  {
    hide Append, CanAppend, AppendsNext;
    var notes := r.notifications[id := card];
    var mid, at := r.(notifications := notes), card.updatedAt;
    AppendLaw(mid, StateChanged, card.content.channelID, actorID, payload, at);
    CanAppendIgnoresNotifications(r, notes, payload, at);
    CanAppendBySize(r, payload, Payload(payload.size, payload.validJSON, None), at);
    var result := Append(mid, StateChanged, card.content.channelID, actorID, payload, at);
    if result.Some? {
      AppendKeepsNotifications(mid, StateChanged, card.content.channelID, actorID, payload, at, result.value);
    }
  }

  /* ---------- Pruning ---------- */

  predicate LetterOrDigit(c: char) { 'a' <= c <= 'z' || 'A' <= c <= 'Z' || '0' <= c <= '9' }

  /** Letters and digits, after the first also dots, underscores and hyphens; 8 to 128 in all. */
  predicate IsIdentity(s: string)
  {
    && 8 <= |s| <= 128 && LetterOrDigit(s[0])
    && forall i :: 0 <= i < |s| ==> LetterOrDigit(s[i]) || s[i] == '.' || s[i] == '_' || s[i] == '-'
  }

  lemma IdentityLaw(s: string)
    ensures ValidIdentity(s) <==> IsIdentity(s)
  {
  }

  /** A range is pruned exactly if something at or above its end is retained. The covered
      envelopes go, the cursor is at least the range's end, nothing else changes. */
  ghost predicate Prunes(r: Replica, origin: string, through: nat, ok: bool, s: Replica)
  {
    && (ok <==>
        && IsIdentity(origin) && through > 0
        && exists k :: k in r.envelopes && k.origin == origin && k.sequence >= through)
    && (!ok ==> s == r)
    && (ok ==>
        && s == r.(cursors := s.cursors, envelopes := s.envelopes)
        && (forall k :: k in s.envelopes <==> k in r.envelopes && (k.origin != origin || k.sequence > through))
        && (forall k :: k in s.envelopes ==> s.envelopes[k] == r.envelopes[k])
        && s.cursors.Keys == r.cursors.Keys + {origin}
        && s.cursors[origin] ==
             (if origin in r.cursors && r.cursors[origin] > through then r.cursors[origin] else through)
        && (forall o :: o in r.cursors && o != origin ==> s.cursors[o] == r.cursors[o]))
  }

  lemma PruneLaw(r: Replica, origin: string, through: nat)
    ensures match Prune(r, origin, through)
            case None => Prunes(r, origin, through, false, r)
            case Some(s) => Prunes(r, origin, through, true, s)
  {
    IdentityLaw(origin);
    hide ValidIdentity, IsIdentity;
    var top := Largest(Retained(r, origin));
    if through > 0 && through <= top {
      assert top in Retained(r, origin);
      assert OpKey(origin, top) in r.envelopes;
    }
    if k :| k in r.envelopes && k.origin == origin && k.sequence >= through {
      assert k.sequence in Retained(r, origin);
    }
  }
}
