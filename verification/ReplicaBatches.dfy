/** How an operation range is cut into batches does not matter. */
module ReplicaBatches {
  import opened Basics
  import opened NotificationRecord
  import opened ReplicaState
  import opened ReplicationCluster

  ghost predicate Contiguous(ops: seq<Operation>, origin: string, first: nat)
  {
    forall i :: 0 <= i < |ops| ==> ops[i].origin == origin && ops[i].sequence == first + i && ops[i].physicalMS > 0
  }

  /** Operations at or below the cursor are still retained and unchanged. */
  ghost predicate StillRetained(r: Replica, origin: string, ops: seq<Operation>)
  {
    forall i :: 0 <= i < |ops| && ops[i].sequence <= CursorRow(r, origin) ==>
      KeyOf(ops[i]) in r.envelopes && SameOperation(r.envelopes[KeyOf(ops[i])], ops[i])
  }

  /** No envelope lies above the cursor: true of every reachable node for every
      origin but itself. */
  ghost predicate NothingAhead(r: Replica, origin: string)
  {
    forall k :: k in r.envelopes && k.origin == origin ==> k.sequence <= CursorRow(r, origin)
  }

  /** A contiguous range that starts at or before the next expected operation. */
  ghost predicate Deliverable(r: Replica, origin: string, first: nat, ops: seq<Operation>)
  {
    && Contiguous(ops, origin, first) && 1 <= first <= CursorRow(r, origin) + 1
    && StillRetained(r, origin, ops) && NothingAhead(r, origin)
  }

  lemma StoreCreatedKeepsTables(r: Replica, op: Operation, body: Body, next: Replica)
    requires StoreCreated(r, op, body) == Effected(next)
    ensures SameReplicationTables(r, next)
  {
    hide InsertableNotification, Join, SameIdentity, BodyRecord;
  }

  lemma PrerequisitesKeepTables(r: Replica, op: Operation, body: Body)
    ensures SameReplicationTables(r, WithWebhook(WithChannel(r, op, body), op))
  {
  }

  lemma CreatedKeepsTables(r: Replica, op: Operation, body: Body, next: Replica)
    requires CreatedEffect(r, op, body) == Effected(next)
    ensures SameReplicationTables(r, next)
  {
    hide StoreCreated, NameTaken, TokenTaken, WithChannel, WithWebhook;
    PrerequisitesKeepTables(r, op, body);
    StoreCreatedKeepsTables(WithWebhook(WithChannel(r, op, body), op), op, body, next);
  }

  lemma EffectKeepsTables(r: Replica, op: Operation, next: Replica)
    requires Effect(r, op) == Effected(next)
    ensures SameReplicationTables(r, next)
  {
    hide CreatedEffect, StateRank, BodyContent;
    if op.kind.Created? {
      CreatedKeepsTables(r, op, op.payload.body.value, next);
    }
  }

  lemma AdvanceStaysDeliverable(r: Replica, mid: Replica, origin: string, first: nat, ops: seq<Operation>)
    requires Deliverable(r, origin, first, ops) && ops != [] && first == CursorRow(r, origin) + 1
    requires SameReplicationTables(r, mid)
    ensures Deliverable(mid.(envelopes := mid.envelopes[KeyOf(ops[0]) := ops[0]],
                             cursors := mid.cursors[origin := ops[0].sequence]),
                        origin, first + 1, ops[1..])
  {
    hide SameOperation;
    var next :=
      mid.(envelopes := mid.envelopes[KeyOf(ops[0]) := ops[0]], cursors := mid.cursors[origin := ops[0].sequence]);
    assert CursorRow(next, origin) == first;
    assert Contiguous(ops[1..], origin, first + 1);
    assert StillRetained(next, origin, ops[1..]);
  }

  lemma NeverRefused(r: Replica, origin: string, first: nat, ops: seq<Operation>)
    requires Deliverable(r, origin, first, ops) && ops != []
    ensures !ApplyOne(r, origin, ops[0]).Refused? && !ApplyOne(r, origin, ops[0]).OutOfOrder?
  {
    if Effect(r, ops[0]).Effected? {
      EffectKeepsTables(r, ops[0], Effect(r, ops[0]).next);
    }
    hide Effect, SameOperation;
  }

  /** What can happen to the head of a deliverable range. */
  lemma HeadStep(r: Replica, origin: string, first: nat, ops: seq<Operation>)
    requires Deliverable(r, origin, first, ops) && ops != []
    ensures match ApplyOne(r, origin, ops[0])
            case Advanced(next) => Deliverable(next, origin, first + 1, ops[1..])
            case Repeated => Deliverable(r, origin, first + 1, ops[1..])
            case Isolated(next) => CursorRow(next, origin) + 1 == first
            case _ => false
  {
    var op := ops[0];
    NeverRefused(r, origin, first, ops);
    match ApplyOne(r, origin, op)
    case Advanced(next) =>
      AdvanceShape(r, origin, op, next);
      EffectKeepsTables(r, op, Effect(r, op).next);
      hide ApplyOne, Effect, StorableEnvelope, SameReplicationTables;
      AdvanceStaysDeliverable(r, Effect(r, op).next, origin, first, ops);
    case Repeated =>
      hide Effect, SameOperation;
      assert Contiguous(ops[1..], origin, first + 1);
    case Isolated(next) =>
      IsolationKeepsTables(r, origin, op, next);
      hide Effect;
    case _ =>
  }

  /** A deliverable batch never rolls back, so neither its starting point nor
      what was taken before shows in the result. */
  lemma {:induction false} NoRollback(start: Replica, other: Replica, r: Replica, taken: set<OpKey>,
                                      taken': set<OpKey>, origin: string, first: nat, ops: seq<Operation>)
    requires Deliverable(r, origin, first, ops)
    ensures ApplyFrom(start, r, taken, origin, ops).replica == ApplyFrom(other, r, taken', origin, ops).replica
    ensures ApplyFrom(start, r, taken, origin, ops).outcome == ApplyFrom(other, r, taken', origin, ops).outcome
    decreases |ops|
  {
    hide Deliverable, ApplyOne;
    if ops != [] {
      HeadStep(r, origin, first, ops);
      match ApplyOne(r, origin, ops[0])
      case Advanced(next) =>
        NoRollback(start, other, next, taken + {KeyOf(ops[0])}, taken' + {KeyOf(ops[0])}, origin, first + 1, ops[1..]);
      case Repeated => NoRollback(start, other, r, taken, taken', origin, first + 1, ops[1..]);
      case Isolated(_) =>
    }
  }

  /** Where a deliverable batch stops: past its last operation, or in front of a
      quarantined one. */
  ghost predicate StoppedAt(r: Replica, origin: string, first: nat, xs: seq<Operation>, ys: seq<Operation>,
                            outcome: Outcome)
  {
    match outcome
    case Committed => Deliverable(r, origin, first + |xs|, ys)
    case Quarantined => CursorRow(r, origin) + 1 < first + |xs|
    case _ => false
  }

  lemma {:induction false} SplitFrom(start: Replica, r: Replica, taken: set<OpKey>, origin: string, first: nat,
                                     xs: seq<Operation>, ys: seq<Operation>)
    requires Deliverable(r, origin, first, xs + ys)
    ensures var head := ApplyFrom(start, r, taken, origin, xs);
            var whole := ApplyFrom(start, r, taken, origin, xs + ys);
            && StoppedAt(head.replica, origin, first, xs, ys, head.outcome)
            && (head.outcome.Committed? ==> whole == ApplyFrom(start, head.replica, head.taken, origin, ys))
            && (head.outcome.Quarantined? ==> whole == head)
    decreases |xs|
  {
    hide Deliverable, ApplyOne;
    if xs == [] {
      assert xs + ys == ys;
    } else {
      var ops := xs + ys;
      assert ops[0] == xs[0] && ops[1..] == xs[1..] + ys;
      HeadStep(r, origin, first, ops);
      match ApplyOne(r, origin, xs[0])
      case Advanced(next) => SplitFrom(start, next, taken + {KeyOf(xs[0])}, origin, first + 1, xs[1..], ys);
      case Repeated => SplitFrom(start, r, taken, origin, first + 1, xs[1..], ys);
      case Isolated(_) =>
    }
  }

  /** A batch that starts beyond the next expected operation changes nothing. */
  lemma AheadIsIgnored(r: Replica, origin: string, first: nat, ops: seq<Operation>)
    requires Contiguous(ops, origin, first) && first > CursorRow(r, origin) + 1
    ensures ApplyBatch(r, ops).replica == r
  {
  }

  lemma SplitOnce(r: Replica, origin: string, first: nat, xs: seq<Operation>, ys: seq<Operation>)
    requires Deliverable(r, origin, first, xs + ys)
    ensures ApplyBatch(r, xs + ys).replica == ApplyBatch(ApplyBatch(r, xs).replica, ys).replica
    ensures StoppedAt(ApplyBatch(r, xs).replica, origin, first, xs, ys, ApplyBatch(r, xs).outcome)
  {
    if xs == [] {
      assert xs + ys == ys;
    } else {
      assert (xs + ys)[0] == xs[0] && xs[0].origin == origin;
      var head := ApplyFrom(r, r, {}, origin, xs);
      SplitFrom(r, r, {}, origin, first, xs, ys);
      ContiguousTail(xs, ys, origin, first);
      if ys == [] {
        assert xs + ys == xs;
      } else if head.outcome.Committed? {
        assert ys[0].origin == origin;
        hide Deliverable, ApplyOne, ApplyFrom;
        NoRollback(r, head.replica, head.replica, head.taken, {}, origin, first + |xs|, ys);
      } else {
        hide ApplyOne, ApplyFrom;
        AheadIsIgnored(head.replica, origin, first + |xs|, ys);
      }
    }
  }

  /** Apply the batches one after the other, whatever their outcomes. */
  function ApplyEach(r: Replica, batches: seq<seq<Operation>>): Replica
    decreases |batches|
  {
    if batches == [] then r else ApplyEach(ApplyBatch(r, batches[0]).replica, batches[1..])
  }

  lemma {:induction false} AllAheadIgnored(r: Replica, origin: string, first: nat, batches: seq<seq<Operation>>)
    requires Contiguous(Flatten(batches), origin, first) && first > CursorRow(r, origin) + 1
    ensures ApplyEach(r, batches) == r
    decreases |batches|
  {
    if batches != [] {
      var head, rest := batches[0], Flatten(batches[1..]);
      ContiguousTail(head, rest, origin, first);
      AheadIsIgnored(r, origin, first, head);
      AllAheadIgnored(r, origin, first + |head|, batches[1..]);
    }
  }

  lemma ContiguousTail(xs: seq<Operation>, ys: seq<Operation>, origin: string, first: nat)
    requires Contiguous(xs + ys, origin, first)
    ensures Contiguous(xs, origin, first) && Contiguous(ys, origin, first + |xs|)
  {
    assert forall i :: 0 <= i < |xs| ==> xs[i] == (xs + ys)[i];
    assert forall i :: 0 <= i < |ys| ==> ys[i] == (xs + ys)[|xs| + i];
  }

  /** Any cut of a contiguous range into batches leaves the same notifications,
      envelopes, cursors and quarantine, with a quarantined operation inside or
      without. */
  lemma {:induction false} BatchingIsIrrelevant(r: Replica, origin: string, first: nat, batches: seq<seq<Operation>>)
    requires Deliverable(r, origin, first, Flatten(batches))
    ensures ApplyEach(r, batches) == ApplyBatch(r, Flatten(batches)).replica
    decreases |batches|
  {
    if batches != [] {
      var head, rest := batches[0], Flatten(batches[1..]);
      assert Contiguous(Flatten(batches), origin, first);
      hide Deliverable, ApplyBatch, CursorRow;
      ContiguousTail(head, rest, origin, first);
      SplitOnce(r, origin, first, head, rest);
      var result := ApplyBatch(r, head);
      assert Flatten(batches) == head + rest && ApplyEach(r, batches) == ApplyEach(result.replica, batches[1..]);
      assert result.outcome.Committed? ==> Deliverable(result.replica, origin, first + |head|, rest);
      assert !result.outcome.Committed? ==> CursorRow(result.replica, origin) + 1 < first + |head|;
      hide *;
      if result.outcome.Committed? {
        BatchingIsIrrelevant(result.replica, origin, first + |head|, batches[1..]);
      } else {
        AllAheadIgnored(result.replica, origin, first + |head|, batches[1..]);
        AheadIsIgnored(result.replica, origin, first + |head|, rest);
      }
    }
  }

  /** A batch of operations at or below the cursor commits without a change exactly if
      every one of them is still retained as it was; otherwise the whole batch fails. */
  lemma {:induction false} RedeliveryFrom(start: Replica, r: Replica, taken: set<OpKey>, origin: string,
                                          ops: seq<Operation>)
    requires Redelivered(r, origin, ops)
    ensures ApplyFrom(start, r, taken, origin, ops) ==
            if StillRetained(r, origin, ops) then BatchResult(r, Committed, taken) else BatchResult(start, Failed, {})
    decreases |ops|
  {
    if ops != [] {
      var kept := KeyOf(ops[0]) in r.envelopes && SameOperation(r.envelopes[KeyOf(ops[0])], ops[0]);
      assert ApplyOne(r, origin, ops[0]) == if kept then Repeated else Refused;
      RetainedTail(r, origin, ops);
      hide ApplyOne, SameOperation, StillRetained;
      RedeliveryFrom(start, r, taken, origin, ops[1..]);
    }
  }

  ghost predicate Redelivered(r: Replica, origin: string, ops: seq<Operation>)
  {
    forall i :: 0 <= i < |ops| ==> ops[i].origin == origin && 1 <= ops[i].sequence <= CursorRow(r, origin)
  }

  lemma RetainedTail(r: Replica, origin: string, ops: seq<Operation>)
    requires ops != [] && Redelivered(r, origin, ops)
    ensures StillRetained(r, origin, ops) <==>
            && KeyOf(ops[0]) in r.envelopes && SameOperation(r.envelopes[KeyOf(ops[0])], ops[0])
            && StillRetained(r, origin, ops[1..])
  {
    hide SameOperation;
    assert forall i :: 1 <= i < |ops| ==> ops[i] == ops[1..][i - 1];
    if StillRetained(r, origin, ops) {
      forall i | 0 <= i < |ops[1..]|
        ensures KeyOf(ops[1..][i]) in r.envelopes && SameOperation(r.envelopes[KeyOf(ops[1..][i])], ops[1..][i])
      {
        assert ops[1..][i] == ops[i + 1];
      }
    }
  }

  /** Redelivery changes nothing in any case, and succeeds iff nothing of it was pruned
      or differs. */
  lemma RedeliveryCommitsIffRetained(r: Replica, origin: string, ops: seq<Operation>)
    requires Redelivered(r, origin, ops)
    ensures ApplyBatch(r, ops) == BatchResult(r, if StillRetained(r, origin, ops) then Committed else Failed, {})
  {
    RedeliveryFrom(r, r, {}, origin, ops);
  }

  /** Applied and still retained operations, in any order and number, change nothing. */
  lemma RedeliveryChangesNothing(r: Replica, origin: string, ops: seq<Operation>)
    requires Redelivered(r, origin, ops) && StillRetained(r, origin, ops)
    ensures ApplyBatch(r, ops) == BatchResult(r, Committed, {})
  {
    RedeliveryCommitsIffRetained(r, origin, ops);
  }

  /** The other half of BatchingIsIrrelevant: a contiguous range with an operation at or
      below the cursor that is no longer retained fails as a whole. */
  lemma {:induction false} PrunedRangeFails(start: Replica, r: Replica, taken: set<OpKey>, origin: string, first: nat,
                                            ops: seq<Operation>)
    requires Contiguous(ops, origin, first) && 1 <= first && !StillRetained(r, origin, ops)
    ensures ApplyFrom(start, r, taken, origin, ops) == BatchResult(start, Failed, {})
    decreases |ops|
  {
    hide SameOperation;
    var i :| 0 <= i < |ops| && ops[i].sequence <= CursorRow(r, origin) &&
      !(KeyOf(ops[i]) in r.envelopes && SameOperation(r.envelopes[KeyOf(ops[i])], ops[i]));
    assert ops[0].sequence == first && ops[0].origin == origin;
    if ApplyOne(r, origin, ops[0]) == Repeated {
      assert i > 0 && ops[1..][i - 1] == ops[i];
      PrunedRangeFails(start, r, taken, origin, first + 1, ops[1..]);
    }
  }

  lemma RefusedAtOnce(r: Replica, op: Operation, rest: seq<Operation>)
    requires 1 <= op.sequence <= CursorRow(r, op.origin) && KeyOf(op) !in r.envelopes
    ensures ApplyBatch(r, [op] + rest) == BatchResult(r, Failed, {})
  {
    var ops := [op] + rest;
    assert ops[0] == op && ApplyOne(r, op.origin, op) == Refused;
  }

  lemma OneOperation(r: Replica, op: Operation, next: Replica)
    requires ApplyOne(r, op.origin, op) == Advanced(next)
    ensures ApplyBatch(r, [op]) == BatchResult(next, Committed, {KeyOf(op)})
  {
    hide ApplyOne;
    var taken: set<OpKey> := {};
    assert taken + {KeyOf(op)} == {KeyOf(op)} && [op][1..] == [];
    assert ApplyFrom(r, r, taken, op.origin, [op]) == ApplyFrom(r, next, {KeyOf(op)}, op.origin, [op][1..]);
  }

  lemma TwoBatches(r: Replica, x: seq<Operation>, y: seq<Operation>)
    ensures ApplyEach(r, [x, y]) == ApplyBatch(ApplyBatch(r, x).replica, y).replica
  {
    hide ApplyBatch;
    var mid := ApplyBatch(r, x).replica;
    assert [x, y][1..] == [y] && [y][1..] == [];
    assert ApplyEach(mid, [y]) == ApplyEach(ApplyBatch(mid, y).replica, []);
  }

  /** There the cut matters: the batch with the pruned operation fails, the next one is
      applied, while both in one batch change nothing. */
  lemma CutMattersAfterPrune(r: Replica, pruned: Operation, next: Operation, after: Replica)
    requires 1 <= pruned.sequence <= CursorRow(r, pruned.origin) && KeyOf(pruned) !in r.envelopes
    requires ApplyOne(r, next.origin, next) == Advanced(after)
    ensures ApplyBatch(r, [pruned, next]).replica == r
    ensures ApplyEach(r, [[pruned], [next]]) == after != r
  {
    AdvanceShape(r, next.origin, next, after);
    hide ApplyOne, ApplyBatch, ApplyEach;
    RefusedAtOnce(r, pruned, [next]);
    RefusedAtOnce(r, pruned, []);
    assert [pruned] + [next] == [pruned, next] && [pruned] + [] == [pruned];
    OneOperation(r, next, after);
    TwoBatches(r, [pruned], [next]);
  }

  /** Such a node and such operations exist. */
  lemma PrunedCut() returns (r: Replica, pruned: Operation, next: Operation)
    ensures ApplyEach(r, [[pruned], [next]]) != ApplyBatch(r, [pruned, next]).replica
  {
    r := Replica("cluster-1", "node-c", map[], map[], map[], map[], map["node-b" := 1], map[]);
    var body := Body(RandomID(0), Firing, "", "", "", "", "", "", "", "name", 1, 1);
    next := Operation(PROTOCOL_VERSION, "cluster-1", "node-b", 2, 1, 0, Created, "channel", "webhook",
                      Payload(10, true, Some(body)), 1);
    pruned := next.(sequence := 1);
    assert InsertableNotification(WithWebhook(WithChannel(r, next, body), next), RandomID(0), BodyRecord(next, body));
    assert Effect(r, next).Effected?;
    var step := ApplyOne(r, "node-b", next);
    assert step.Advanced?;
    hide ApplyOne, ApplyBatch, ApplyEach, Effect;
    CutMattersAfterPrune(r, pruned, next, step.next);
  }

  /** Reachable nodes meet the side condition for every origin but themselves. */
  lemma ReachableHasNothingAhead(run: Run, i: nat, node: string, origin: string)
    requires ValidRun(run) && i < |run.states| && node in run.states[i].replicas && origin != node
    ensures NothingAhead(run.states[i].replicas[node], origin)
  {
    RunKeepsInv(run, i);
    assert ReplicaOK(run.states[i].log, run.states[i].replicas[node], run.states[i].processed[node]);
  }
}
