/** The pull loop: bring every origin a peer advertises up to the advertised
    mark, with one snapshot as the fallback for a range the peer has pruned. */
module PeerSync {
  import opened Basics
  import opened NotificationRecord
  import opened ReplicaState
  import opened ReplicationCluster
  import opened ReplicaBatches
  import opened ReplicaStore

  /** A peer as its answers: `fetch` and `offer` may answer differently on every
      round, or fail (None). */
  datatype Peer = Peer(clusterID: string, nodeID: string, hostname: string, origins: map<string, nat>,
                       fetch: (nat, string, nat) -> Option<seq<Operation>>,
                       offer: nat -> Option<Snapshot>)

  /** Every range answer is strictly ascending and above the asked position. */
  ghost predicate AscendingAnswers(peer: Peer)
  {
    forall round: nat, origin: string, after: nat ::
      peer.fetch(round, origin, after).Some? ==> AscendingAbove(peer.fetch(round, origin, after).value, after)
  }

  ghost predicate AscendingAbove(ops: seq<Operation>, after: nat)
  {
    && (forall i :: 0 <= i < |ops| ==> ops[i].sequence > after)
    && (forall i, j :: 0 <= i < j < |ops| ==> ops[i].sequence < ops[j].sequence)
  }

  /** Every range answer is about the origin that was asked for. */
  ghost predicate AnswersTheQuestion(peer: Peer)
  {
    forall round: nat, origin: string, after: nat ::
      peer.fetch(round, origin, after).Some? ==> OfOrigin(peer.fetch(round, origin, after).value, origin)
  }

  ghost predicate OfOrigin(ops: seq<Operation>, origin: string)
  {
    forall i :: 0 <= i < |ops| ==> ops[i].origin == origin
  }

  datatype SyncError =
    | IdentityMismatch | HostnameMismatch | FetchFailed | SnapshotFailed
    | IncompleteAfterSnapshot | GapAfterSnapshot | ApplyFailed(outcome: Outcome)

  datatype SyncResult = Synced | SyncFailed(error: SyncError)

  /** Failures in which the local node refused what it was given, or the peer is not the
      one it should be; nothing is missing on the peer's side. */
  predicate IsRefusal(e: SyncError)
  {
    || e == IdentityMismatch || e == HostnameMismatch || e == SnapshotFailed
    || e == ApplyFailed(Quarantined) || e == ApplyFailed(Failed)
  }

  ghost predicate AlwaysAnswers(peer: Peer)
  {
    && (forall round: nat, origin: string, after: nat :: peer.fetch(round, origin, after).Some?)
    && (forall round: nat :: peer.offer(round).Some?)
  }

  /** A snapshot that covers every mark the peer advertises. */
  ghost predicate Covering(peer: Peer, snapshot: Snapshot)
  {
    forall o :: o in peer.origins ==> o in snapshot.body.cursors && snapshot.body.cursors[o] >= peer.origins[o]
  }

  /** The peer answers every request and its snapshots cover its marks. */
  ghost predicate Complete(peer: Peer)
  {
    && AlwaysAnswers(peer)
    && forall round: nat :: peer.offer(round).Some? ==> Covering(peer, peer.offer(round).value)
  }

  /** Every advertised mark is reached. */
  ghost predicate ReachesAll(peer: Peer, r: Replica)
  {
    forall o :: o in peer.origins ==> HighWater(r, o) >= peer.origins[o]
  }

  /* ---------- Marks never go back ---------- */

  ghost predicate NoRowLost(r: Replica, r': Replica)
  {
    && (forall k :: k in r.envelopes ==> k in r'.envelopes)
    && (forall o :: CursorRow(r', o) >= CursorRow(r, o))
  }

  lemma NoRowLostKeepsMarks(r: Replica, r': Replica)
    requires NoRowLost(r, r')
    ensures forall o :: HighWater(r', o) >= HighWater(r, o)
  {
  }

  lemma AdvanceLosesNothing(r: Replica, origin: string, op: Operation, next: Replica)
    requires ApplyOne(r, origin, op) == Advanced(next)
    ensures NoRowLost(r, next) && CursorRow(next, origin) == op.sequence && op.origin == origin
  {
    AdvanceShape(r, origin, op, next);
    EffectKeepsTables(r, op, Effect(r, op).next);
    hide ApplyOne, Effect, StorableEnvelope;
  }

  /** A batch loses no row, and if it commits the cursor is past all of it. */
  lemma {:induction false} BatchAdvances(start: Replica, r: Replica, taken: set<OpKey>, origin: string,
                                         ops: seq<Operation>)
    requires NoRowLost(start, r)
    ensures var result := ApplyFrom(start, r, taken, origin, ops);
            && NoRowLost(start, result.replica)
            && (result.outcome.Committed? ==>
                  && CursorRow(result.replica, origin) >= CursorRow(r, origin)
                  && forall i :: 0 <= i < |ops| ==> ops[i].sequence <= CursorRow(result.replica, origin))
    decreases |ops|
  {
    if ops != [] {
      match ApplyOne(r, origin, ops[0])
      case Advanced(next) =>
        AdvanceLosesNothing(r, origin, ops[0], next);
        hide ApplyOne;
        BatchAdvances(start, next, taken + {KeyOf(ops[0])}, origin, ops[1..]);
      case Repeated =>
        assert ops[0].sequence <= CursorRow(r, origin);
        hide ApplyOne;
        BatchAdvances(start, r, taken, origin, ops[1..]);
      case Isolated(next) =>
        IsolationKeepsTables(r, origin, ops[0], next);
        hide ApplyOne;
      case _ =>
    }
  }

  lemma SnapshotLosesNothing(r: Replica, snapshot: Snapshot, now: int, r': Replica)
    requires ApplySnapshot(r, snapshot, now) == Some(r')
    ensures NoRowLost(r, r')
  {
    SnapshotShape(r, snapshot, now, r');
    hide ApplySnapshot;
  }

  /** One merged snapshot of a complete peer reaches every mark. */
  lemma SnapshotReachesAll(peer: Peer, r: Replica, snapshot: Snapshot, now: int, r': Replica)
    requires ApplySnapshot(r, snapshot, now) == Some(r') && Covering(peer, snapshot)
    ensures ReachesAll(peer, r')
  {
    SnapshotShape(r, snapshot, now, r');
    hide ApplySnapshot;
    forall o | o in peer.origins ensures HighWater(r', o) >= peer.origins[o] {
      assert CursorRow(r', o) >= snapshot.body.cursors[o];
    }
  }

  lemma ReachesAllStays(peer: Peer, r: Replica, r': Replica)
    requires ReachesAll(peer, r) && NoRowLost(r, r')
    ensures ReachesAll(peer, r')
  {
    NoRowLostKeepsMarks(r, r');
  }

  /** No row of the origin lies above n. */
  ghost predicate Within(r: Replica, origin: string, n: nat)
  {
    CursorRow(r, origin) <= n && forall k :: k in r.envelopes && k.origin == origin ==> k.sequence <= n
  }

  lemma WithinIsMark(r: Replica, origin: string, n: nat)
    ensures Within(r, origin, n) <==> HighWater(r, origin) <= n
  {
  }

  lemma AdvanceStaysWithin(r: Replica, origin: string, op: Operation, next: Replica, o: string, n: nat)
    requires ApplyOne(r, origin, op) == Advanced(next) && Within(r, o, n) && (op.origin == o ==> op.sequence <= n)
    ensures Within(next, o, n)
  {
    AdvanceShape(r, origin, op, next);
    EffectKeepsTables(r, op, Effect(r, op).next);
    hide ApplyOne, Effect, StorableEnvelope;
  }

  lemma {:induction false} BatchStaysWithin(start: Replica, r: Replica, taken: set<OpKey>, origin: string,
                                            ops: seq<Operation>, o: string, n: nat)
    requires Within(start, o, n) && Within(r, o, n)
    requires forall i :: 0 <= i < |ops| && ops[i].origin == o ==> ops[i].sequence <= n
    ensures Within(ApplyFrom(start, r, taken, origin, ops).replica, o, n)
    decreases |ops|
  {
    if ops != [] {
      var step := ApplyOne(r, origin, ops[0]);
      hide ApplyOne;
      match step
      case Advanced(next) =>
        AdvanceStaysWithin(r, origin, ops[0], next, o, n);
        BatchStaysWithin(start, next, taken + {KeyOf(ops[0])}, origin, ops[1..], o, n);
      case Repeated =>
        BatchStaysWithin(start, r, taken, origin, ops[1..], o, n);
      case Isolated(next) =>
        IsolationKeepsTables(r, origin, ops[0], next);
      case _ =>
    }
  }

  /** A committed answer about the asked origin puts its mark exactly at the answer's end. */
  lemma CommittedMark(r: Replica, origin: string, ops: seq<Operation>)
    requires ops != [] && AscendingAbove(ops, HighWater(r, origin)) && OfOrigin(ops, origin)
    requires ApplyBatch(r, ops).outcome.Committed?
    ensures HighWater(ApplyBatch(r, ops).replica, origin) == ops[|ops| - 1].sequence
  {
    var last := ops[|ops| - 1].sequence;
    BatchMarks(r, ops);
    WithinIsMark(r, origin, last);
    WithinIsMark(ApplyBatch(r, ops).replica, origin, last);
    hide HighWater, Within;
    BatchStaysWithin(r, r, {}, origin, ops, origin, last);
  }

  /* ---------- What a visit does ---------- */

  /** One change of the local tables during a visit. */
  datatype Move = BatchMove(ops: seq<Operation>) | SnapshotMove(snapshot: Snapshot, now: int)

  function Perform(r: Replica, m: Move): Replica
  {
    match m
    case BatchMove(ops) => ApplyBatch(r, ops).replica
    case SnapshotMove(snapshot, now) =>
      var merged := ApplySnapshot(r, snapshot, now);
      if merged.Some? then merged.value else r
  }

  function Replay(r: Replica, moves: seq<Move>): Replica
  {
    if moves == [] then r else Perform(Replay(r, moves[..|moves| - 1]), moves[|moves| - 1])
  }

  /** The peer gave this answer. */
  ghost predicate Answered(peer: Peer, m: Move)
  {
    match m
    case BatchMove(ops) =>
      exists round: nat, origin: string, after: nat :: peer.fetch(round, origin, after) == Some(ops)
    case SnapshotMove(snapshot, _) => exists round: nat :: peer.offer(round) == Some(snapshot)
  }

  ghost predicate FromPeer(peer: Peer, moves: seq<Move>)
  {
    forall i :: 0 <= i < |moves| ==> Answered(peer, moves[i])
  }

  /** The moves, all answers of the peer, lead from one state of the tables to the other. */
  ghost predicate Leads(peer: Peer, r: Replica, moves: seq<Move>, r': Replica)
  {
    FromPeer(peer, moves) && Replay(r, moves) == r'
  }

  lemma NoMoves(peer: Peer, r: Replica)
    ensures Leads(peer, r, [], r)
  {
  }

  lemma OneMoreMove(peer: Peer, r: Replica, moves: seq<Move>, r': Replica, m: Move)
    requires Leads(peer, r, moves, r') && Answered(peer, m)
    ensures Leads(peer, r, moves + [m], Perform(r', m))
  {
    hide Perform, Answered;
    assert (moves + [m])[..|moves|] == moves;
  }

  lemma {:induction false} MovesChain(peer: Peer, r: Replica, moves: seq<Move>, mid: Replica, more: seq<Move>,
                                      r': Replica)
    requires Leads(peer, r, moves, mid) && Leads(peer, mid, more, r')
    ensures Leads(peer, r, moves + more, r')
    decreases |more|
  {
    hide Perform, Answered;
    if more == [] {
      assert moves + more == moves;
    } else {
      var n := |more| - 1;
      MovesChain(peer, r, moves, mid, more[..n], Replay(mid, more[..n]));
      assert (moves + more)[..|moves + more| - 1] == moves + more[..n];
    }
  }

  /* ---------- Why a visit does it ---------- */

  /** The tables are behind the peer on this origin. */
  ghost predicate Behind(peer: Peer, r: Replica, origin: string)
  {
    origin in peer.origins && HighWater(r, origin) < peer.origins[origin]
  }

  /** The answer to the request for what follows the local mark. */
  ghost function NextAnswer(peer: Peer, r: Replica, round: nat, origin: string): Option<seq<Operation>>
  {
    peer.fetch(round, origin, HighWater(r, origin))
  }

  /** An answer continues the local mark. */
  ghost predicate Continues(r: Replica, origin: string, ops: seq<Operation>)
  {
    ops != [] && ops[0].sequence == HighWater(r, origin) + 1
  }

  /** The range is the peer's answer for an origin the tables are behind on, and continues it. */
  ghost predicate Asked(peer: Peer, r: Replica, ops: seq<Operation>)
  {
    exists round: nat, origin: string ::
      Behind(peer, r, origin) && NextAnswer(peer, r, round, origin) == Some(ops) && Continues(r, origin, ops)
  }

  /** For an origin the tables are behind on, the answer does not continue the local mark. */
  ghost predicate Missing(peer: Peer, r: Replica)
  {
    exists round: nat, origin: string ::
      && Behind(peer, r, origin) && NextAnswer(peer, r, round, origin).Some?
      && !Continues(r, origin, NextAnswer(peer, r, round, origin).value)
  }

  ghost predicate NoAnswer(peer: Peer, r: Replica)
  {
    exists round: nat, origin: string :: Behind(peer, r, origin) && NextAnswer(peer, r, round, origin).None?
  }

  /** A range is missing, or the last one left a gap. */
  ghost predicate NeedsSnapshot(peer: Peer, r: Replica, moves: seq<Move>)
  {
    Missing(peer, Replay(r, moves)) || LastOutcome(r, moves, Gap)
  }

  /** The last move was a range with this outcome. */
  ghost predicate LastOutcome(r: Replica, moves: seq<Move>, outcome: Outcome)
  {
    && moves != [] && moves[|moves| - 1].BatchMove?
    && ApplyBatch(Replay(r, moves[..|moves| - 1]), moves[|moves| - 1].ops).outcome == outcome
  }

  /** The last move was a snapshot that the tables refused. */
  ghost predicate LastRefused(r: Replica, moves: seq<Move>, now: int)
  {
    && moves != [] && moves[|moves| - 1].SnapshotMove? && moves[|moves| - 1].now == now
    && ApplySnapshot(Replay(r, moves[..|moves| - 1]), moves[|moves| - 1].snapshot, now).None?
  }

  /** Every range was asked for where the tables stood, every snapshot was needed. */
  ghost predicate Story(peer: Peer, r: Replica, moves: seq<Move>)
  {
    forall i :: 0 <= i < |moves| ==>
      if moves[i].BatchMove? then Asked(peer, Replay(r, moves[..i]), moves[i].ops)
      else NeedsSnapshot(peer, r, moves[..i])
  }

  ghost predicate NoSnapshots(moves: seq<Move>)
  {
    forall i :: 0 <= i < |moves| ==> moves[i].BatchMove?
  }

  /** Every failure has its cause in the answers and the tables they met. */
  ghost predicate FailureReason(peer: Peer, r: Replica, moves: seq<Move>, now: int, e: SyncError)
  {
    match e
    case FetchFailed => NoAnswer(peer, Replay(r, moves))
    case SnapshotFailed =>
      || (NeedsSnapshot(peer, r, moves) && exists round: nat :: peer.offer(round).None?)
      || LastRefused(r, moves, now)
    case ApplyFailed(outcome) => outcome != Committed && LastOutcome(r, moves, outcome)
    case IncompleteAfterSnapshot => Missing(peer, Replay(r, moves))
    case GapAfterSnapshot => Missing(peer, Replay(r, moves))
    case IdentityMismatch => false
    case HostnameMismatch => false
  }

  lemma {:induction false} ReplayChain(r: Replica, moves: seq<Move>, more: seq<Move>)
    ensures Replay(r, moves + more) == Replay(Replay(r, moves), more)
    decreases |more|
  {
    hide Perform;
    if more == [] {
      assert moves + more == moves;
    } else {
      var n := |more| - 1;
      ReplayChain(r, moves, more[..n]);
      assert (moves + more)[..|moves + more| - 1] == moves + more[..n];
    }
  }

  lemma LastOutcomeChain(r: Replica, moves: seq<Move>, more: seq<Move>, outcome: Outcome)
    requires LastOutcome(Replay(r, moves), more, outcome)
    ensures LastOutcome(r, moves + more, outcome)
  {
    hide Replay, ApplyBatch;
    var n := |more| - 1;
    ReplayChain(r, moves, more[..n]);
    assert (moves + more)[..|moves + more| - 1] == moves + more[..n];
  }

  lemma LastRefusedChain(r: Replica, moves: seq<Move>, more: seq<Move>, now: int)
    requires LastRefused(Replay(r, moves), more, now)
    ensures LastRefused(r, moves + more, now)
  {
    hide Replay, ApplySnapshot;
    var n := |more| - 1;
    ReplayChain(r, moves, more[..n]);
    assert (moves + more)[..|moves + more| - 1] == moves + more[..n];
  }

  lemma NeedsChain(peer: Peer, r: Replica, moves: seq<Move>, more: seq<Move>)
    requires NeedsSnapshot(peer, Replay(r, moves), more)
    ensures NeedsSnapshot(peer, r, moves + more)
  {
    hide Missing, Replay, LastOutcome;
    ReplayChain(r, moves, more);
    if LastOutcome(Replay(r, moves), more, Gap) {
      LastOutcomeChain(r, moves, more, Gap);
    }
  }

  lemma FailureChain(peer: Peer, r: Replica, moves: seq<Move>, more: seq<Move>, now: int, e: SyncError)
    requires FailureReason(peer, Replay(r, moves), more, now, e)
    ensures FailureReason(peer, r, moves + more, now, e)
  {
    hide Missing, NoAnswer, NeedsSnapshot, LastOutcome, LastRefused, Replay;
    ReplayChain(r, moves, more);
    match e
    case SnapshotFailed =>
      if NeedsSnapshot(peer, Replay(r, moves), more) { NeedsChain(peer, r, moves, more); }
      if LastRefused(Replay(r, moves), more, now) { LastRefusedChain(r, moves, more, now); }
    case ApplyFailed(outcome) => LastOutcomeChain(r, moves, more, outcome);
    case _ =>
  }

  lemma StoryChain(peer: Peer, r: Replica, moves: seq<Move>, more: seq<Move>)
    requires Story(peer, r, moves) && Story(peer, Replay(r, moves), more)
    ensures Story(peer, r, moves + more)
  {
    hide Asked, NeedsSnapshot, Replay;
    var all := moves + more;
    forall i | 0 <= i < |all|
      ensures if all[i].BatchMove? then Asked(peer, Replay(r, all[..i]), all[i].ops)
              else NeedsSnapshot(peer, r, all[..i])
    {
      if i < |moves| {
        assert all[..i] == moves[..i] && all[i] == moves[i];
      } else {
        var k := i - |moves|;
        assert all[..i] == moves + more[..k] && all[i] == more[k];
        ReplayChain(r, moves, more[..k]);
        if more[k].SnapshotMove? {
          NeedsChain(peer, r, moves, more[..k]);
        }
      }
    }
  }

  lemma NoSnapshotsChain(moves: seq<Move>, more: seq<Move>)
    ensures NoSnapshots(moves + more) <==> NoSnapshots(moves) && NoSnapshots(more)
  {
    if NoSnapshots(moves + more) {
      assert forall i :: 0 <= i < |moves| ==> moves[i] == (moves + more)[i];
      assert forall i :: 0 <= i < |more| ==> more[i] == (moves + more)[|moves| + i];
    }
  }

  /* ---------- The loop ---------- */

  lemma OneBatch(r: Replica, ops: seq<Operation>)
    ensures Replay(r, [BatchMove(ops)]) == ApplyBatch(r, ops).replica
    ensures LastOutcome(r, [BatchMove(ops)], ApplyBatch(r, ops).outcome)
  {
    hide ApplyBatch;
    assert [BatchMove(ops)][..0] == [];
  }

  /** The first answer of a round, in terms of the local mark. */
  lemma FirstAnswer(peer: Peer, r: Replica, origin: string, cursor: nat, round: nat)
    requires origin in peer.origins && cursor == HighWater(r, origin) < peer.origins[origin]
    ensures peer.fetch(round, origin, cursor).None? ==> NoAnswer(peer, r)
    ensures var answer := peer.fetch(round, origin, cursor);
            answer.Some? ==>
              if answer.value != [] && answer.value[0].sequence == cursor + 1 then Asked(peer, r, answer.value)
              else Missing(peer, r)
  {
    hide HighWater;
    assert Behind(peer, r, origin);
    var answer := NextAnswer(peer, r, round, origin);
    assert answer == peer.fetch(round, origin, cursor);
    if answer.Some? {
      assert Continues(r, origin, answer.value) <==> answer.value != [] && answer.value[0].sequence == cursor + 1;
    }
  }

  lemma StoryOfOne(peer: Peer, r: Replica, m: Move)
    requires if m.BatchMove? then Asked(peer, r, m.ops) else NeedsSnapshot(peer, r, [])
    ensures Story(peer, r, [m])
  {
    hide Asked, NeedsSnapshot;
    assert [m][..0] == [] && Replay(r, []) == r;
  }

  lemma StoryOfBatchAndSnapshot(peer: Peer, r: Replica, ops: seq<Operation>, m: Move)
    requires Asked(peer, r, ops) && m.SnapshotMove? && ApplyBatch(r, ops).outcome == Gap
    ensures Story(peer, r, [BatchMove(ops), m])
  {
    OneBatch(r, ops);
    hide Asked, LastOutcome, ApplyBatch, Missing;
    var moves := [BatchMove(ops), m];
    assert moves[..0] == [] && moves[..1] == [BatchMove(ops)] && Replay(r, []) == r;
    assert NeedsSnapshot(peer, r, moves[..1]);
  }

  /** Fetch and merge one snapshot. */
  method FallBackToSnapshot(local: Store, peer: Peer, round: nat, now: int) returns (ok: bool, ghost moves: seq<Move>)
    modifies local
    ensures Leads(peer, old(local.Tables()), moves, local.Tables())
    ensures NoRowLost(old(local.Tables()), local.Tables())
    ensures old(local.Valid()) ==> local.Valid()
    ensures ok && Complete(peer) ==> ReachesAll(peer, local.Tables())
    ensures moves == match peer.offer(round) case None => [] case Some(snapshot) => [SnapshotMove(snapshot, now)]
    ensures ok <==> peer.offer(round).Some? &&
                    ApplySnapshot(old(local.Tables()), peer.offer(round).value, now).Some?
    ensures !ok ==> local.Tables() == old(local.Tables())
  {
    var offered := peer.offer(round);
    ghost var before := local.Tables();
    NoMoves(peer, before);
    if offered.None? {
      return false, [];
    }
    moves := [SnapshotMove(offered.value, now)];
    OneMoreMove(peer, before, [], before, SnapshotMove(offered.value, now));
    ok := local.ApplyReplicationSnapshot(offered.value, now);
    if ok {
      if Complete(peer) {
        SnapshotReachesAll(peer, before, offered.value, now, local.Tables());
      }
      SnapshotLosesNothing(before, offered.value, now, local.Tables());
      SnapshotShape(before, offered.value, now, local.Tables());
    }
  }

  /** The answer begins right after the cursor and is quarantined. */
  ghost predicate QuarantinedAt(peer: Peer, r: Replica, origin: string, cursor: nat, round: nat)
  {
    var answer := peer.fetch(round, origin, cursor);
    && answer.Some? && answer.value != [] && answer.value[0].sequence == cursor + 1
    && ApplyBatch(r, answer.value).outcome == Quarantined
  }

  /** The local mark is behind and the first answer is quarantined. */
  ghost predicate Stalls(peer: Peer, r: Replica, origin: string, high: nat, round: nat)
  {
    HighWater(r, origin) < high && QuarantinedAt(peer, r, origin, HighWater(r, origin), round)
  }

  /** The story of a round and, if it fails, the reason. */
  ghost predicate Told(peer: Peer, r: Replica, moves: seq<Move>, now: int, error: Option<SyncError>)
  {
    Story(peer, r, moves) && (error.Some? ==> FailureReason(peer, r, moves, now, error.value))
  }

  /** A range in its place: applied, and what then. */
  lemma RangeIsTold(peer: Peer, r: Replica, ops: seq<Operation>, now: int)
    requires Asked(peer, r, ops)
    ensures Told(peer, r, [BatchMove(ops)], now, None)
    ensures ApplyBatch(r, ops).outcome != Committed ==>
              Told(peer, r, [BatchMove(ops)], now, Some(ApplyFailed(ApplyBatch(r, ops).outcome)))
  {
    StoryOfOne(peer, r, BatchMove(ops));
    OneBatch(r, ops);
    hide Asked, ApplyBatch, Story, LastOutcome;
  }

  /** A snapshot in place of a range, or after one that left a gap. */
  lemma FallBackIsTold(peer: Peer, r: Replica, first: seq<Move>, round: nat, more: seq<Move>, now: int)
    requires first == [] || (|first| == 1 && first[0].BatchMove?)
    requires first == [] ==> Missing(peer, r)
    requires first != [] ==> Asked(peer, r, first[0].ops) && ApplyBatch(r, first[0].ops).outcome == Gap
    requires more == match peer.offer(round) case None => [] case Some(snapshot) => [SnapshotMove(snapshot, now)]
    ensures Story(peer, r, first + more)
    ensures more == [] ==> FailureReason(peer, r, first + more, now, SnapshotFailed)
    ensures more != [] && ApplySnapshot(Replay(r, first), more[0].snapshot, now).None? ==>
              FailureReason(peer, r, first + more, now, SnapshotFailed)
  {
    hide Asked, Missing, ApplyBatch, ApplySnapshot;
    assert Replay(r, []) == r;
    if first == [] {
      assert first + more == more;
      assert NeedsSnapshot(peer, r, []);
      if more != [] { StoryOfOne(peer, r, more[0]); }
    } else {
      OneBatch(r, first[0].ops);
      assert first == [BatchMove(first[0].ops)];
      assert NeedsSnapshot(peer, r, first);
      if more == [] {
        assert first + more == first;
        StoryOfOne(peer, r, first[0]);
      } else {
        StoryOfBatchAndSnapshot(peer, r, first[0].ops, more[0]);
        assert first + more == [BatchMove(first[0].ops), more[0]];
      }
    }
    assert (first + more)[..|first|] == first;
  }

  /** An answer to a request lies above it, ascending, and is about its origin. */
  lemma AnswerShape(peer: Peer, round: nat, origin: string, after: nat)
    requires AscendingAnswers(peer)
    ensures var answer := peer.fetch(round, origin, after);
            answer.Some? ==>
              && AscendingAbove(answer.value, after)
              && (answer.value != [] ==> answer.value[|answer.value| - 1].sequence > after)
              && (AnswersTheQuestion(peer) ==> OfOrigin(answer.value, origin))
  {
  }

  /** The fallback: one snapshot, in place of a range or after one that left a gap. */
  method ReplaceRange(local: Store, peer: Peer, origin: string, round: nat, now: int, ghost start: Replica,
                      ghost first: seq<Move>)
    returns (ok: bool, cursor': nat, ghost moves: seq<Move>)
    requires local.Valid() && Leads(peer, start, first, local.Tables()) && NoRowLost(start, local.Tables())
    requires origin in peer.origins && (first == [] || (|first| == 1 && first[0].BatchMove?))
    requires AnswersTheQuestion(peer) ==>
               if first == [] then Missing(peer, start)
               else Asked(peer, start, first[0].ops) && ApplyBatch(start, first[0].ops).outcome == Gap
    modifies local
    ensures Leads(peer, start, moves, local.Tables())
    ensures local.Valid() && NoRowLost(start, local.Tables())
    ensures ok ==> !NoSnapshots(moves) && cursor' == HighWater(local.Tables(), origin)
    ensures ok && Complete(peer) ==> ReachesAll(peer, local.Tables()) && cursor' >= peer.origins[origin]
    ensures AnswersTheQuestion(peer) ==> Told(peer, start, moves, now, if ok then None else Some(SnapshotFailed))
  {
    hide ApplyBatch, ApplySnapshot, HighWater, Leads, Complete, ReachesAll, Asked, Missing, Story, FailureReason,
      AnswersTheQuestion, NoSnapshots, Replay;
    ghost var middle := local.Tables();
    ghost var more;
    ok, more := FallBackToSnapshot(local, peer, round, now);
    LeadsIsReplay(peer, start, first, middle);
    if AnswersTheQuestion(peer) { FallBackIsTold(peer, start, first, round, more, now); }
    MovesChain(peer, start, first, middle, more, local.Tables());
    moves := first + more;
    NoRowLostChain(start, middle, local.Tables());
    cursor' := 0;
    if ok {
      HasSnapshot(first, more);
      if Complete(peer) { MarkIsReached(peer, local.Tables(), origin); }
      cursor' := local.ReplicationCursor(origin);
    }
  }

  lemma HasSnapshot(first: seq<Move>, more: seq<Move>)
    requires more != [] && more[0].SnapshotMove?
    ensures !NoSnapshots(first + more)
  {
    assert (first + more)[|first|] == more[0];
  }

  lemma NoRowLostChain(a: Replica, b: Replica, c: Replica)
    requires NoRowLost(a, b) && NoRowLost(b, c)
    ensures NoRowLost(a, c)
  {
  }

  /** One round of the loop: a range, or the snapshot in its place. */
  method PullRound(local: Store, peer: Peer, origin: string, cursor: nat, snapshotUsed: bool, round: nat, now: int)
    returns (error: Option<SyncError>, cursor': nat, merged: nat, round': nat, ghost moves: seq<Move>)
    requires local.Valid() && AscendingAnswers(peer) && origin in peer.origins && cursor < peer.origins[origin]
    requires AnswersTheQuestion(peer) ==> HighWater(local.Tables(), origin) == cursor
    requires Complete(peer) ==> !snapshotUsed
    modifies local
    ensures Leads(peer, old(local.Tables()), moves, local.Tables())
    ensures local.Valid() && NoRowLost(old(local.Tables()), local.Tables())
    ensures round' > round && merged <= (if snapshotUsed then 0 else 1)
    ensures error.Some? ==> merged == 0 && error.value != IdentityMismatch && error.value != HostnameMismatch
    ensures error.None? ==> merged == 1 || cursor' > cursor
    ensures error.None? ==> (NoSnapshots(moves) <==> merged == 0)
    ensures error.None? && AnswersTheQuestion(peer) ==> HighWater(local.Tables(), origin) == cursor'
    ensures AnswersTheQuestion(peer) ==> Told(peer, old(local.Tables()), moves, now, error)
    ensures merged == 1 && Complete(peer) ==> ReachesAll(peer, local.Tables()) && cursor' >= peer.origins[origin]
    ensures error.Some? && Complete(peer) ==> IsRefusal(error.value)
    ensures old(QuarantinedAt(peer, local.Tables(), origin, cursor, round)) ==> error == Some(ApplyFailed(Quarantined))
  {
    hide ApplyBatch, ApplySnapshot, HighWater, Leads, Complete, ReachesAll, Asked, Missing, NoAnswer, Story,
      FailureReason, AscendingAnswers, AnswersTheQuestion, AscendingAbove, OfOrigin, NoSnapshots, NoRowLost;
    cursor', merged, round', moves := cursor, 0, round + 1, [];
    ghost var start := local.Tables();
    NoMoves(peer, start);
    NoRowLostReflexive(start);
    NothingTold(peer, start, now);
    if Complete(peer) { CompleteAnswers(peer); }
    if AnswersTheQuestion(peer) { FirstAnswer(peer, start, origin, cursor, round); }
    AnswerShape(peer, round, origin, cursor);
    var answer := peer.fetch(round, origin, cursor);
    if answer.None? {
      return Some(FetchFailed), cursor, 0, round', moves;
    }
    var ops := answer.value;
    if ops == [] || ops[0].sequence != cursor + 1 {
      if snapshotUsed {
        error := Some(if ops == [] then IncompleteAfterSnapshot else GapAfterSnapshot);
        return;
      }
    } else {
      var outcome := local.ApplyReplicationOperations(ops);
      BatchMarks(start, ops);
      RangeLeads(peer, start, ops, round, origin, cursor);
      moves := [BatchMove(ops)];
      if AnswersTheQuestion(peer) { RangeIsTold(peer, start, ops, now); }
      if outcome.Committed? {
        if AnswersTheQuestion(peer) { CommittedMark(start, origin, ops); }
        return None, ops[|ops| - 1].sequence, 0, round', moves;
      }
      if !outcome.Gap? || snapshotUsed {
        return Some(ApplyFailed(outcome)), cursor, 0, round', moves;
      }
    }
    var ok, reached;
    ok, reached, moves := ReplaceRange(local, peer, origin, round', now, start, moves);
    round' := round' + 1;
    if !ok {
      return Some(SnapshotFailed), cursor, 0, round', moves;
    }
    error, merged, cursor' := None, 1, reached;
  }

  lemma NoRowLostReflexive(r: Replica)
    ensures NoRowLost(r, r)
  {
  }

  lemma RangeLeads(peer: Peer, r: Replica, ops: seq<Operation>, round: nat, origin: string, after: nat)
    requires peer.fetch(round, origin, after) == Some(ops)
    ensures Leads(peer, r, [BatchMove(ops)], ApplyBatch(r, ops).replica) && NoSnapshots([BatchMove(ops)])
  {
    var move := BatchMove(ops);
    assert Answered(peer, move) && Perform(r, move) == ApplyBatch(r, ops).replica;
    hide Answered, Perform, Leads, ApplyBatch;
    NoMoves(peer, r);
    OneMoreMove(peer, r, [], r, move);
    assert [] + [move] == [move];
  }

  lemma LeadsIsReplay(peer: Peer, r: Replica, moves: seq<Move>, r': Replica)
    requires Leads(peer, r, moves, r')
    ensures r' == Replay(r, moves)
  {
  }

  /** Before the first move. */
  lemma NothingTold(peer: Peer, r: Replica, now: int)
    ensures Story(peer, r, []) && NoSnapshots([])
    ensures NoAnswer(peer, r) ==> FailureReason(peer, r, [], now, FetchFailed)
    ensures Missing(peer, r) ==> FailureReason(peer, r, [], now, IncompleteAfterSnapshot)
    ensures Missing(peer, r) ==> FailureReason(peer, r, [], now, GapAfterSnapshot)
  {
    hide Missing, NoAnswer;
  }

  lemma ToldChain(peer: Peer, r: Replica, moves: seq<Move>, mid: Replica, more: seq<Move>, now: int,
                  error: Option<SyncError>)
    requires Leads(peer, r, moves, mid) && Story(peer, r, moves) && Told(peer, mid, more, now, error)
    ensures Told(peer, r, moves + more, now, error)
  {
    hide Story, FailureReason;
    StoryChain(peer, r, moves, more);
    if error.Some? { FailureChain(peer, r, moves, more, now, error.value); }
  }

  /** Pull one origin up to `high`. Terminates because every round either uses
      the one snapshot or moves the cursor towards `high`. A quarantine ends it at once,
      without a snapshot. */
  method PullOrigin(local: Store, peer: Peer, origin: string, high: nat, snapshotUsed: bool, round: nat, now: int)
    returns (result: SyncResult, snapshotUsed': bool, round': nat, merged: nat, ghost moves: seq<Move>)
    requires local.Valid() && AscendingAnswers(peer) && origin in peer.origins && peer.origins[origin] == high
    requires snapshotUsed && Complete(peer) ==> ReachesAll(peer, local.Tables())
    modifies local
    ensures snapshotUsed' && Complete(peer) ==> ReachesAll(peer, local.Tables())
    ensures result.SyncFailed? && Complete(peer) ==> IsRefusal(result.error)
    ensures result != SyncFailed(IdentityMismatch) && result != SyncFailed(HostnameMismatch)
    ensures old(Stalls(peer, local.Tables(), origin, high, round)) ==>
              result == SyncFailed(ApplyFailed(Quarantined)) && merged == 0
    ensures Leads(peer, old(local.Tables()), moves, local.Tables())
    ensures local.Valid() && NoRowLost(old(local.Tables()), local.Tables())
    ensures merged + (if snapshotUsed then 1 else 0) == if snapshotUsed' then 1 else 0
    ensures result.Synced? ==> (NoSnapshots(moves) <==> merged == 0)
    ensures AnswersTheQuestion(peer) ==>
              Told(peer, old(local.Tables()), moves, now, if result.Synced? then None else Some(result.error))
    ensures result.Synced? && AnswersTheQuestion(peer) ==> HighWater(local.Tables(), origin) >= high
  {
    hide HighWater, Leads, Complete, ReachesAll, AscendingAnswers, AnswersTheQuestion, QuarantinedAt, IsRefusal,
      NoSnapshots, Story, FailureReason;
    snapshotUsed', round', merged, moves := snapshotUsed, round, 0, [];
    ghost var start := local.Tables();
    NoMoves(peer, start);
    NothingTold(peer, start, now);
    var cursor: nat := local.ReplicationCursor(origin);
    if snapshotUsed && Complete(peer) { MarkIsReached(peer, start, origin); }
    while cursor < high
      invariant local.Valid() && NoRowLost(start, local.Tables()) && Leads(peer, start, moves, local.Tables())
      invariant merged + (if snapshotUsed then 1 else 0) == if snapshotUsed' then 1 else 0
      invariant NoSnapshots(moves) <==> merged == 0
      invariant AnswersTheQuestion(peer) ==> HighWater(local.Tables(), origin) == cursor && Story(peer, start, moves)
      invariant snapshotUsed' && Complete(peer) ==> cursor >= high && ReachesAll(peer, local.Tables())
      invariant Stalls(peer, start, origin, high, round) ==>
                  round' == round && local.Tables() == start && cursor == HighWater(start, origin) && merged == 0
      decreases if snapshotUsed' then 0 else 1, high - cursor
    {
      ghost var before := local.Tables();
      var error, reached, used;
      ghost var more;
      error, reached, used, round', more := PullRound(local, peer, origin, cursor, snapshotUsed', round', now);
      MovesChain(peer, start, moves, before, more, local.Tables());
      if AnswersTheQuestion(peer) { ToldChain(peer, start, moves, before, more, now, error); }
      NoSnapshotsChain(moves, more);
      moves := moves + more;
      if error.Some? {
        return SyncFailed(error.value), snapshotUsed', round', merged, moves;
      }
      cursor := reached;
      if used == 1 {
        snapshotUsed', merged := true, merged + 1;
      }
    }
    result := Synced;
  }

  lemma MarkIsReached(peer: Peer, r: Replica, origin: string)
    requires ReachesAll(peer, r) && origin in peer.origins
    ensures HighWater(r, origin) >= peer.origins[origin]
  {
  }

  lemma CompleteAnswers(peer: Peer)
    requires Complete(peer)
    ensures AlwaysAnswers(peer)
  {
  }

  lemma BatchMarks(r: Replica, ops: seq<Operation>)
    ensures NoRowLost(r, ApplyBatch(r, ops).replica)
    ensures ops != [] && ApplyBatch(r, ops).outcome.Committed? ==>
              HighWater(ApplyBatch(r, ops).replica, ops[0].origin) >= ops[|ops| - 1].sequence
  {
    if ops != [] {
      BatchAdvances(r, r, {}, ops[0].origin, ops);
    }
  }

  /** The peer is of another cluster or is the node itself. */
  predicate IsStranger(peer: Peer, clusterID: string, nodeID: string)
  {
    peer.clusterID != clusterID || peer.nodeID == nodeID
  }

  /** One visit to a peer. Every failure has its cause, and with ranges that commit, or a
      snapshot that is accepted where one is needed, there is none. */
  method SyncPeer(local: Store, peer: Peer, now: int)
    returns (result: SyncResult, snapshots: nat, ghost moves: seq<Move>)
    requires local.Valid() && AscendingAnswers(peer)
    modifies local
    ensures Leads(peer, old(local.Tables()), moves, local.Tables())
    ensures local.Valid()
    ensures snapshots <= 1
    ensures result.SyncFailed? && Complete(peer) ==> IsRefusal(result.error)
    ensures forall o :: HighWater(local.Tables(), o) >= old(HighWater(local.Tables(), o))
    ensures result == SyncFailed(IdentityMismatch) <==> IsStranger(peer, local.clusterID, local.nodeID)
    ensures result == SyncFailed(HostnameMismatch) <==>
              !IsStranger(peer, local.clusterID, local.nodeID) && peer.nodeID != peer.hostname
    ensures IsStranger(peer, local.clusterID, local.nodeID) || peer.nodeID != peer.hostname ==>
              local.Tables() == old(local.Tables()) && moves == []
    ensures AnswersTheQuestion(peer) && !IsStranger(peer, local.clusterID, local.nodeID) &&
            peer.nodeID == peer.hostname ==>
              Told(peer, old(local.Tables()), moves, now, if result.Synced? then None else Some(result.error))
    ensures result.Synced? ==> (NoSnapshots(moves) <==> snapshots == 0)
    ensures result.Synced? && AnswersTheQuestion(peer) ==>
              forall o :: o in peer.origins ==> HighWater(local.Tables(), o) >= peer.origins[o]
    ensures AnswersTheQuestion(peer) && !IsStranger(peer, local.clusterID, local.nodeID) &&
            peer.nodeID == peer.hostname ==>
              Progress(peer, old(local.Tables()), now, result.Synced?, snapshots)
  {
    ghost var before := local.Tables();
    result, snapshots, moves := VisitOrigins(local, peer, now);
    hide HighWater, Leads, Complete, Story, FailureReason, NoSnapshots, Progress;
    if AnswersTheQuestion(peer) && !IsStranger(peer, local.clusterID, local.nodeID) && peer.nodeID == peer.hostname {
      VisitMakesProgress(peer, before, moves, now, result, local.Tables(), snapshots);
    }
  }

  /** The marks of all origins but the remaining ones are reached. */
  ghost predicate ReachedBut(peer: Peer, r: Replica, remaining: set<string>)
  {
    forall o :: o in peer.origins && o !in remaining ==> HighWater(r, o) >= peer.origins[o]
  }

  lemma NothingReached(peer: Peer, r: Replica)
    ensures ReachedBut(peer, r, peer.origins.Keys)
  {
  }

  lemma ReachedOneMore(peer: Peer, r: Replica, r': Replica, remaining: set<string>, origin: string)
    requires ReachedBut(peer, r, remaining) && NoRowLost(r, r') && origin in peer.origins
    requires HighWater(r', origin) >= peer.origins[origin]
    ensures ReachedBut(peer, r', remaining - {origin})
  {
    NoRowLostKeepsMarks(r, r');
    hide HighWater, NoRowLost;
  }

  lemma ReachedEverything(peer: Peer, r: Replica)
    requires ReachedBut(peer, r, {})
    ensures ReachesAll(peer, r)
    ensures forall o :: o in peer.origins ==> HighWater(r, o) >= peer.origins[o]
  {
    hide HighWater;
  }

  /** The identity checks, and then one origin after the other. */
  method VisitOrigins(local: Store, peer: Peer, now: int)
    returns (result: SyncResult, snapshots: nat, ghost moves: seq<Move>)
    requires local.Valid() && AscendingAnswers(peer)
    modifies local
    ensures Leads(peer, old(local.Tables()), moves, local.Tables())
    ensures local.Valid()
    ensures snapshots <= 1
    ensures result.SyncFailed? && Complete(peer) ==> IsRefusal(result.error)
    ensures forall o :: HighWater(local.Tables(), o) >= old(HighWater(local.Tables(), o))
    ensures IsStranger(peer, local.clusterID, local.nodeID) ==> result == SyncFailed(IdentityMismatch)
    ensures !IsStranger(peer, local.clusterID, local.nodeID) && peer.nodeID != peer.hostname ==>
              result == SyncFailed(HostnameMismatch)
    ensures !IsStranger(peer, local.clusterID, local.nodeID) && peer.nodeID == peer.hostname ==>
              result != SyncFailed(IdentityMismatch) && result != SyncFailed(HostnameMismatch)
    ensures IsStranger(peer, local.clusterID, local.nodeID) || peer.nodeID != peer.hostname ==>
              local.Tables() == old(local.Tables()) && moves == []
    ensures AnswersTheQuestion(peer) && !IsStranger(peer, local.clusterID, local.nodeID) &&
            peer.nodeID == peer.hostname ==>
              Told(peer, old(local.Tables()), moves, now, if result.Synced? then None else Some(result.error))
    ensures result.Synced? ==> (NoSnapshots(moves) <==> snapshots == 0)
    ensures result.Synced? && AnswersTheQuestion(peer) ==>
              forall o :: o in peer.origins ==> HighWater(local.Tables(), o) >= peer.origins[o]
  {
    hide HighWater, Leads, Complete, ReachesAll, Stalls, Story, FailureReason, NoSnapshots, NoRowLost, AscendingAnswers,
      AnswersTheQuestion, ReachedBut;
    snapshots, moves := 0, [];
    ghost var start := local.Tables();
    NoMoves(peer, start);
    NothingTold(peer, start, now);
    NoRowLostReflexive(start);
    NoRowLostKeepsMarks(start, start);
    NothingReached(peer, start);
    if peer.clusterID != local.clusterID || peer.nodeID == local.nodeID {
      return SyncFailed(IdentityMismatch), 0, [];
    }
    if peer.nodeID != peer.hostname {
      return SyncFailed(HostnameMismatch), 0, [];
    }
    var used, round := false, 0;
    var remaining := peer.origins.Keys;
    while remaining != {}
      invariant Leads(peer, start, moves, local.Tables())
      invariant local.Valid() && NoRowLost(start, local.Tables()) && remaining <= peer.origins.Keys
      invariant snapshots == if used then 1 else 0
      invariant NoSnapshots(moves) <==> snapshots == 0
      invariant used && Complete(peer) ==> ReachesAll(peer, local.Tables())
      invariant AnswersTheQuestion(peer) ==> Story(peer, start, moves)
      invariant AnswersTheQuestion(peer) ==> ReachedBut(peer, local.Tables(), remaining)
      decreases |remaining|
    {
      var origin :| origin in remaining;
      ghost var before := local.Tables();
      var merged;
      ghost var more;
      result, used, round, merged, more := PullOrigin(local, peer, origin, peer.origins[origin], used, round, now);
      snapshots := snapshots + merged;
      MovesChain(peer, start, moves, before, more, local.Tables());
      if AnswersTheQuestion(peer) {
        ToldChain(peer, start, moves, before, more, now, if result.Synced? then None else Some(result.error));
      }
      NoSnapshotsChain(moves, more);
      moves := moves + more;
      NoRowLostChain(start, before, local.Tables());
      if result.SyncFailed? {
        NoRowLostKeepsMarks(start, local.Tables());
        return result, snapshots, moves;
      }
      if AnswersTheQuestion(peer) { ReachedOneMore(peer, before, local.Tables(), remaining, origin); }
      remaining := remaining - {origin};
    }
    NoRowLostKeepsMarks(start, local.Tables());
    if AnswersTheQuestion(peer) { ReachedEverything(peer, local.Tables()); }
    result := Synced;
  }

  /* ---------- When a visit succeeds ---------- */

  /** A part of a visit without a snapshot. */
  ghost predicate Ranges(peer: Peer, r: Replica, moves: seq<Move>)
  {
    FromPeer(peer, moves) && Story(peer, r, moves) && NoSnapshots(moves)
  }

  /** Wherever ranges alone can lead, the next request is answered by a range that continues
      the local mark and commits. */
  ghost predicate RangesCommit(peer: Peer, r: Replica)
  {
    forall moves: seq<Move>, round: nat, origin: string ::
      Ranges(peer, r, moves) && Behind(peer, Replay(r, moves), origin) ==>
        && NextAnswer(peer, Replay(r, moves), round, origin).Some?
        && var ops := NextAnswer(peer, Replay(r, moves), round, origin).value;
           Continues(Replay(r, moves), origin, ops) && ApplyBatch(Replay(r, moves), ops).outcome == Committed
  }

  /** Wherever a visit can lead, no range is refused or quarantined, and where a snapshot is
      needed the offered one is accepted. */
  ghost predicate NothingRejected(peer: Peer, r: Replica, now: int)
  {
    forall moves: seq<Move> :: FromPeer(peer, moves) && Story(peer, r, moves) ==>
      && !LastOutcome(r, moves, Quarantined) && !LastOutcome(r, moves, Failed) && !LastRefused(r, moves, now)
  }

  /** The peer no longer has what follows the local mark of some origin. */
  ghost predicate IsPruned(peer: Peer, r: Replica)
  {
    exists origin :: Behind(peer, r, origin) && NeverContinued(peer, r, origin)
  }

  ghost predicate NeverContinued(peer: Peer, r: Replica, origin: string)
  {
    forall round: nat :: NextAnswer(peer, r, round, origin).Some? ==>
      !Continues(r, origin, NextAnswer(peer, r, round, origin).value)
  }

  /** Ranges that commit make the visit succeed without a snapshot; with a complete peer and
      nothing rejected it succeeds too, with one snapshot if a range was pruned. */
  ghost predicate Progress(peer: Peer, r: Replica, now: int, synced: bool, snapshots: nat)
  {
    && (RangesCommit(peer, r) ==> synced && snapshots == 0)
    && (Complete(peer) && NothingRejected(peer, r, now) ==> synced && (IsPruned(peer, r) ==> snapshots == 1))
  }

  lemma PrefixIsFromPeer(peer: Peer, r: Replica, moves: seq<Move>, i: nat)
    requires i <= |moves| && FromPeer(peer, moves) && Story(peer, r, moves)
    ensures FromPeer(peer, moves[..i]) && Story(peer, r, moves[..i])
  {
    hide Answered, Asked, NeedsSnapshot, Replay;
    forall k | 0 <= k < i
      ensures if moves[..i][k].BatchMove? then Asked(peer, Replay(r, moves[..i][..k]), moves[..i][k].ops)
              else NeedsSnapshot(peer, r, moves[..i][..k])
    {
      assert moves[..i][..k] == moves[..k] && moves[..i][k] == moves[k];
    }
  }

  lemma RangesNeedNoSnapshot(peer: Peer, r: Replica, moves: seq<Move>)
    requires RangesCommit(peer, r) && Ranges(peer, r, moves)
    ensures !NeedsSnapshot(peer, r, moves) && !Missing(peer, Replay(r, moves)) && !NoAnswer(peer, Replay(r, moves))
    ensures forall outcome :: LastOutcome(r, moves, outcome) ==> outcome == Committed
  {
    if moves != [] {
      LastRangeCommits(peer, r, moves);
    }
    hide Ranges, Behind, Continues, ApplyBatch, Replay;
  }

  lemma LastRangeCommits(peer: Peer, r: Replica, moves: seq<Move>)
    requires RangesCommit(peer, r) && Ranges(peer, r, moves) && moves != []
    ensures LastOutcome(r, moves, Committed)
  {
    var n := |moves| - 1;
    PrefixIsFromPeer(peer, r, moves, n);
    assert Ranges(peer, r, moves[..n]);
    var before := Replay(r, moves[..n]);
    assert Asked(peer, before, moves[n].ops);
    hide Ranges, Replay, ApplyBatch, Behind, Continues, NextAnswer;
    var round: nat, origin :| Behind(peer, before, origin) &&
      NextAnswer(peer, before, round, origin) == Some(moves[n].ops) && Continues(before, origin, moves[n].ops);
  }

  lemma {:induction false} OnlyRanges(peer: Peer, r: Replica, moves: seq<Move>)
    requires RangesCommit(peer, r) && FromPeer(peer, moves) && Story(peer, r, moves)
    ensures NoSnapshots(moves)
    decreases |moves|
  {
    hide RangesCommit, NeedsSnapshot, Asked, Replay;
    if moves != [] {
      var n := |moves| - 1;
      PrefixIsFromPeer(peer, r, moves, n);
      OnlyRanges(peer, r, moves[..n]);
      RangesNeedNoSnapshot(peer, r, moves[..n]);
      assert moves[n].BatchMove?;
      assert forall i :: 0 <= i < n ==> moves[i] == moves[..n][i];
    }
  }

  lemma RangesSucceed(peer: Peer, r: Replica, moves: seq<Move>, now: int, e: SyncError)
    requires RangesCommit(peer, r) && FromPeer(peer, moves) && Story(peer, r, moves)
    ensures !FailureReason(peer, r, moves, now, e)
  {
    OnlyRanges(peer, r, moves);
    RangesNeedNoSnapshot(peer, r, moves);
    hide RangesCommit, Story, Missing, NoAnswer, NeedsSnapshot, LastOutcome, FromPeer;
  }

  lemma CompletePeerSucceeds(peer: Peer, r: Replica, moves: seq<Move>, now: int, e: SyncError)
    requires Complete(peer) && NothingRejected(peer, r, now) && FromPeer(peer, moves) && Story(peer, r, moves)
    requires IsRefusal(e)
    ensures !FailureReason(peer, r, moves, now, e)
  {
    CompleteAnswers(peer);
    assert !LastOutcome(r, moves, Quarantined) && !LastOutcome(r, moves, Failed) && !LastRefused(r, moves, now);
    hide NothingRejected, LastOutcome, LastRefused, NeedsSnapshot, Story, FromPeer, Complete;
  }

  /** Ranges about other origins, and none about the pruned one, leave its mark. */
  lemma {:induction false} PrunedStaysBehind(peer: Peer, r: Replica, moves: seq<Move>, origin: string)
    requires AnswersTheQuestion(peer) && Ranges(peer, r, moves) && NeverContinued(peer, r, origin)
    ensures HighWater(Replay(r, moves), origin) == HighWater(r, origin)
    decreases |moves|
  {
    hide HighWater, Continues, Behind, ApplyBatch, NeverContinued;
    if moves != [] {
      var n := |moves| - 1;
      PrefixIsFromPeer(peer, r, moves, n);
      var before := Replay(r, moves[..n]);
      assert Ranges(peer, r, moves[..n]) by { PrefixHasNoSnapshots(moves, n); }
      PrunedStaysBehind(peer, r, moves[..n], origin);
      assert Asked(peer, before, moves[n].ops);
      OtherRangeKeepsMark(peer, r, before, moves[n].ops, origin);
      assert Replay(r, moves) == Perform(before, moves[n]);
    }
  }

  lemma PrefixHasNoSnapshots(moves: seq<Move>, i: nat)
    requires i <= |moves| && NoSnapshots(moves)
    ensures NoSnapshots(moves[..i])
  {
  }

  lemma OtherRangeKeepsMark(peer: Peer, r: Replica, before: Replica, ops: seq<Operation>, origin: string)
    requires AnswersTheQuestion(peer) && Asked(peer, before, ops) && NeverContinued(peer, r, origin)
    requires HighWater(before, origin) == HighWater(r, origin)
    ensures HighWater(ApplyBatch(before, ops).replica, origin) == HighWater(r, origin)
  {
    var n := HighWater(r, origin);
    var round: nat, asked :| Behind(peer, before, asked) && NextAnswer(peer, before, round, asked) == Some(ops) &&
      Continues(before, asked, ops);
    assert OfOrigin(ops, asked);
    BatchMarks(before, ops);
    NoRowLostKeepsMarks(before, ApplyBatch(before, ops).replica);
    WithinIsMark(before, origin, n);
    WithinIsMark(ApplyBatch(before, ops).replica, origin, n);
    hide HighWater, Within;
    assert asked == origin ==> NextAnswer(peer, r, round, origin) == Some(ops);
    if asked != origin {
      assert ops[0].origin == asked;
      BatchStaysWithin(before, before, {}, asked, ops, origin, n);
    }
  }

  lemma VisitMakesProgress(peer: Peer, r: Replica, moves: seq<Move>, now: int, result: SyncResult, after: Replica,
                           snapshots: nat)
    requires AnswersTheQuestion(peer) && Leads(peer, r, moves, after) && snapshots <= 1
    requires Told(peer, r, moves, now, if result.Synced? then None else Some(result.error))
    requires result.SyncFailed? && Complete(peer) ==> IsRefusal(result.error)
    requires result.Synced? ==> (NoSnapshots(moves) <==> snapshots == 0) && ReachesAll(peer, after)
    ensures Progress(peer, r, now, result.Synced?, snapshots)
  {
    hide RangesCommit, NothingRejected, Story, FailureReason, Complete, AnswersTheQuestion, NeverContinued, NoSnapshots,
      ReachesAll, Replay, HighWater;
    if RangesCommit(peer, r) {
      OnlyRanges(peer, r, moves);
      if result.SyncFailed? {
        RangesSucceed(peer, r, moves, now, result.error);
      }
    }
    if Complete(peer) && NothingRejected(peer, r, now) {
      if result.SyncFailed? {
        CompletePeerSucceeds(peer, r, moves, now, result.error);
      } else if IsPruned(peer, r) && NoSnapshots(moves) {
        var origin :| Behind(peer, r, origin) && NeverContinued(peer, r, origin);
        PrunedStaysBehind(peer, r, moves, origin);
        MarkIsReached(peer, after, origin);
      }
    }
  }

  /* ---------- Why answers must be about the asked origin ---------- */

  /** The rows of one origin are the same in both tables. */
  ghost predicate SameRowsOf(r: Replica, r': Replica, origin: string)
  {
    && CursorRow(r', origin) == CursorRow(r, origin)
    && (forall k: OpKey :: k.origin == origin ==> (k in r.envelopes <==> k in r'.envelopes))
  }

  lemma SameRowsSameMark(r: Replica, r': Replica, origin: string)
    requires SameRowsOf(r, r', origin)
    ensures HighWater(r', origin) == HighWater(r, origin)
  {
    var a, b := HighWater(r, origin), HighWater(r', origin);
    assert OpKey(origin, a).origin == origin && OpKey(origin, b).origin == origin;
  }

  lemma AdvanceKeepsOtherRows(r: Replica, origin: string, op: Operation, next: Replica, asked: string)
    requires ApplyOne(r, origin, op) == Advanced(next) && origin != asked
    ensures SameRowsOf(r, next, asked)
  {
    AdvanceShape(r, origin, op, next);
    EffectKeepsTables(r, op, Effect(r, op).next);
    hide ApplyOne, Effect, StorableEnvelope;
  }

  lemma {:induction false} BatchKeepsOtherRows(start: Replica, r: Replica, taken: set<OpKey>, origin: string,
                                               ops: seq<Operation>, asked: string)
    requires origin != asked && ApplyFrom(start, r, taken, origin, ops).outcome.Committed?
    ensures SameRowsOf(r, ApplyFrom(start, r, taken, origin, ops).replica, asked)
    decreases |ops|
  {
    if ops != [] {
      var step := ApplyOne(r, origin, ops[0]);
      hide ApplyOne;
      if step.Advanced? {
        AdvanceKeepsOtherRows(r, origin, ops[0], step.next, asked);
        BatchKeepsOtherRows(start, step.next, taken + {KeyOf(ops[0])}, origin, ops[1..], asked);
      } else {
        BatchKeepsOtherRows(start, r, taken, origin, ops[1..], asked);
      }
    }
  }

  /** A committed answer that continues the asked origin's mark raises that mark to the
      position the loop goes on with exactly if it is about the asked origin. */
  lemma ProgressIsRealIffOfOrigin(r: Replica, asked: string, ops: seq<Operation>)
    requires ops != [] && AscendingAbove(ops, HighWater(r, asked)) && ApplyBatch(r, ops).outcome.Committed?
    ensures HighWater(ApplyBatch(r, ops).replica, asked) >= ops[|ops| - 1].sequence <==> ops[0].origin == asked
  {
    hide HighWater, ApplyOne;
    BatchMarks(r, ops);
    if ops[0].origin != asked {
      BatchKeepsOtherRows(r, r, {}, ops[0].origin, ops, asked);
      SameRowsSameMark(r, ApplyBatch(r, ops).replica, asked);
    }
  }

  ghost function StrayOperation(): Operation
  {
    Operation(PROTOCOL_VERSION, "cluster-1", "node-b", 1, 1, 0, Created, "channel", "webhook",
              Payload(10, true, Some(Body(RandomID(0), Firing, "", "", "", "", "", "", "", "name", 1, 1))), 1)
  }

  ghost function FreshNode(): Replica
  {
    Replica("cluster-1", "node-c", map[], map[], map[], map[], map[], map[])
  }

  /** An answer about another origin is applied and accepted as progress, while
      the mark of the origin that was asked for stays behind. */
  lemma StrayAnswerLooksLikeProgress()
    ensures var r, ops, asked := FreshNode(), [StrayOperation()], "node-a";
            && AscendingAbove(ops, HighWater(r, asked)) && ops[0].sequence == HighWater(r, asked) + 1
            && ApplyBatch(r, ops).outcome == Committed
            && HighWater(ApplyBatch(r, ops).replica, asked) < ops[0].sequence
  {
    var r, op := FreshNode(), StrayOperation();
    var body := op.payload.body.value;
    var next := ApplyOne(r, "node-b", op);
    assert InsertableNotification(WithWebhook(WithChannel(r, op, body), op), body.notificationID, BodyRecord(op, body));
    assert Effect(r, op).Effected?;
    assert next.Advanced?;
    AdvanceShape(r, "node-b", op, next.next);
    EffectKeepsTables(r, op, Effect(r, op).next);
    var none: set<OpKey> := {};
    assert ApplyFrom(r, next.next, none + {KeyOf(op)}, "node-b", [op][1..]).replica == next.next;
    assert ApplyBatch(r, [op]) == ApplyFrom(r, r, none, "node-b", [op]);
    assert forall k :: k in next.next.envelopes ==> k == OpKey("node-b", 1);
  }
}
