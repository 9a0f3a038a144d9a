/** Two nodes of a cluster that visit each other: the pull loop brings their marks, and
    with them their notifications, together. */
module ClusterSync {
  import opened Basics
  import opened NotificationRecord
  import opened ReplicaState
  import opened ReplicationCluster
  import opened ReplicaBatches
  import opened ReplicaStore
  import opened PeerSync
  import opened NotificationConvergence

  /* ---------- A peer that answers from its tables ---------- */

  ghost predicate RetainedBy(r: Replica, ops: seq<Operation>)
  {
    forall i :: 0 <= i < |ops| ==> KeyOf(ops[i]) in r.envelopes && r.envelopes[KeyOf(ops[i])] == ops[i]
  }

  ghost predicate AnswersFrom(peer: Peer, r: Replica)
  {
    forall round: nat, origin: string, after: nat ::
      peer.fetch(round, origin, after).Some? ==> RetainedBy(r, peer.fetch(round, origin, after).value)
  }

  ghost predicate OffersFrom(peer: Peer, r: Replica)
  {
    forall round: nat :: peer.offer(round).Some? ==> Exports(r, peer.offer(round).value)
  }

  /** The peer advertises the marks of these tables, answers with operations they retain
      and offers snapshots of them; any request may still fail. */
  ghost predicate Mirrors(peer: Peer, r: Replica)
  {
    && AscendingAnswers(peer) && AnswersTheQuestion(peer) && AnswersFrom(peer, r) && OffersFrom(peer, r)
    && (forall o :: o in peer.origins <==> Reports(r, o))
    && (forall o :: o in peer.origins ==> peer.origins[o] == HighWater(r, o))
  }

  /** A change made from what the tables of a node retain or export. */
  ghost predicate HonestMove(r: Replica, m: Move)
  {
    match m
    case BatchMove(ops) => RetainedBy(r, ops)
    case SnapshotMove(snapshot, _) => Exports(r, snapshot)
  }

  lemma AnswersAreHonest(peer: Peer, r: Replica, m: Move)
    requires Mirrors(peer, r) && Answered(peer, m)
    ensures HonestMove(r, m)
  {
    match m
    case BatchMove(ops) =>
      var round: nat, origin: string, after: nat :| peer.fetch(round, origin, after) == Some(ops);
      assert RetainedBy(r, peer.fetch(round, origin, after).value);
    case SnapshotMove(snapshot, _) =>
      var round: nat :| peer.offer(round) == Some(snapshot);
      assert Exports(r, peer.offer(round).value);
  }

  /* ---------- Marks stay within those of the two nodes ---------- */

  lemma MoveStaysWithin(ours: Replica, theirs: Replica, m: Move, o: string, n: nat)
    requires HonestMove(theirs, m) && Within(ours, o, n) && Within(theirs, o, n)
    ensures Within(Perform(ours, m), o, n)
  {
    match m
    case BatchMove(ops) =>
      forall i | 0 <= i < |ops| && ops[i].origin == o ensures ops[i].sequence <= n {
        assert KeyOf(ops[i]) in theirs.envelopes;
      }
      if ops != [] {
        BatchStaysWithin(ours, ours, {}, ops[0].origin, ops, o, n);
      }
    case SnapshotMove(snapshot, now) =>
      WithinIsMark(theirs, o, n);
      if ApplySnapshot(ours, snapshot, now).Some? {
        SnapshotShape(ours, snapshot, now, Perform(ours, m));
      }
  }

  lemma {:induction false} ReplayStaysWithin(peer: Peer, ours: Replica, theirs: Replica, moves: seq<Move>, o: string,
                                             n: nat)
    requires Mirrors(peer, theirs) && FromPeer(peer, moves) && Within(ours, o, n) && Within(theirs, o, n)
    ensures Within(Replay(ours, moves), o, n)
    decreases |moves|
  {
    hide Within, Mirrors, Answered, Perform, HonestMove;
    if moves != [] {
      var last := |moves| - 1;
      ReplayStaysWithin(peer, ours, theirs, moves[..last], o, n);
      AnswersAreHonest(peer, theirs, moves[last]);
      MoveStaysWithin(Replay(ours, moves[..last]), theirs, moves[last], o, n);
    }
  }

  /** A visit that reached every advertised mark leaves the greater of both marks. */
  lemma VisitTakesGreaterMark(peer: Peer, ours: Replica, theirs: Replica, moves: seq<Move>, after: Replica, o: string)
    requires Mirrors(peer, theirs) && Leads(peer, ours, moves, after)
    requires HighWater(after, o) >= HighWater(ours, o)
    requires o in peer.origins ==> HighWater(after, o) >= peer.origins[o]
    ensures HighWater(after, o) ==
              if HighWater(ours, o) >= HighWater(theirs, o) then HighWater(ours, o) else HighWater(theirs, o)
  {
    var n := if HighWater(ours, o) >= HighWater(theirs, o) then HighWater(ours, o) else HighWater(theirs, o);
    hide HighWater;
    WithinIsMark(ours, o, n);
    WithinIsMark(theirs, o, n);
    WithinIsMark(after, o, n);
    ReplayStaysWithin(peer, ours, theirs, moves, o, n);
    UnreportedMarkIsZero(theirs, o);
  }

  lemma UnreportedMarkIsZero(r: Replica, o: string)
    ensures !Reports(r, o) ==> HighWater(r, o) == 0
  {
  }

  /* ---------- A visit is a stretch of a cluster run ---------- */

  /** The run goes on, without an unlogged write. */
  ghost predicate Continues(run: Run, run': Run)
  {
    && |run.states| == |run.steps| + 1 && |run'.states| == |run'.steps| + 1 && |run.steps| <= |run'.steps|
    && run'.states[..|run.states|] == run.states && run'.steps[..|run.steps|] == run.steps
    && forall j :: |run.steps| <= j < |run'.steps| ==> !run'.steps[j].WriteUnlogged?
  }

  lemma ContinuesOneStep(run: Run, run': Run, c': Cluster, step: Step)
    requires |run.states| == |run.steps| + 1 && run' == Run(run.states + [c'], run.steps + [step])
    requires !step.WriteUnlogged?
    ensures Continues(run, run')
  {
  }

  lemma ContinuesFurther(a: Run, b: Run, c: Run)
    requires Continues(a, b) && Continues(b, c)
    ensures Continues(a, c)
  {
    assert c.states[..|a.states|] == c.states[..|b.states|][..|a.states|];
    assert c.steps[..|a.steps|] == c.steps[..|b.steps|][..|a.steps|];
    forall j | |a.steps| <= j < |c.steps| ensures !c.steps[j].WriteUnlogged? {
      if j < |b.steps| {
        assert c.steps[..|b.steps|][j] == c.steps[j];
      }
    }
  }

  lemma StaysUndisturbed(run: Run, run': Run, id: NotificationID, withState: bool)
    requires Continues(run, run') && Undisturbed(run, |run.steps|, id, withState)
    ensures Undisturbed(run', |run'.steps|, id, withState)
  {
    forall j | 0 <= j < |run'.steps| ensures !Disturbs(run'.states[j], run'.steps[j], id, withState) {
      if j < |run.steps| {
        assert run'.states[..|run.states|][j] == run.states[j] && run'.steps[..|run.steps|][j] == run.steps[j];
        assert !Disturbs(run.states[j], run.steps[j], id, withState);
      }
    }
  }

  lemma RunShape(run: Run, c: Cluster)
    requires Reaches(run, c)
    ensures |run.states| == |run.steps| + 1 && run.states[|run.steps|] == c
  {
  }

  /** The cluster after a node's tables changed to r'; the history may have grown. */
  ghost predicate OnlyChanges(c: Cluster, node: string, r': Replica, c': Cluster)
  {
    c'.replicas == c.replicas[node := r'] && c'.log == c.log
  }

  lemma RetainedIsAllocated(run: Run, c: Cluster, b: string, ops: seq<Operation>)
    requires Reaches(run, c) && b in c.replicas && RetainedBy(c.replicas[b], ops)
    ensures forall i :: 0 <= i < |ops| ==> Allocated(c.log, ops[i])
  {
    var n := |run.steps|;
    assert run.states[n] == c && n < |run.states|;
    hide Allocated, Next, Init;
    forall i | 0 <= i < |ops| ensures Allocated(c.log, ops[i]) {
      EnvelopesAgree(run, n, b, b, KeyOf(ops[i]));
    }
  }

  function Delivered(c: Cluster, a: string, ops: seq<Operation>): Cluster
    requires a in c.replicas && a in c.processed
  {
    var result := ApplyBatch(c.replicas[a], ops);
    c.(replicas := c.replicas[a := result.replica], processed := c.processed[a := c.processed[a] + result.taken])
  }

  lemma DeliverIsNext(c: Cluster, a: string, ops: seq<Operation>)
    requires a in c.replicas && a in c.log && a in c.processed
    requires forall i :: 0 <= i < |ops| ==> Allocated(c.log, ops[i])
    ensures Next(c, Deliver(a, ops), Delivered(c, a, ops))
  {
    hide ReceiveWebhook, ChangeState, ApplyBatch, Prune, ApplySnapshot, Exports, Allocated;
  }

  lemma DeliverIsAStep(run: Run, c: Cluster, a: string, b: string, ops: seq<Operation>) returns (run': Run, c': Cluster)
    requires Reaches(run, c) && a in c.replicas && b in c.replicas && RetainedBy(c.replicas[b], ops)
    ensures Reaches(run', c') && OnlyChanges(c, a, ApplyBatch(c.replicas[a], ops).replica, c') && Continues(run, run')
  {
    RunShape(run, c);
    hide ApplyBatch, Reaches, Next, Allocated, RetainedBy, Continues;
    NodeIsRecorded(run, c, a);
    RetainedIsAllocated(run, c, b, ops);
    c' := Delivered(c, a, ops);
    DeliverIsNext(c, a, ops);
    run' := Extend(run, c, Deliver(a, ops), c');
    ContinuesOneStep(run, run', c', Deliver(a, ops));
  }

  function Built(c: Cluster, b: string, snapshot: Snapshot): SentSnapshot
    requires b in c.replicas && b in c.processed
  {
    SentSnapshot(snapshot, c.processed[b], c.replicas[b].notifications)
  }

  function Merged(c: Cluster, a: string, message: SentSnapshot, now: int): Cluster
    requires a in c.replicas && a in c.processed
  {
    var result := ApplySnapshot(c.replicas[a], message.snapshot, now);
    if result.None? then c
    else c.(replicas := c.replicas[a := result.value], processed := c.processed[a := c.processed[a] + message.covers])
  }

  lemma BuildIsNext(c: Cluster, b: string, snapshot: Snapshot)
    requires b in c.replicas && b in c.log && b in c.processed && Exports(c.replicas[b], snapshot)
    ensures Next(c, BuildSnapshot(b, snapshot), c.(sent := c.sent + {Built(c, b, snapshot)}))
  {
    hide ReceiveWebhook, ChangeState, ApplyBatch, Prune, ApplySnapshot, Exports;
  }

  lemma MergeIsNext(c: Cluster, a: string, message: SentSnapshot, now: int)
    requires a in c.replicas && a in c.log && a in c.processed && message in c.sent
    ensures Next(c, MergeSnapshot(a, message, now), Merged(c, a, message, now))
  {
    hide ReceiveWebhook, ChangeState, ApplyBatch, Prune, ApplySnapshot, Exports;
  }

  lemma MergeIsTwoSteps(run: Run, c: Cluster, a: string, b: string, snapshot: Snapshot, now: int)
    returns (run': Run, c': Cluster)
    requires Reaches(run, c) && a in c.replicas && b in c.replicas && Exports(c.replicas[b], snapshot)
    ensures Reaches(run', c') && OnlyChanges(c, a, Perform(c.replicas[a], SnapshotMove(snapshot, now)), c')
    ensures Continues(run, run')
  {
    RunShape(run, c);
    hide ApplySnapshot, Exports, Reaches, Next, Continues;
    NodeIsRecorded(run, c, a);
    NodeIsRecorded(run, c, b);
    var message := Built(c, b, snapshot);
    var c1 := c.(sent := c.sent + {message});
    BuildIsNext(c, b, snapshot);
    var run1 := Extend(run, c, BuildSnapshot(b, snapshot), c1);
    ContinuesOneStep(run, run1, c1, BuildSnapshot(b, snapshot));
    MergeIsNext(c1, a, message, now);
    c' := Merged(c1, a, message, now);
    run' := Extend(run1, c1, MergeSnapshot(a, message, now), c');
    ContinuesOneStep(run1, run', c', MergeSnapshot(a, message, now));
    ContinuesFurther(run, run1, run');
    assert c.replicas[a := c.replicas[a]] == c.replicas;
  }

  lemma MoveIsAStretch(run: Run, c: Cluster, a: string, b: string, m: Move) returns (run': Run, c': Cluster)
    requires Reaches(run, c) && a in c.replicas && b in c.replicas && HonestMove(c.replicas[b], m)
    ensures Reaches(run', c') && OnlyChanges(c, a, Perform(c.replicas[a], m), c') && Continues(run, run')
  {
    hide Continues, Reaches, ApplyBatch, ApplySnapshot, Exports;
    match m
    case BatchMove(ops) => run', c' := DeliverIsAStep(run, c, a, b, ops);
    case SnapshotMove(snapshot, now) => run', c' := MergeIsTwoSteps(run, c, a, b, snapshot, now);
  }

  /** A visit of a to b, as a continuation of the run. */
  lemma {:induction false} VisitIsAStretch(run: Run, c: Cluster, a: string, b: string, peer: Peer, moves: seq<Move>)
    returns (run': Run, c': Cluster)
    requires Reaches(run, c) && a in c.replicas && b in c.replicas && a != b
    requires Mirrors(peer, c.replicas[b]) && FromPeer(peer, moves)
    ensures Reaches(run', c') && OnlyChanges(c, a, Replay(c.replicas[a], moves), c') && Continues(run, run')
    decreases |moves|
  {
    RunShape(run, c);
    hide Reaches, Mirrors, Answered, Perform, HonestMove;
    if moves == [] {
      assert c.replicas[a := c.replicas[a]] == c.replicas;
      run', c' := run, c;
      assert run.states[..|run.states|] == run.states && run.steps[..|run.steps|] == run.steps;
    } else {
      hide Continues;
      var last := |moves| - 1;
      var run1, c1 := VisitIsAStretch(run, c, a, b, peer, moves[..last]);
      assert c1.replicas[b] == c.replicas[b];
      AnswersAreHonest(peer, c.replicas[b], moves[last]);
      run', c' := MoveIsAStretch(run1, c1, a, b, moves[last]);
      ContinuesFurther(run, run1, run');
      assert c1.replicas[a := Replay(c.replicas[a], moves)] == c.replicas[a := Replay(c.replicas[a], moves)];
    }
  }

  /* ---------- Two visits ---------- */

  ghost function Taken(c: Cluster, n: string): set<OpKey> { if n in c.processed then c.processed[n] else {} }

  /** What convergence promises after a run, card by card; `taken` are the operations the
      two nodes had taken in before their visits. */
  ghost predicate Agree(run: Run, log: Log, taken: set<OpKey>, x: Notes, y: Notes)
  {
    forall id :: Undisturbed(run, |run.steps|, id, false) ==>
      && SameOrigin(x, y, id)
      && (Undisturbed(run, |run.steps|, id, true) && NeverUpdated(log, taken, id) ==> SameState(x, y, id))
  }

  /** a visits b and then b visits a, both to the end: afterwards their marks are equal and
      they agree on every card that no unlogged write of the run so far disturbed. */
  lemma TwoVisitsConverge(run: Run, c: Cluster, a: string, b: string, toB: Peer, first: seq<Move>, ra: Replica,
                          toA: Peer, second: seq<Move>, rb: Replica)
    requires Reaches(run, c) && a in c.replicas && b in c.replicas && a != b
    requires Mirrors(toB, c.replicas[b]) && Leads(toB, c.replicas[a], first, ra) && Caught(toB, c.replicas[a], ra)
    requires Mirrors(toA, ra) && Leads(toA, c.replicas[b], second, rb) && Caught(toA, c.replicas[b], rb)
    ensures forall o :: HighWater(ra, o) == HighWater(rb, o)
    ensures Agree(run, c.log, Taken(c, a) + Taken(c, b), ra.notifications, rb.notifications)
  {
    MarksAfterTwoVisits(c.replicas[a], c.replicas[b], toB, first, ra, toA, second, rb);
    hide HighWater, Mirrors, Caught, FromPeer, Replay, Reaches, Continues, SameOrigin, SameState, Undisturbed,
      NeverUpdated, Taken;
    var run1, c1 := VisitIsAStretch(run, c, a, b, toB, first);
    var run2, c2 := VisitIsAStretch(run1, c1, b, a, toA, second);
    ContinuesFurther(run, run1, run2);
    assert c2.replicas[a] == ra && c2.replicas[b] == rb && c2.log == c.log;
    VisitsTakeInBoth(run, c, run2, c2, a, b);
    forall id | Undisturbed(run, |run.steps|, id, false)
      ensures SameOrigin(ra.notifications, rb.notifications, id)
      ensures Undisturbed(run, |run.steps|, id, true) && NeverUpdated(c.log, Taken(c, a) + Taken(c, b), id) ==>
              SameState(ra.notifications, rb.notifications, id)
    {
      CardConverges(run, run2, c2, a, b, id);
    }
  }

  /** Both nodes end at the greater of their marks, for every origin. */
  lemma MarksAfterTwoVisits(a: Replica, b: Replica, toB: Peer, first: seq<Move>, ra: Replica, toA: Peer,
                            second: seq<Move>, rb: Replica)
    requires Mirrors(toB, b) && Leads(toB, a, first, ra) && Caught(toB, a, ra)
    requires Mirrors(toA, ra) && Leads(toA, b, second, rb) && Caught(toA, b, rb)
    ensures forall o :: HighWater(ra, o) == HighWater(rb, o) == Greater(HighWater(a, o), HighWater(b, o))
  {
    hide HighWater, Mirrors, Leads;
    forall o ensures HighWater(ra, o) == HighWater(rb, o) == Greater(HighWater(a, o), HighWater(b, o)) {
      VisitTakesGreaterMark(toB, a, b, first, ra, o);
      VisitTakesGreaterMark(toA, b, ra, second, rb, o);
    }
  }

  function Greater(m: nat, n: nat): nat { if m >= n then m else n }

  /** With the greater of both marks a node has taken in what either had. */
  lemma VisitsTakeInBoth(run: Run, c: Cluster, run': Run, c': Cluster, a: string, b: string)
    requires Reaches(run, c) && Reaches(run', c') && a in c.replicas && b in c.replicas && a in c'.replicas
    requires forall o ::
               HighWater(c'.replicas[a], o) == Greater(HighWater(c.replicas[a], o), HighWater(c.replicas[b], o))
    ensures Taken(c', a) == Taken(c, a) + Taken(c, b)
  {
    hide HighWater;
    forall k: OpKey
      ensures k in Taken(c', a) <==> k in Taken(c, a) || k in Taken(c, b)
    {
      TakenUpToMark(run, c, a, k);
      TakenUpToMark(run, c, b, k);
      TakenUpToMark(run', c', a, k);
    }
  }

  lemma TakenUpToMark(run: Run, c: Cluster, n: string, k: OpKey)
    requires Reaches(run, c) && n in c.replicas
    ensures k in Taken(c, n) <==> 1 <= k.sequence <= HighWater(c.replicas[n], k.origin)
  {
    RunShape(run, c);
    assert ValidRun(run);
    hide HighWater, ValidRun;
    ProcessedIsGapFree(run, |run.steps|, n, k.origin);
    assert k == OpKey(k.origin, k.sequence);
  }

  lemma CardConverges(run: Run, run': Run, c: Cluster, a: string, b: string, id: NotificationID)
    requires Continues(run, run') && Reaches(run', c) && a in c.replicas && b in c.replicas
    requires forall o :: HighWater(c.replicas[a], o) == HighWater(c.replicas[b], o)
    requires Undisturbed(run, |run.steps|, id, false)
    ensures SameOrigin(c.replicas[a].notifications, c.replicas[b].notifications, id)
    ensures Undisturbed(run, |run.steps|, id, true) && NeverUpdated(c.log, Taken(c, a), id) ==>
            SameState(c.replicas[a].notifications, c.replicas[b].notifications, id)
  {
    RunShape(run', c);
    assert ValidRun(run');
    hide HighWater, Reaches, ValidRun, Continues, Undisturbed, SameOrigin, SameState, NeverUpdated;
    StaysUndisturbed(run, run', id, false);
    if Undisturbed(run, |run.steps|, id, true) {
      StaysUndisturbed(run, run', id, true);
    }
    EqualMarksConverge(run', |run'.steps|, a, b, id);
  }

  /** What a successful visit promises about marks. */
  ghost predicate Caught(peer: Peer, before: Replica, after: Replica)
  {
    forall o :: HighWater(after, o) >= HighWater(before, o) &&
      (o in peer.origins ==> HighWater(after, o) >= peer.origins[o])
  }

  /** Every request is answered; snapshots then cover the advertised marks. */
  lemma MirrorIsComplete(peer: Peer, r: Replica)
    requires Mirrors(peer, r) && AlwaysAnswers(peer)
    ensures Complete(peer)
  {
    forall round: nat
      ensures peer.offer(round).Some? && Covering(peer, peer.offer(round).value)
    {
      assert peer.offer(round).Some?;
      assert Exports(r, peer.offer(round).value);
    }
  }

  /** One direction: a visit to a peer that mirrors `r`. */
  method VisitMirror(local: Store, ghost r: Replica, peer: Peer, now: int)
    returns (result: SyncResult, ghost moves: seq<Move>)
    requires local.Valid() && Mirrors(peer, r)
    modifies local
    ensures local.Valid() && Leads(peer, old(local.Tables()), moves, local.Tables())
    ensures result.Synced? ==> Caught(peer, old(local.Tables()), local.Tables())
    ensures result.SyncFailed? && AlwaysAnswers(peer) ==> IsRefusal(result.error)
  {
    if AlwaysAnswers(peer) { MirrorIsComplete(peer, r); }
    assert AscendingAnswers(peer) && AnswersTheQuestion(peer);
    hide HighWater, Leads, Complete, Told, Progress, NoSnapshots, Mirrors, AscendingAnswers, AnswersTheQuestion,
      AlwaysAnswers;
    var snapshots;
    result, snapshots, moves := SyncPeer(local, peer, now);
  }

  /** The loop itself, run once in each direction by two nodes of a cluster. `view` gives
      the peer that answers from a state of the tables. */
  method PullFromEachOther(ghost run: Run, ghost c: Cluster, a: Store, b: Store, view: Replica -> Peer, now: int)
    returns (result: SyncResult)
    requires a != b && a.Valid() && b.Valid() && a.nodeID != b.nodeID
    requires Reaches(run, c) && a.nodeID in c.replicas && b.nodeID in c.replicas
    requires c.replicas[a.nodeID] == a.Tables() && c.replicas[b.nodeID] == b.Tables()
    requires forall r: Replica :: Mirrors(view(r), r)
    modifies a, b
    ensures result.Synced? ==>
              && (forall o :: HighWater(a.Tables(), o) == HighWater(b.Tables(), o))
              && Agree(run, c.log, Taken(c, a.nodeID) + Taken(c, b.nodeID), a.notifications, b.notifications)
    ensures result.SyncFailed? && AlwaysAnswers(view(old(b.Tables()))) && AlwaysAnswers(view(a.Tables())) ==>
              IsRefusal(result.error)
  {
    hide HighWater, Reaches, Leads, Agree, Complete, Mirrors, Caught, AlwaysAnswers, IsRefusal;
    var toB := view(b.Tables());
    assert Mirrors(toB, b.Tables());
    ghost var first, second;
    result, first := VisitMirror(a, b.Tables(), toB, now);
    if result.SyncFailed? {
      return;
    }
    var toA := view(a.Tables());
    assert Mirrors(toA, a.Tables());
    ghost var ra := a.Tables();
    result, second := VisitMirror(b, ra, toA, now);
    if result.SyncFailed? {
      return;
    }
    TwoVisitsConverge(run, c, a.nodeID, b.nodeID, toB, first, ra, toA, second, b.Tables());
  }

  /* ---------- Such peers exist ---------- */

  /** Retained operations of an origin above a position and up to another, ascending. */
  function Retains(r: Replica, origin: string, after: nat, n: nat): seq<Operation>
    decreases n
  {
    if n <= after then []
    else
      var k := OpKey(origin, n);
      Retains(r, origin, after, n - 1) + if k in r.envelopes && KeyOf(r.envelopes[k]) == k then [r.envelopes[k]] else []
  }

  lemma {:induction false} RetainsIsAnAnswer(r: Replica, origin: string, after: nat, n: nat)
    ensures var ops := Retains(r, origin, after, n);
            && AscendingAbove(ops, after) && OfOrigin(ops, origin) && RetainedBy(r, ops)
            && (forall i :: 0 <= i < |ops| ==> ops[i].sequence <= n)
    decreases n
  {
    if n > after {
      RetainsIsAnAnswer(r, origin, after, n - 1);
    }
  }

  ghost function Page(r: Replica, origin: string, after: nat): seq<Operation>
  {
    var ops := Retains(r, origin, after, HighWater(r, origin));
    if |ops| > 500 then ops[..500] else ops
  }

  lemma PageIsAnAnswer(r: Replica, origin: string, after: nat)
    ensures var ops := Page(r, origin, after); AscendingAbove(ops, after) && OfOrigin(ops, origin) && RetainedBy(r, ops)
  {
    hide HighWater, Retains;
    RetainsIsAnAnswer(r, origin, after, HighWater(r, origin));
  }

  ghost function RowsOf(notes: Notes, ids: set<NotificationID>): seq<Row>
    requires ids <= notes.Keys
    decreases |ids|
  {
    if ids == {} then []
    else
      var id :| id in ids;
      RowsOf(notes, ids - {id}) + [Row(id, notes[id], true)]
  }

  /** One row for each of the cards. */
  ghost predicate ListsCards(notes: Notes, ids: set<NotificationID>, rows: seq<Row>)
  {
    && (forall i :: 0 <= i < |rows| ==> rows[i].id in ids && rows[i].id in notes && rows[i].record == notes[rows[i].id])
    && (forall i, j :: 0 <= i < j < |rows| ==> rows[i].id != rows[j].id)
    && (forall id :: id in ids ==> SeenBefore(rows, id))
  }

  lemma ListsOneMore(notes: Notes, ids: set<NotificationID>, rows: seq<Row>, id: NotificationID)
    requires id in ids && ids <= notes.Keys && ListsCards(notes, ids - {id}, rows)
    ensures ListsCards(notes, ids, rows + [Row(id, notes[id], true)])
  {
    var longer := rows + [Row(id, notes[id], true)];
    assert longer[..|longer| - 1] == rows;
    forall x | x in ids ensures SeenBefore(longer, x) {
      SeenOneMore(longer, x);
    }
  }

  lemma {:induction false} RowsOfAreRows(notes: Notes, ids: set<NotificationID>)
    requires ids <= notes.Keys
    ensures ListsCards(notes, ids, RowsOf(notes, ids))
    decreases |ids|
  {
    hide ListsCards;
    if ids == {} {
      NothingListed(notes);
    } else {
      var id :| id in ids && RowsOf(notes, ids) == RowsOf(notes, ids - {id}) + [Row(id, notes[id], true)];
      RowsOfAreRows(notes, ids - {id});
      ListsOneMore(notes, ids, RowsOf(notes, ids - {id}), id);
    }
  }

  lemma NothingListed(notes: Notes)
    ensures ListsCards(notes, {}, [])
  {
  }

  ghost function MarksOf(r: Replica): map<string, nat>
  {
    map o | o in r.cursors.Keys + set k | k in r.envelopes :: k.origin :: HighWater(r, o)
  }

  lemma MarksAreReported(r: Replica)
    ensures forall o :: o in MarksOf(r) <==> Reports(r, o)
    ensures forall o :: o in MarksOf(r) ==> MarksOf(r)[o] == HighWater(r, o)
  {
    hide HighWater;
  }

  ghost function SnapshotOf(r: Replica): Snapshot
  {
    var rows := RowsOf(r.notifications, r.notifications.Keys);
    var body := SnapshotBody(SNAPSHOT_VERSION, PROTOCOL_VERSION, r.clusterID, r.nodeID, 0, MarksOf(r), rows);
    Snapshot(body, Some(body))
  }

  /** The peer that answers with pages of the retained operations and with a snapshot. */
  ghost function PeerOf(r: Replica): Peer
  {
    Peer(r.clusterID, r.nodeID, r.nodeID, MarksOf(r),
         (round: nat, origin: string, after: nat) => Some(Page(r, origin, after)),
         (round: nat) => if r.clusterID == "" || r.nodeID == "" then None else Some(SnapshotOf(r)))
  }

  /** It mirrors the tables, whatever they are, and for a configured node it answers every
      request: the conditions on the peers of a visit can be met. */
  lemma PeerOfMirrors(r: Replica)
    ensures Mirrors(PeerOf(r), r)
    ensures r.clusterID != "" && r.nodeID != "" ==> AlwaysAnswers(PeerOf(r)) && Complete(PeerOf(r))
  {
    MarksAreReported(r);
    RowsOfAreRows(r.notifications, r.notifications.Keys);
    hide HighWater, Page, RowsOf, MarksOf;
    forall origin: string, after: nat
      ensures AscendingAbove(Page(r, origin, after), after)
      ensures OfOrigin(Page(r, origin, after), origin) && RetainedBy(r, Page(r, origin, after))
    {
      PageIsAnAnswer(r, origin, after);
    }
    if r.clusterID != "" && r.nodeID != "" {
      assert Exports(r, SnapshotOf(r));
      assert Mirrors(PeerOf(r), r);
      MirrorIsComplete(PeerOf(r), r);
    }
  }

  /** The peer still has everything above the local marks. */
  ghost predicate RetainsAll(peer: Replica, r: Replica)
  {
    forall o: string, n: nat :: HighWater(r, o) < n <= HighWater(peer, o) ==>
      OpKey(o, n) in peer.envelopes && KeyOf(peer.envelopes[OpKey(o, n)]) == OpKey(o, n)
  }

  lemma {:induction false} RetainsStartsAt(r: Replica, origin: string, after: nat, n: nat)
    requires after < n && OpKey(origin, after + 1) in r.envelopes
    requires KeyOf(r.envelopes[OpKey(origin, after + 1)]) == OpKey(origin, after + 1)
    ensures Retains(r, origin, after, n) != [] && Retains(r, origin, after, n)[0].sequence == after + 1
    decreases n
  {
    if n == after + 1 {
      assert Retains(r, origin, after, after) == [];
    } else {
      RetainsStartsAt(r, origin, after, n - 1);
    }
  }

  lemma PageContinues(peer: Replica, r: Replica, round: nat, origin: string)
    requires RetainsAll(peer, r) && Behind(PeerOf(peer), r, origin)
    ensures NextAnswer(PeerOf(peer), r, round, origin).Some?
    ensures PeerSync.Continues(r, origin, NextAnswer(PeerOf(peer), r, round, origin).value)
  {
    MarksAreReported(peer);
    hide HighWater, Retains, MarksOf, SnapshotOf;
    RetainsStartsAt(peer, origin, HighWater(r, origin), HighWater(peer, origin));
  }

  lemma {:induction false} RangesLoseNothing(r: Replica, moves: seq<Move>)
    requires NoSnapshots(moves)
    ensures NoRowLost(r, Replay(r, moves))
    decreases |moves|
  {
    hide NoRowLost, ApplyBatch;
    if moves == [] {
      NoRowLostReflexive(r);
    } else {
      var n := |moves| - 1;
      RangesLoseNothing(r, moves[..n]);
      BatchMarks(Replay(r, moves[..n]), moves[n].ops);
      NoRowLostChain(r, Replay(r, moves[..n]), Replay(r, moves));
    }
  }

  lemma RetainsAllLater(peer: Replica, r: Replica, r': Replica)
    requires RetainsAll(peer, r) && NoRowLost(r, r')
    ensures RetainsAll(peer, r')
  {
    NoRowLostKeepsMarks(r, r');
    hide HighWater, NoRowLost;
  }

  lemma RangesGoOn(peer: Peer, r: Replica, moves: seq<Move>, ops: seq<Operation>)
    requires Ranges(peer, r, moves) && Asked(peer, Replay(r, moves), ops) && Answered(peer, BatchMove(ops))
    ensures Ranges(peer, r, moves + [BatchMove(ops)])
    ensures LastOutcome(r, moves + [BatchMove(ops)], ApplyBatch(Replay(r, moves), ops).outcome)
  {
    hide Asked, Answered, NeedsSnapshot, ApplyBatch, Replay;
    var more := moves + [BatchMove(ops)];
    assert more[..|moves|] == moves;
    forall i | 0 <= i < |more|
      ensures if more[i].BatchMove? then Asked(peer, Replay(r, more[..i]), more[i].ops)
              else NeedsSnapshot(peer, r, more[..i])
    {
      assert i < |moves| ==> more[..i] == moves[..i] && more[i] == moves[i];
    }
  }

  /** A peer that answers from its tables and retains all above the local marks: unless a
      range is rejected, every request is answered by one that commits, so that the visit
      succeeds without a snapshot. */
  lemma RetainingPeerCommits(peer: Replica, r: Replica)
    requires RetainsAll(peer, r)
    requires forall moves: seq<Move>, outcome: Outcome ::
               Ranges(PeerOf(peer), r, moves) && LastOutcome(r, moves, outcome) ==> outcome == Committed
    ensures RangesCommit(PeerOf(peer), r)
  {
    hide PeerOf, Ranges, LastOutcome, Asked, Replay, ApplyBatch, RetainsAll, Behind, NextAnswer;
    hide PeerSync.Continues;
    forall moves: seq<Move>, round: nat, origin: string |
      Ranges(PeerOf(peer), r, moves) && Behind(PeerOf(peer), Replay(r, moves), origin)
      ensures NextAnswer(PeerOf(peer), Replay(r, moves), round, origin).Some?
      ensures var ops := NextAnswer(PeerOf(peer), Replay(r, moves), round, origin).value;
              PeerSync.Continues(Replay(r, moves), origin, ops) &&
                ApplyBatch(Replay(r, moves), ops).outcome == Committed
    {
      NextRangeCommits(peer, r, moves, round, origin);
    }
  }

  lemma NextRangeCommits(peer: Replica, r: Replica, moves: seq<Move>, round: nat, origin: string)
    requires RetainsAll(peer, r) && Ranges(PeerOf(peer), r, moves) && Behind(PeerOf(peer), Replay(r, moves), origin)
    requires forall moves: seq<Move>, outcome: Outcome ::
               Ranges(PeerOf(peer), r, moves) && LastOutcome(r, moves, outcome) ==> outcome == Committed
    ensures NextAnswer(PeerOf(peer), Replay(r, moves), round, origin).Some?
    ensures var ops := NextAnswer(PeerOf(peer), Replay(r, moves), round, origin).value;
            PeerSync.Continues(Replay(r, moves), origin, ops) &&
              ApplyBatch(Replay(r, moves), ops).outcome == Committed
  {
    hide PeerOf, LastOutcome, Asked, Replay, ApplyBatch, RetainsAll, Behind, NextAnswer, Answered, NoRowLost, FromPeer,
      Story;
    hide PeerSync.Continues;
    var here := Replay(r, moves);
    RangesLoseNothing(r, moves);
    RetainsAllLater(peer, r, here);
    PageContinues(peer, here, round, origin);
    hide Ranges;
    AnswerIsAsked(PeerOf(peer), here, round, origin);
    RangesGoOn(PeerOf(peer), r, moves, NextAnswer(PeerOf(peer), here, round, origin).value);
  }

  lemma AnswerIsAsked(peer: Peer, r: Replica, round: nat, origin: string)
    requires Behind(peer, r, origin) && NextAnswer(peer, r, round, origin).Some?
    requires PeerSync.Continues(r, origin, NextAnswer(peer, r, round, origin).value)
    ensures var ops := NextAnswer(peer, r, round, origin).value; Asked(peer, r, ops) && Answered(peer, BatchMove(ops))
  {
    hide HighWater;
  }

  /** A view as the two-way pull asks for, whose peers answer for every configured node. */
  lemma AnsweringViewExists() returns (view: Replica -> Peer)
    ensures forall r: Replica :: Mirrors(view(r), r)
    ensures forall r: Replica :: r.clusterID != "" && r.nodeID != "" ==> AlwaysAnswers(view(r))
  {
    hide Mirrors, AlwaysAnswers, Complete, PeerOf;
    view := (r: Replica) => PeerOf(r);
    forall r: Replica
      ensures Mirrors(view(r), r) && (r.clusterID != "" && r.nodeID != "" ==> AlwaysAnswers(view(r)))
    {
      PeerOfMirrors(r);
    }
  }
}
