/** Workflow schedules: rows leased for five minutes to whoever claims them. The
    SELECT of a claim and its UPDATEs are separate steps, so that other claimers,
    finishers and users may come between. */
module Schedules {
  import opened Basics

  const LEASE_MS := 300_000

  datatype Row = Row(dueAt: int, leaseUntil: int, leaseToken: string, config: string)

  datatype Candidate = Candidate(id: string, dueAt: int, now: int)

  /** `seen` are the candidates some SELECT returned, `issued` the lease tokens drawn. */
  datatype Schedules = Schedules(rows: map<string, Row>, seen: set<Candidate>, issued: set<string>)

  predicate Claimable(r: Row, now: int) { r.dueAt <= now && r.leaseUntil < now }

  datatype Step =
    | Select(now: int, found: set<Candidate>)
    | TryClaim(candidate: Candidate, token: string)
    | Finish(id: string, token: string, next: Option<int>)
    | Reschedule(id: string, dueAt: int, config: Option<string>)
    | Cancel(id: string)

  /** The guard of the claiming UPDATE. */
  predicate Takes(rows: map<string, Row>, c: Candidate)
  {
    c.id in rows && rows[c.id].dueAt == c.dueAt && rows[c.id].leaseUntil < c.now
  }

  /** The guard of the finishing UPDATE and DELETE. */
  predicate HoldsToken(rows: map<string, Row>, id: string, token: string)
  {
    id in rows && rows[id].leaseToken == token
  }

  function LeasedRow(r: Row, c: Candidate, token: string): Row { Row(c.dueAt, c.now + LEASE_MS, token, r.config) }

  function Leased(rows: map<string, Row>, c: Candidate, token: string): map<string, Row>
  {
    if Takes(rows, c) then rows[c.id := LeasedRow(rows[c.id], c, token)] else rows
  }

  /** The row moves to its next time, or goes if there is none. */
  function Finished(rows: map<string, Row>, id: string, token: string, next: Option<int>): map<string, Row>
  {
    if !HoldsToken(rows, id, token) then rows
    else if next.Some? then rows[id := Row(next.value, 0, "", rows[id].config)]
    else rows - {id}
  }

  /** A new configuration is stored; without one an existing row keeps its own. */
  function ConfigAfter(rows: map<string, Row>, id: string, config: Option<string>): string
  {
    if config.Some? then config.value else if id in rows then rows[id].config else "{}"
  }

  /** Insert or update: a new due time and no lease. */
  function Rescheduled(rows: map<string, Row>, id: string, dueAt: int, config: Option<string>): map<string, Row>
  {
    rows[id := Row(dueAt, 0, "", ConfigAfter(rows, id, config))]
  }

  predicate Enabled(s: Schedules, step: Step)
  {
    match step
    case Select(now, found) =>
      forall c :: c in found ==>
        c.now == now && c.id in s.rows && s.rows[c.id].dueAt == c.dueAt && Claimable(s.rows[c.id], now)
    case TryClaim(c, token) => c in s.seen && token !in s.issued && token != ""
    case Finish(_, token, _) => token in s.issued
    case Reschedule(_, _, _) => true
    case Cancel(_) => true
  }

  function After(s: Schedules, step: Step): Schedules
  {
    match step
    case Select(_, found) => s.(seen := s.seen + found)
    case TryClaim(c, token) => s.(rows := Leased(s.rows, c, token), issued := s.issued + {token})
    case Finish(id, token, next) => s.(rows := Finished(s.rows, id, token, next))
    case Reschedule(id, dueAt, config) => s.(rows := Rescheduled(s.rows, id, dueAt, config))
    case Cancel(id) => s.(rows := s.rows - {id})
  }

  /* ---------- What the statements write, column by column ---------- */

  ghost predicate OthersStay(rows: map<string, Row>, rows': map<string, Row>, id: string)
  {
    forall other :: other != id ==>
      (other in rows' <==> other in rows) && (other in rows ==> rows'[other] == rows[other])
  }

  /** A row that still has the selected time and no live lease is leased for five minutes. */
  ghost predicate LeasesRow(rows: map<string, Row>, rows': map<string, Row>, c: Candidate, token: string, taken: bool)
  {
    && (taken <==> c.id in rows && rows[c.id].dueAt == c.dueAt && rows[c.id].leaseUntil < c.now)
    && (taken ==>
          && OthersStay(rows, rows', c.id) && c.id in rows'
          && rows'[c.id] == Row(rows[c.id].dueAt, c.now + 300_000, token, rows[c.id].config))
    && (!taken ==> rows' == rows)
  }

  /** Under its token a row gets its next time and loses its lease, or is deleted. */
  ghost predicate FinishesRow(rows: map<string, Row>, rows': map<string, Row>, id: string, token: string,
                              next: Option<int>)
  {
    && OthersStay(rows, rows', id)
    && (id in rows && rows[id].leaseToken == token && next.Some? ==>
          id in rows' && rows'[id] == Row(next.value, 0, "", rows[id].config))
    && (id in rows && rows[id].leaseToken == token && next.None? ==> id !in rows')
    && (id in rows && rows[id].leaseToken != token ==> id in rows' && rows'[id] == rows[id])
    && (id !in rows ==> id !in rows')
  }

  /** A new time and no lease; the configuration is the given one, else the row's own. */
  ghost predicate SetsRow(rows: map<string, Row>, rows': map<string, Row>, id: string, dueAt: int,
                          config: Option<string>)
  {
    && OthersStay(rows, rows', id) && id in rows'
    && rows'[id].dueAt == dueAt && rows'[id].leaseUntil == 0 && rows'[id].leaseToken == ""
    && (config.Some? ==> rows'[id].config == config.value)
    && (config.None? && id in rows ==> rows'[id].config == rows[id].config)
    && (config.None? && id !in rows ==> rows'[id].config == "{}")
  }

  /** Right after a claim nobody can claim before the lease has run out, and its own
      finish takes effect while that of another token does not. */
  lemma ClaimThenFinish(rows: map<string, Row>, c: Candidate, token: string, other: string, next: Option<int>)
    requires Takes(rows, c) && other != token
    ensures var leased := Leased(rows, c, token);
            && (forall now :: Due(leased, c.id, now) <==> c.dueAt <= now && c.now + 300_000 < now)
            && Finished(leased, c.id, other, next) == leased
            && (next.None? ==> Finished(leased, c.id, token, next) == rows - {c.id})
            && (next.Some? ==>
                  Finished(leased, c.id, token, next) == rows[c.id := Row(next.value, 0, "", rows[c.id].config)])
  {
  }

  datatype Run = Run(states: seq<Schedules>, steps: seq<Step>)

  ghost predicate ValidRun(run: Run)
  {
    && |run.states| == |run.steps| + 1
    && run.states[0] == Schedules(map[], {}, {})
    && forall i :: 0 <= i < |run.steps| ==>
         Enabled(run.states[i], run.steps[i]) && run.states[i + 1] == After(run.states[i], run.steps[i])
  }

  /* ---------- What a step means for one schedule ---------- */

  /** Step i claimed the schedule under this token. */
  ghost predicate Claims(run: Run, i: nat, id: string, token: string)
    requires |run.states| == |run.steps| + 1
  {
    && i < |run.steps| && run.steps[i].TryClaim? && run.steps[i].candidate.id == id && run.steps[i].token == token
    && Takes(run.states[i].rows, run.steps[i].candidate)
  }

  ghost predicate ClaimsIt(run: Run, i: nat, id: string)
    requires |run.states| == |run.steps| + 1
  {
    i < |run.steps| && run.steps[i].TryClaim? && Claims(run, i, id, run.steps[i].token)
  }

  /** Step i finished the schedule under this token: it moved or deleted the row. */
  ghost predicate Finishes(run: Run, i: nat, id: string, token: string)
    requires |run.states| == |run.steps| + 1
  {
    && i < |run.steps| && run.steps[i].Finish? && run.steps[i].id == id && run.steps[i].token == token
    && HoldsToken(run.states[i].rows, id, token)
  }

  ghost predicate FinishesIt(run: Run, i: nat, id: string)
    requires |run.states| == |run.steps| + 1
  {
    i < |run.steps| && run.steps[i].Finish? && Finishes(run, i, id, run.steps[i].token)
  }

  ghost predicate UserSets(run: Run, i: nat, id: string)
    requires |run.states| == |run.steps| + 1
  {
    i < |run.steps| && (run.steps[i].Reschedule? || run.steps[i].Cancel?) && run.steps[i].id == id
  }

  /** A finish, a reschedule or a cancel of the schedule. */
  ghost predicate Resets(run: Run, i: nat, id: string)
    requires |run.states| == |run.steps| + 1
  {
    FinishesIt(run, i, id) || UserSets(run, i, id)
  }

  /** Nothing touched the schedule strictly between steps i and k. */
  ghost predicate Undisturbed(run: Run, i: nat, k: nat, id: string)
    requires |run.states| == |run.steps| + 1
  {
    forall m :: i < m < k ==> !Resets(run, m, id) && !ClaimsIt(run, m, id)
  }

  /** A step that neither claims nor resets a schedule leaves its row alone. */
  lemma OthersKeepTheRow(run: Run, i: nat, id: string)
    requires ValidRun(run) && i < |run.steps| && !Resets(run, i, id) && !ClaimsIt(run, i, id)
    ensures id in run.states[i + 1].rows <==> id in run.states[i].rows
    ensures id in run.states[i].rows ==> run.states[i + 1].rows[id] == run.states[i].rows[id]
  {
  }

  lemma ClaimSetsTheRow(run: Run, i: nat, id: string, token: string)
    requires ValidRun(run) && Claims(run, i, id, token)
    ensures id in run.states[i + 1].rows
    ensures id in run.states[i].rows &&
            run.states[i + 1].rows[id] == LeasedRow(run.states[i].rows[id], run.steps[i].candidate, token)
  {
  }

  lemma ResetClearsTheRow(run: Run, i: nat, id: string)
    requires ValidRun(run) && Resets(run, i, id)
    ensures id in run.states[i + 1].rows ==>
            run.states[i + 1].rows[id].leaseToken == "" && run.states[i + 1].rows[id].leaseUntil == 0
  {
  }

  /** A claimed row stays as the claim left it until something else touches it. */
  lemma {:induction false} StaysLeased(run: Run, i: nat, k: nat, id: string, token: string)
    requires ValidRun(run) && Claims(run, i, id, token) && i < k < |run.states| && Undisturbed(run, i, k, id)
    ensures id in run.states[k].rows
    ensures id in run.states[i].rows &&
            run.states[k].rows[id] == LeasedRow(run.states[i].rows[id], run.steps[i].candidate, token)
    decreases k
  {
    hide ValidRun, Claims, Resets, ClaimsIt;
    ValidLength(run);
    if k == i + 1 {
      ClaimSetsTheRow(run, i, id, token);
    } else {
      StaysLeased(run, i, k - 1, id, token);
      OthersKeepTheRow(run, k - 1, id);
    }
  }

  /** Any token on a row comes from a claim after which nothing touched the row. */
  lemma {:induction false} TokenHasItsClaim(run: Run, k: nat, id: string) returns (i: nat)
    requires ValidRun(run) && k < |run.states| && id in run.states[k].rows && run.states[k].rows[id].leaseToken != ""
    ensures i < k && Claims(run, i, id, run.states[k].rows[id].leaseToken) && Undisturbed(run, i, k, id)
    decreases k
  {
    hide Resets, Claims, After, Enabled;
    i := k - 1;
    if ClaimsIt(run, k - 1, id) {
      ClaimSetsTheRow(run, k - 1, id, run.steps[k - 1].token);
    } else if Resets(run, k - 1, id) {
      ResetClearsTheRow(run, k - 1, id);
    } else {
      OthersKeepTheRow(run, k - 1, id);
      i := TokenHasItsClaim(run, k - 1, id);
    }
  }

  /** Leases of successive claims do not overlap unless a finish, a reschedule or a
      cancel came between. */
  lemma LeasesDoNotOverlap(run: Run, i: nat, j: nat, id: string, t: string, u: string)
    requires ValidRun(run) && i < j && Claims(run, i, id, t) && Claims(run, j, id, u) && Undisturbed(run, i, j, id)
    ensures run.steps[i].candidate.now + LEASE_MS < run.steps[j].candidate.now
  {
    hide ValidRun, Undisturbed;
    ValidLength(run);
    StaysLeased(run, i, j, id, t);
  }

  lemma ValidLength(run: Run)
    requires ValidRun(run)
    ensures |run.states| == |run.steps| + 1
  {
  }

  /** A token belongs to one claim of one schedule. */
  lemma TokensAreIssuedOnce(run: Run, i: nat, j: nat, id: string, other: string, token: string)
    requires ValidRun(run) && Claims(run, i, id, token) && Claims(run, j, other, token)
    ensures i == j && id == other
  {
    if i < j {
      IssuedStays(run, i, j, token);
    } else if j < i {
      IssuedStays(run, j, i, token);
    }
  }

  lemma {:induction false} IssuedStays(run: Run, i: nat, k: nat, token: string)
    requires ValidRun(run) && i < k < |run.states| && run.steps[i].TryClaim? && run.steps[i].token == token
    ensures token in run.states[k].issued
    decreases k
  {
    hide Takes, HoldsToken, Enabled;
    assert run.states[k - 1 + 1] == After(run.states[k - 1], run.steps[k - 1]);
    if k > i + 1 {
      IssuedStays(run, i, k - 1, token);
    }
  }

  lemma {:induction false} NoEmptyToken(run: Run, k: nat)
    requires ValidRun(run) && k < |run.states|
    ensures "" !in run.states[k].issued
  {
    hide Takes, HoldsToken;
    if k > 0 {
      NoEmptyToken(run, k - 1);
      assert Enabled(run.states[k - 1], run.steps[k - 1]) &&
             run.states[k - 1 + 1] == After(run.states[k - 1], run.steps[k - 1]);
    }
  }

  ghost predicate IsFinish(run: Run, j: nat, id: string, token: string)
    requires |run.states| == |run.steps| + 1
  {
    j < |run.steps| && run.steps[j].Finish? && run.steps[j].id == id && run.steps[j].token == token
  }

  /** A finish moves or deletes the row exactly if its token is that of the latest
      claim and nothing touched the schedule since. */
  lemma OnlyTheLatestClaimFinishes(run: Run, j: nat, id: string, token: string)
    requires ValidRun(run) && IsFinish(run, j, id, token)
    ensures Finishes(run, j, id, token) <==>
            exists i: nat :: i < j && Claims(run, i, id, token) && Undisturbed(run, i, j, id)
  {
    hide Claims, Undisturbed, After;
    if Finishes(run, j, id, token) {
      NoEmptyToken(run, j);
      assert Enabled(run.states[j], run.steps[j]);
      var i := TokenHasItsClaim(run, j, id);
    }
    if i: nat :| i < j && Claims(run, i, id, token) && Undisturbed(run, i, j, id) {
      StaysLeased(run, i, j, id, token);
    }
  }

  /** Hence a reschedule is never overwritten by an execution that began before it:
      until the next claim or user change the row keeps the new time and no lease. */
  lemma {:induction false} RescheduleIsKept(run: Run, i: nat, k: nat, id: string)
    requires ValidRun(run) && i < |run.steps| && run.steps[i].Reschedule? && run.steps[i].id == id &&
             i < k < |run.states|
    requires forall m :: i < m < k ==> !ClaimsIt(run, m, id) && !UserSets(run, m, id)
    ensures id in run.states[k].rows
    ensures run.states[k].rows[id] ==
            Row(run.steps[i].dueAt, 0, "", ConfigAfter(run.states[i].rows, id, run.steps[i].config))
    decreases k
  {
    hide Takes, Claims, ClaimsIt, UserSets;
    assert run.states[k - 1 + 1] == After(run.states[k - 1], run.steps[k - 1]);
    if k > i + 1 {
      RescheduleIsKept(run, i, k - 1, id);
      NoEmptyToken(run, k - 1);
      assert Enabled(run.states[k - 1], run.steps[k - 1]);
      OthersKeepTheRow(run, k - 1, id);
    }
  }

  /* ---------- The table ---------- */

  const BATCH := 50
  const SNOOZE_LIMIT_NS := 30 * 24 * 3600 * 1_000_000_000

  predicate Due(rows: map<string, Row>, id: string, now: int) { id in rows && Claimable(rows[id], now) }

  /** `ids` are due rows in order of due time, and none left out is due earlier. */
  ghost predicate EarliestDue(rows: map<string, Row>, now: int, ids: seq<string>)
  {
    && (forall i :: 0 <= i < |ids| ==> Due(rows, ids[i], now))
    && (forall i, j :: 0 <= i < j < |ids| ==> ids[i] != ids[j] && rows[ids[i]].dueAt <= rows[ids[j]].dueAt)
    && (forall i, id :: 0 <= i < |ids| && Due(rows, id, now) && id !in ids ==> rows[ids[i]].dueAt <= rows[id].dueAt)
  }

  predicate EarliestOf(rows: map<string, Row>, due: set<string>, id: string)
  {
    id in due && due <= rows.Keys && forall other :: other in due ==> rows[id].dueAt <= rows[other].dueAt
  }

  lemma {:induction false} EarliestExists(rows: map<string, Row>, due: set<string>) returns (id: string)
    requires due != {} && due <= rows.Keys
    ensures EarliestOf(rows, due, id)
  {
    id :| id in due;
    if due != {id} {
      var other := EarliestExists(rows, due - {id});
      if rows[other].dueAt < rows[id].dueAt {
        id := other;
      }
    }
  }

  /** The ids taken so far, in order, and what is left. */
  ghost predicate Picked(rows: map<string, Row>, now: int, due: set<string>, ids: seq<string>)
  {
    && due <= rows.Keys && (forall id :: Due(rows, id, now) <==> id in due || id in ids) &&
         (forall id :: id in due ==> id !in ids)
    && EarliestDue(rows, now, ids)
  }

  lemma NothingPicked(rows: map<string, Row>, now: int, due: set<string>)
    requires forall id :: Due(rows, id, now) <==> id in due
    ensures Picked(rows, now, due, [])
  {
  }

  lemma PickedNext(rows: map<string, Row>, now: int, due: set<string>, ids: seq<string>, id: string)
    requires Picked(rows, now, due, ids) && EarliestOf(rows, due, id)
    ensures id in due && Picked(rows, now, due - {id}, ids + [id])
  {
    hide Claimable;
    var ids' := ids + [id];
    assert forall other :: other in ids' <==> other in ids || other == id;
    assert Due(rows, id, now);
    forall i, other | 0 <= i < |ids'| && Due(rows, other, now) && other !in ids'
      ensures rows[ids'[i]].dueAt <= rows[other].dueAt
    {
      assert other in due;
    }
    forall i, j | 0 <= i < j < |ids'|
      ensures ids'[i] != ids'[j] && rows[ids'[i]].dueAt <= rows[ids'[j]].dueAt
    {
      assert ids'[i] in ids;
    }
  }

  /** SELECT … WHERE due and unleased ORDER BY due_at LIMIT 50. */
  method SelectDue(rows: map<string, Row>, now: int) returns (ids: seq<string>)
    ensures EarliestDue(rows, now, ids) && |ids| <= BATCH
    ensures |ids| < BATCH ==> forall id :: Due(rows, id, now) ==> id in ids
  {
    var due := set id | id in rows && Claimable(rows[id], now);
    ids := [];
    NothingPicked(rows, now, due);
    hide EarliestDue, EarliestOf, Due;
    while due != {} && |ids| < BATCH
      invariant Picked(rows, now, due, ids) && |ids| <= BATCH
      decreases |due|
    {
      ghost var first := EarliestExists(rows, due);
      var id :| EarliestOf(rows, due, id);
      PickedNext(rows, now, due, ids, id);
      ids := ids + [id];
      due := due - {id};
    }
  }

  predicate Among(ids: seq<string>, n: nat, id: string)
    requires n <= |ids|
  {
    exists j :: 0 <= j < n && ids[j] == id
  }

  function ClaimedRow(prior: Row, token: string,
                      now: int): Row { Row(prior.dueAt, now + LEASE_MS, token, prior.config) }

  /** The first n of the selected rows are leased and nothing else changed. */
  ghost predicate LeasedFirst(prior: map<string, Row>, rows: map<string, Row>, ids: seq<string>, tokens: seq<string>,
                              n: nat, now: int)
    requires n <= |ids| <= |tokens|
  {
    && rows.Keys == prior.Keys
    && (forall i :: 0 <= i < n && ids[i] in prior ==> rows[ids[i]] == ClaimedRow(prior[ids[i]], tokens[i], now))
    && (forall id :: id in prior && !Among(ids, n, id) ==> rows[id] == prior[id])
  }

  class Store {
    var rows: map<string, Row>
    var snoozes: map<string, int>

    constructor ()
      ensures rows == map[] && snoozes == map[]
    {
      rows, snoozes := map[], map[];
    }

    /** The claiming UPDATE of one candidate. */
    method LeaseOne(c: Candidate, token: string) returns (taken: bool)
      modifies this`rows
      ensures taken <==> Takes(old(rows), c)
      ensures rows == Leased(old(rows), c, token)
      ensures LeasesRow(old(rows), rows, c, token, taken)
    {
      taken := c.id in rows && rows[c.id].dueAt == c.dueAt && rows[c.id].leaseUntil < c.now;
      if taken {
        rows := rows[c.id := Row(c.dueAt, c.now + LEASE_MS, token, rows[c.id].config)];
      }
    }

    /** With nobody in between, a claim leases the up to fifty earliest due rows, each
        under its own token. */
    method ClaimSchedules(now: int, tokens: seq<string>) returns (claimed: seq<string>)
      requires |tokens| == BATCH
      modifies this`rows
      ensures |claimed| <= 50 && EarliestDue(old(rows), now, claimed)
      ensures |claimed| < 50 ==>
                forall id :: id in old(rows) && old(rows)[id].dueAt <= now && old(rows)[id].leaseUntil < now ==>
                  id in claimed
      ensures forall id :: id in claimed ==>
                id in old(rows) && old(rows)[id].dueAt <= now && old(rows)[id].leaseUntil < now
      ensures forall i :: 0 <= i < |claimed| ==>
                && claimed[i] in old(rows) && claimed[i] in rows
                && rows[claimed[i]] == Row(old(rows)[claimed[i]].dueAt, now + 300_000, tokens[i],
                                           old(rows)[claimed[i]].config)
      ensures LeasedFirst(old(rows), rows, claimed, tokens, |claimed|, now)
    {
      var selected := rows;
      var candidates := SelectDue(rows, now);
      claimed := [];
      NothingLeased(selected, candidates, tokens, now);
      hide LeasedFirst, EarliestDue, Leased, Takes, Due, LeasesRow, LeasedRow;
      for i := 0 to |candidates|
        invariant claimed == candidates[..i]
        invariant LeasedFirst(selected, rows, candidates, tokens, i, now)
      {
        var id := candidates[i];
        NotYetLeased(selected, now, candidates, i);
        LeasedOneMore(selected, rows, candidates, tokens, i, now);
        var taken := LeaseOne(Candidate(id, selected[id].dueAt, now), tokens[i]);
        if taken {
          claimed := claimed + [id];
        }
        assert candidates[..i + 1] == candidates[..i] + [id];
      }
      assert candidates[..|candidates|] == candidates;
      ClaimedRows(selected, rows, claimed, tokens, now);
    }

    method FinishSchedule(id: string, token: string, next: Option<int>)
      modifies this`rows
      ensures rows == Finished(old(rows), id, token, next)
      ensures FinishesRow(old(rows), rows, id, token, next)
    {
      match next
      case None =>
        if id in rows && rows[id].leaseToken == token { rows := rows - {id}; }
      case Some(at) =>
        if id in rows && rows[id].leaseToken == token { rows := rows[id := Row(at, 0, "", rows[id].config)]; }
    }

    /** A snooze must end within the next 30 days; none at all cancels it. Times are
        nanoseconds, the row keeps whole milliseconds; the clock is read once per bound. */
    method Snooze(id: string, allowed: bool, until: Option<int>, now: int, later: int) returns (ok: bool)
      modifies this
      ensures snoozes ==
              if !ok then old(snoozes)
              else if until.None? then old(snoozes) - {id}
              else old(snoozes)[id := until.value / 1_000_000]
      ensures ok <==> allowed && (until.Some? ==> now < until.value <= later + 2_592_000_000_000_000)
      ensures !ok ==> rows == old(rows)
      ensures ok ==>
                match until
                case None => rows == old(rows) - {id}
                case Some(at) =>
                  rows == Rescheduled(old(rows), id, at / NS_PER_MS, None) &&
                  SetsRow(old(rows), rows, id, at / 1_000_000, None)
    {
      if !allowed {
        return false;
      }
      if until.Some? && (!(until.value > now) || until.value > later + SNOOZE_LIMIT_NS) {
        return false;
      }
      if until.None? {
        snoozes, rows := snoozes - {id}, rows - {id};
      } else {
        var at := until.value / NS_PER_MS;
        snoozes, rows := snoozes[id := at], rows[id := Row(at, 0, "", if id in rows then rows[id].config else "{}")];
      }
      ok := true;
    }

    /** `next` is the digest's next local time, or an error; no time of day cancels it. */
    method SaveDigest(id: string, ownsView: bool, off: bool, next: Option<int>, config: string) returns (ok: bool)
      modifies this`rows
      ensures ok <==> ownsView && (off || next.Some?)
      ensures rows == if !ok then old(rows) else if off then old(rows) - {id}
              else Rescheduled(old(rows), id, next.value, Some(config))
      ensures ok && !off ==> SetsRow(old(rows), rows, id, next.value, Some(config))
    {
      if !ownsView {
        return false;
      }
      if off {
        rows := rows - {id};
        return true;
      }
      if next.None? {
        return false;
      }
      rows := rows[id := Row(next.value, 0, "", config)];
      ok := true;
    }
  }

  /** The claimed rows, column by column. */
  lemma ClaimedRows(prior: map<string, Row>, rows: map<string, Row>, ids: seq<string>, tokens: seq<string>, now: int)
    requires |ids| <= |tokens| && EarliestDue(prior, now, ids) && LeasedFirst(prior, rows, ids, tokens, |ids|, now)
    ensures forall id :: id in ids ==> id in prior && prior[id].dueAt <= now && prior[id].leaseUntil < now
    ensures forall i :: 0 <= i < |ids| ==>
              && ids[i] in prior && ids[i] in rows
              && rows[ids[i]] == Row(prior[ids[i]].dueAt, now + 300_000, tokens[i], prior[ids[i]].config)
    ensures forall id :: Due(prior, id, now) <==>
              id in prior && prior[id].dueAt <= now && prior[id].leaseUntil < now
  {
    hide Among;
  }

  lemma NothingLeased(rows: map<string, Row>, ids: seq<string>, tokens: seq<string>, now: int)
    requires |ids| <= |tokens|
    ensures LeasedFirst(rows, rows, ids, tokens, 0, now)
  {
  }

  lemma LeasedOneMore(prior: map<string, Row>, rows: map<string, Row>, ids: seq<string>, tokens: seq<string>, i: nat,
                      now: int)
    requires EarliestDue(prior, now, ids) && i < |ids| <= |tokens| && ids[i] in prior
    requires LeasedFirst(prior, rows, ids, tokens, i, now)
    ensures var c := Candidate(ids[i], prior[ids[i]].dueAt, now);
            Takes(rows, c) && LeasedFirst(prior, Leased(rows, c, tokens[i]), ids, tokens, i + 1, now)
  {
    NotYetLeased(prior, now, ids, i);
    hide EarliestDue;
    var id, c := ids[i], Candidate(ids[i], prior[ids[i]].dueAt, now);
    assert rows[id] == prior[id];
    LeasedRowIsClaimed(prior[id], c, tokens[i]);
    assert Leased(rows, c, tokens[i]) == rows[id := ClaimedRow(prior[id], tokens[i], now)];
    hide LeasedFirst, Leased, ClaimedRow, Among;
    LeasedUpdate(prior, rows, ids, tokens, i, now);
  }

  lemma LeasedUpdate(prior: map<string, Row>, rows: map<string, Row>, ids: seq<string>, tokens: seq<string>, i: nat,
                     now: int)
    requires i < |ids| <= |tokens| && ids[i] in prior && LeasedFirst(prior, rows, ids, tokens, i, now)
    requires forall j :: 0 <= j < i ==> ids[j] != ids[i]
    ensures LeasedFirst(prior, rows[ids[i] := ClaimedRow(prior[ids[i]], tokens[i], now)], ids, tokens, i + 1, now)
  {
    AmongOneMore(ids, i);
    hide Among, ClaimedRow;
    var id := ids[i];
    var rows' := rows[id := ClaimedRow(prior[id], tokens[i], now)];
    assert rows'.Keys == prior.Keys;
  }

  lemma LeasedRowIsClaimed(r: Row, c: Candidate, token: string)
    ensures r.dueAt == c.dueAt ==> LeasedRow(r, c, token) == ClaimedRow(r, token, c.now)
  {
  }

  lemma AmongOneMore(ids: seq<string>, i: nat)
    requires i < |ids|
    ensures forall id :: Among(ids, i + 1, id) <==> Among(ids, i, id) || id == ids[i]
  {
    assert Among(ids, i + 1, ids[i]);
    forall id | Among(ids, i, id) ensures Among(ids, i + 1, id) {
      var j :| 0 <= j < i && ids[j] == id;
      assert ids[j] == id;
    }
  }

  lemma NotYetLeased(rows: map<string, Row>, now: int, ids: seq<string>, i: nat)
    requires EarliestDue(rows, now, ids) && i < |ids|
    ensures ids[i] in rows && !Among(ids, i, ids[i]) && rows[ids[i]].leaseUntil < now
    ensures forall j :: 0 <= j < i ==> ids[j] != ids[i]
  {
  }
}
