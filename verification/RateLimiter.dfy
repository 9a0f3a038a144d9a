/** The fixed-window limiter for tool calls. Times are nanoseconds. */
module RateLimiter {
  const MINUTE := 60_000_000_000
  const CAPACITY := 4096

  datatype Window = Window(count: int, start: int)

  type Table = map<string, Window>

  predicate Expired(w: Window, now: int) { now - w.start >= MINUTE }

  predicate Live(t: Table, key: string, now: int) { key in t && !Expired(t[key], now) }

  function Purged(t: Table, now: int): Table
  {
    map k | k in t && !Expired(t[k], now) :: t[k]
  }

  datatype Answer = Answer(table: Table, ok: bool)

  /** A new window, kept within capacity. */
  function Opened(t: Table, key: string, now: int): Table
  {
    var t' := t[key := Window(1, now)];
    if |t'| > CAPACITY then Purged(t', now) else t'
  }

  function Allowing(t: Table, key: string, limit: int, now: int): Answer
  {
    if Live(t, key, now) then
      if t[key].count >= limit then Answer(t, false)
      else Answer(t[key := Window(t[key].count + 1, t[key].start)], true)
    else if key in t || |t| < CAPACITY then Answer(Opened(t, key, now), true)
    else if |Purged(t, now)| >= CAPACITY then Answer(Purged(t, now), false)
    else Answer(Opened(Purged(t, now), key, now), true)
  }

  function FailureRecorded(t: Table, key: string, now: int): Table
  {
    if Live(t, key, now) then t[key := Window(t[key].count + 1, t[key].start)]
    else if key !in t && |t| >= CAPACITY then t
    else t[key := Window(1, now)]
  }

  predicate IsBlocked(t: Table, key: string, limit: int, now: int)
  {
    Live(t, key, now) && t[key].count >= limit
  }

  /** A call is refused exactly when its key is blocked, or its key is new and the
      table is full of live windows. */
  lemma RefusedExactlyWhen(t: Table, key: string, limit: int, now: int)
    ensures !Allowing(t, key, limit, now).ok <==>
            IsBlocked(t, key, limit, now) || (key !in t && |Purged(t, now)| >= CAPACITY)
  {
    PurgedIsSmaller(t, now);
  }

  /* ---------- What the calls do, window by window ---------- */

  /** Keys whose minute is still running. */
  function Running(t: Table, now: int): (keys: set<string>)
  {
    set k | k in t && now - t[k].start < 60_000_000_000
  }

  /** Of the other keys only windows whose minute is over may go, and only from a full table. */
  ghost predicate KeepsOthers(t: Table, t': Table, key: string, now: int)
  {
    && (forall k :: k in t' && k != key ==> k in t && t'[k] == t[k])
    && (forall k :: k in t && k != key && now - t[k].start < 60_000_000_000 ==> k in t')
    && (|t| <= 4096 && (key in t || |t| < 4096) ==> forall k :: k in t && k != key ==> k in t')
  }

  /** A call within a running minute is counted there if the limit allows it; any other begins
      a minute of its own, unless the key is new and 4096 minutes are running. */
  ghost predicate Allows(t: Table, t': Table, key: string, limit: int, now: int, ok: bool)
  {
    && KeepsOthers(t, t', key, now)
    && (key in t && now - t[key].start < 60_000_000_000 ==>
          && (ok <==> t[key].count < limit)
          && t' == if ok then t[key := Window(t[key].count + 1, t[key].start)] else t)
    && (key in t && now - t[key].start >= 60_000_000_000 ==> ok && key in t' && t'[key] == Window(1, now))
    && (key !in t ==> (ok <==> |t| < 4096 || |Running(t, now)| < 4096))
    && (key !in t ==> (if ok then key in t' && t'[key] == Window(1, now) else key !in t'))
  }

  /** A failure is counted whatever the limit; only a new key beside 4096 others goes uncounted. */
  ghost predicate CountsFailure(t: Table, t': Table, key: string, now: int)
  {
    && (forall k :: k != key ==> (k in t' <==> k in t) && (k in t ==> t'[k] == t[k]))
    && (key in t && now - t[key].start < 60_000_000_000 ==>
          key in t' && t'[key] == Window(t[key].count + 1, t[key].start))
    && ((key in t && now - t[key].start >= 60_000_000_000) || (key !in t && |t| < 4096) ==>
          key in t' && t'[key] == Window(1, now))
    && (key !in t && |t| >= 4096 ==> key !in t')
  }

  lemma RunningIsPurged(t: Table, now: int)
    ensures |Running(t, now)| == |Purged(t, now)| <= |t|
  {
    PurgedIsSmaller(t, now);
    assert Running(t, now) == Purged(t, now).Keys;
    assert |Purged(t, now).Keys| == |Purged(t, now)|;
  }

  lemma AllowingKeepsOthers(t: Table, key: string, limit: int, now: int)
    ensures KeepsOthers(t, Allowing(t, key, limit, now).table, key, now)
  {
    InsertGrowsByOne(t, key, Window(1, now));
    InsertGrowsByOne(Purged(t, now), key, Window(1, now));
  }

  lemma AllowingLaw(t: Table, key: string, limit: int, now: int)
    ensures var a := Allowing(t, key, limit, now); Allows(t, a.table, key, limit, now, a.ok)
  {
    AllowingKeepsOthers(t, key, limit, now);
    RunningIsPurged(t, now);
    hide Running, KeepsOthers;
  }

  lemma FailureLaw(t: Table, key: string, now: int)
    ensures CountsFailure(t, FailureRecorded(t, key, now), key, now)
  {
  }

  /** The table after failures of one key at these times. */
  function Failures(t: Table, key: string, times: seq<int>): Table
  {
    if times == [] then t
    else FailureRecorded(Failures(t, key, times[..|times| - 1]), key, times[|times| - 1])
  }

  /** As many failures as the limit, all within a minute of the first, block a key
      that was not counted before, for the rest of that minute and no longer. */
  lemma {:induction false} FailuresBlock(t: Table, key: string, times: seq<int>, limit: int, now: int)
    requires times != [] && key !in t && |t| < 4096
    requires forall i :: 0 <= i < |times| ==> times[i] - times[0] < 60_000_000_000
    ensures key in Failures(t, key, times) && Failures(t, key, times)[key] == Window(|times|, times[0])
    ensures IsBlocked(Failures(t, key, times), key, limit, now) <==>
              now - times[0] < 60_000_000_000 && limit <= |times|
  {
    var n := |times| - 1;
    if n == 0 {
      assert Failures(t, key, times[..0]) == t;
    } else {
      FailuresBlock(t, key, times[..n], limit, times[n]);
    }
  }

  /* ---------- Runs over all keys ---------- */

  datatype Event =
    | AllowCall(key: string, limit: int, now: int)
    | FailureCall(key: string, now: int)
    | ClearCall(key: string, now: int)

  function After(t: Table, e: Event): Table
  {
    match e
    case AllowCall(key, limit, now) => Allowing(t, key, limit, now).table
    case FailureCall(key, now) => FailureRecorded(t, key, now)
    case ClearCall(key, _) => t - {key}
  }

  /** The table after the first i events. */
  function TableAt(events: seq<Event>, i: nat): Table
    requires i <= |events|
  {
    if i == 0 then map[] else After(TableAt(events, i - 1), events[i - 1])
  }

  lemma {:induction false} SubsetIsSmaller(a: set<string>, b: set<string>)
    requires a <= b
    ensures |a| <= |b|
  {
    if a != {} {
      var x :| x in a;
      SubsetIsSmaller(a - {x}, b - {x});
    }
  }

  lemma PurgedIsSmaller(t: Table, now: int)
    ensures |Purged(t, now)| <= |t|
  {
    SubsetIsSmaller(Purged(t, now).Keys, t.Keys);
    assert |t.Keys| == |t| && |Purged(t, now).Keys| == |Purged(t, now)|;
  }

  lemma InsertGrowsByOne(t: Table, key: string, w: Window)
    ensures |t[key := w]| == if key in t then |t| else |t| + 1
  {
    var t' := t[key := w];
    assert t'.Keys == t.Keys + {key};
    assert |t'.Keys| == |t'| && |t.Keys| == |t|;
  }

  lemma StepKeepsCapacity(t: Table, e: Event)
    requires |t| <= CAPACITY
    ensures |After(t, e)| <= CAPACITY
  {
    PurgedIsSmaller(t, e.now);
    match e
    case AllowCall(key, limit, now) =>
      InsertGrowsByOne(t, key, Window(1, now));
      InsertGrowsByOne(Purged(t, now), key, Window(1, now));
      if Live(t, key, now) {
        InsertGrowsByOne(t, key, Window(t[key].count + 1, t[key].start));
      }
    case FailureCall(key, now) =>
      InsertGrowsByOne(t, key, Window(1, now));
      if Live(t, key, now) {
        InsertGrowsByOne(t, key, Window(t[key].count + 1, t[key].start));
      }
    case ClearCall(key, _) =>
      SubsetIsSmaller((t - {key}).Keys, t.Keys);
      assert |t.Keys| == |t| && |(t - {key}).Keys| == |t - {key}|;
  }

  /** The table never exceeds its capacity, in any run over all keys. */
  lemma {:induction false} TableStaysWithinCapacity(events: seq<Event>, i: nat)
    requires i <= |events|
    ensures |TableAt(events, i)| <= CAPACITY
  {
    hide After;
    if i > 0 {
      TableStaysWithinCapacity(events, i - 1);
      StepKeepsCapacity(TableAt(events, i - 1), events[i - 1]);
    }
  }

  /* ---------- One key under a steady clock ---------- */

  /** The clock never goes back; one key keeps its limit and is never cleared. */
  ghost predicate Steady(events: seq<Event>, key: string, limit: int)
  {
    && (forall i, j :: 0 <= i < j < |events| ==> events[i].now <= events[j].now)
    && (forall i :: 0 <= i < |events| && events[i].key == key ==>
        !events[i].ClearCall? && (events[i].AllowCall? ==> events[i].limit == limit))
  }

  /** Event i is a granted call for the key in the minute from x. */
  predicate Granted(events: seq<Event>, i: nat, key: string, x: int)
    requires i < |events|
  {
    && events[i].AllowCall? && events[i].key == key && x <= events[i].now < x + MINUTE
    && Allowing(TableAt(events, i), key, events[i].limit, events[i].now).ok
  }

  function GrantedCount(events: seq<Event>, i: nat, key: string, x: int): nat
    requires i <= |events|
  {
    if i == 0 then 0 else GrantedCount(events, i - 1, key, x) + if Granted(events, i - 1, key, x) then 1 else 0
  }

  /** How one event changes the window of a key: it may be extended while live, be
      replaced by a new one, or be dropped after its minute. */
  datatype Change = Kept | Counted | Renewed | Dropped

  ghost predicate Changes(t: Table, t': Table, key: string, now: int, c: Change)
  {
    match c
    case Kept => (key in t <==> key in t') && (key in t ==> t'[key] == t[key])
    case Counted => Live(t, key, now) && key in t' && t'[key] == Window(t[key].count + 1, t[key].start)
    case Renewed => !Live(t, key, now) && key in t' && t'[key] == Window(1, now)
    case Dropped => key in t && Expired(t[key], now) && key !in t'
  }

  lemma EventChanges(t: Table, e: Event, key: string) returns (c: Change)
    requires |t| <= CAPACITY && !(e.ClearCall? && e.key == key)
    ensures Changes(t, After(t, e), key, e.now, c)
    ensures e.key == key && e.AllowCall? && Allowing(t, key, e.limit, e.now).ok ==>
              c.Renewed? || (c.Counted? && t[key].count < e.limit)
  {
    var t', now := After(t, e), e.now;
    PurgedIsSmaller(t, now);
    InsertGrowsByOne(t, e.key, Window(1, now));
    InsertGrowsByOne(Purged(t, now), e.key, Window(1, now));
    if e.ClearCall? {
      c := Kept;
    } else if e.key != key {
      c := if key in t && key !in t' then Dropped else Kept;
    } else if Live(t, key, now) {
      c := if t' == t then Kept else Counted;
    } else {
      c := if key in t' && t'[key] == Window(1, now) then Renewed else if key in t && key !in t' then Dropped else Kept;
    }
  }

  /** Of the calls granted in the minute from x, `early` belong to a window that
      began before x and `late` to one that began at x or later. */
  ghost predicate Accounts(t: Table, key: string, limit: int, x: int, clock: int, early: nat, late: nat)
  {
    && early < limit && late <= limit
    && (key in t ==> t[key].start <= clock)
    && (clock < x ==> early == 0 && late == 0)
    && (clock < x + MINUTE ==>
          && (late > 0 ==> key in t)
          && (key in t && t[key].start < x ==> early < t[key].count && late == 0)
          && (key in t && t[key].start >= x ==> late <= t[key].count))
  }

  lemma AccountsStep(t: Table, t': Table, key: string, limit: int, x: int, clock: int, now: int, early: nat, late: nat,
                     c: Change, granted: bool)
    returns (early': nat, late': nat)
    requires limit >= 1 && clock <= now && Accounts(t, key, limit, x, clock, early, late) && Changes(t, t', key, now, c)
    requires granted ==> x <= now < x + MINUTE && (c.Renewed? || (c.Counted? && t[key].count < limit))
    ensures early' + late' == early + late + if granted then 1 else 0
    ensures Accounts(t', key, limit, x, now, early', late')
  {
    early', late' := early, late;
    if granted {
      if c.Counted? && t[key].start < x {
        early' := early + 1;
      } else {
        late' := late + 1;
      }
    }
  }

  lemma {:induction false} GrantsAreAccounted(events: seq<Event>, i: nat, key: string, limit: int, x: int)
    returns (early: nat, late: nat)
    requires limit >= 1 && Steady(events, key, limit) && 0 < i <= |events|
    ensures GrantedCount(events, i, key, x) == early + late
    ensures Accounts(TableAt(events, i), key, limit, x, events[i - 1].now, early, late)
  {
    hide After, Accounts, Changes, Allowing;
    var clock;
    if i == 1 {
      early, late, clock := 0, 0, events[0].now;
      NothingGranted(key, limit, x, clock);
    } else {
      early, late := GrantsAreAccounted(events, i - 1, key, limit, x);
      clock := events[i - 2].now;
    }
    var t, e := TableAt(events, i - 1), events[i - 1];
    TableStaysWithinCapacity(events, i - 1);
    var c := EventChanges(t, e, key);
    early, late :=
      AccountsStep(t, After(t, e), key, limit, x, clock, e.now, early, late, c, Granted(events, i - 1, key, x));
  }

  lemma NothingGranted(key: string, limit: int, x: int, clock: int)
    requires limit >= 1
    ensures Accounts(map[], key, limit, x, clock, 0, 0)
  {
  }

  /** No minute, wherever it begins, sees more than twice the limit; not even that. */
  lemma AtMostTwiceTheLimit(events: seq<Event>, key: string, limit: int, x: int)
    requires limit >= 1 && Steady(events, key, limit)
    ensures GrantedCount(events, |events|, key, x) <= 2 * limit - 1
  {
    hide Steady;
    if |events| > 0 {
      var early, late := GrantsAreAccounted(events, |events|, key, limit, x);
    }
  }

  /** One call at 0, then limit - 1 calls at 1, then limit calls when the minute is over. */
  function TightRun(key: string, limit: nat): seq<Event>
  {
    seq(2 * limit, i => AllowCall(key, limit, if i == 0 then 0 else if i < limit then 1 else MINUTE))
  }

  /** The only window after i of these calls. */
  function TightTable(key: string, limit: nat, i: nat): Table
  {
    if i == 0 then map[] else map[key := if i <= limit then Window(i, 0) else Window(i - limit, MINUTE)]
  }

  lemma TightCallIsGranted(key: string, limit: nat, i: nat)
    requires i < 2 * limit
    ensures var now := if i == 0 then 0 else if i < limit then 1 else MINUTE;
            Allowing(TightTable(key, limit, i), key, limit, now) == Answer(TightTable(key, limit, i + 1), true)
  {
    var t := TightTable(key, limit, i);
    InsertGrowsByOne(t, key, Window(1, 0));
    InsertGrowsByOne(t, key, Window(1, MINUTE));
    assert |t| <= 1;
  }

  /** All of these calls are granted, and all but the first fall into the minute from 1. */
  lemma {:induction false} TightRunGrants(key: string, limit: nat, i: nat)
    requires i <= 2 * limit
    ensures TableAt(TightRun(key, limit), i) == TightTable(key, limit, i)
    ensures GrantedCount(TightRun(key, limit), i, key, 1) == if i == 0 then 0 else i - 1
  {
    hide Allowing, TightTable;
    if i == 0 {
      NoCallsYet(key, limit);
    } else {
      TightRunGrants(key, limit, i - 1);
      TightCallIsGranted(key, limit, i - 1);
    }
  }

  lemma NoCallsYet(key: string, limit: nat)
    ensures TableAt(TightRun(key, limit), 0) == TightTable(key, limit, 0)
  {
  }

  /** The bound is reached, for every limit. */
  lemma BoundIsReached(key: string, limit: nat)
    requires limit >= 1
    ensures Steady(TightRun(key, limit), key, limit)
    ensures GrantedCount(TightRun(key, limit), 2 * limit, key, 1) == 2 * limit - 1
  {
    TightRunGrants(key, limit, 2 * limit);
  }

  /* ---------- The object ---------- */

  class ToolLimiter {
    var windows: Table

    constructor ()
      ensures windows == map[]
    {
      windows := map[];
    }

    /** Deletes the windows whose minute is over, one by one. */
    method DropExpired(now: int)
      modifies this
      ensures windows == Purged(old(windows), now)
      ensures forall k :: k in windows <==> k in old(windows) && now - old(windows)[k].start < 60_000_000_000
      ensures forall k :: k in windows ==> windows[k] == old(windows)[k]
    {
      var names := windows.Keys;
      while names != {}
        invariant names <= old(windows).Keys
        invariant forall k :: k in windows <==> k in old(windows) && (k in names || !Expired(old(windows)[k], now))
        invariant forall k :: k in windows ==> windows[k] == old(windows)[k]
        decreases |names|
      {
        var name :| name in names;
        if Expired(windows[name], now) {
          windows := windows - {name};
        }
        names := names - {name};
      }
    }

    method Allow(key: string, limit: int, now: int) returns (ok: bool)
      modifies this
      ensures Answer(windows, ok) == Allowing(old(windows), key, limit, now)
      ensures Allows(old(windows), windows, key, limit, now, ok)
    {
      AllowingLaw(windows, key, limit, now);
      hide Purged, Allows;
      if key !in windows || Expired(windows[key], now) {
        if key !in windows && |windows| >= CAPACITY {
          DropExpired(now);
          if |windows| >= CAPACITY {
            return false;
          }
        }
        windows := windows[key := Window(1, now)];
        if |windows| > CAPACITY {
          DropExpired(now);
        }
        return true;
      }
      if windows[key].count >= limit {
        return false;
      }
      windows := windows[key := Window(windows[key].count + 1, windows[key].start)];
      ok := true;
    }

    /** Tells whether a call with this limit is refused because of its own window. */
    method Blocked(key: string, limit: int, now: int) returns (blocked: bool)
      ensures blocked <==> IsBlocked(windows, key, limit, now)
      ensures blocked <==>
                key in windows && now - windows[key].start < 60_000_000_000 && windows[key].count >= limit
      ensures blocked ==> !Allowing(windows, key, limit, now).ok
    {
      if key !in windows || Expired(windows[key], now) {
        return false;
      }
      blocked := windows[key].count >= limit;
    }

    method RecordFailure(key: string, now: int)
      modifies this
      ensures windows == FailureRecorded(old(windows), key, now)
      ensures CountsFailure(old(windows), windows, key, now)
    {
      if key !in windows || Expired(windows[key], now) {
        if key !in windows && |windows| >= CAPACITY {
          return;
        }
        windows := windows[key := Window(1, now)];
        return;
      }
      windows := windows[key := Window(windows[key].count + 1, windows[key].start)];
    }

    method Clear(key: string)
      modifies this
      ensures windows == old(windows) - {key}
    {
      windows := windows - {key};
    }
  }
}
