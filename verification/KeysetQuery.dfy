/** Keyset queries: rows below a (time, id) cursor, newest first, at most `limit`. */
module KeysetQuery {
  import opened Ordering

  datatype Kind = Notification | Message | CommandResponse

  /** What a timeline row is ordered by: a notification by its update time, a
      message or a command response by its creation time. */
  datatype Item = Item(kind: Kind, time: int, id: string)

  /** Comes before in a page: later time, then greater id. */
  predicate Above(a: Item, b: Item)
  {
    a.time > b.time || (a.time == b.time && Less(b.id, a.id))
  }

  lemma AboveIsTotal(a: Item, b: Item)
    requires a.id != b.id || a.time != b.time
    ensures Above(a, b) || Above(b, a)
  {
    LessTotal(a.id, b.id);
  }

  lemma AboveIsAsymmetric(a: Item, b: Item)
    requires Above(a, b)
    ensures !Above(b, a)
  {
    if a.time == b.time { LessAsymmetric(b.id, a.id); }
  }

  lemma AboveIsTransitive(a: Item, b: Item, c: Item)
    requires Above(a, b) && Above(b, c)
    ensures Above(a, c)
  {
    if a.time == b.time == c.time { LessTransitive(c.id, b.id, a.id); }
  }

  /** The cursor counts only if both of its parts are given. */
  predicate BelowCursor(x: Item, beforeAt: int, beforeID: string)
  {
    beforeAt > 0 && beforeID != "" ==> x.time < beforeAt || (x.time == beforeAt && Less(x.id, beforeID))
  }

  function Below(rows: set<Item>, beforeAt: int, beforeID: string): set<Item>
  {
    set x | x in rows && BelowCursor(x, beforeAt, beforeID)
  }

  ghost predicate Descending(rows: seq<Item>)
  {
    forall i, j :: 0 <= i < j < |rows| ==> Above(rows[i], rows[j])
  }

  function Elements(rows: seq<Item>): set<Item> { set x | x in rows }

  /** Identifiers are unique and present, times positive. */
  ghost predicate Rows(rows: set<Item>)
  {
    && (forall x, y :: x in rows && y in rows && x.id == y.id ==> x == y)
    && (forall x :: x in rows ==> x.time > 0 && x.id != "")
  }

  /** `top` is the first k of s in page order, or all of s if there are fewer. */
  ghost predicate IsTop(s: set<Item>, k: nat, top: seq<Item>)
  {
    && Descending(top) && Elements(top) <= s && |top| <= k
    && (|top| < k ==> Elements(top) == s)
    && (forall x, y :: x in s && x !in top && y in top ==> Above(y, x))
  }

  /** A page column by column: rows before the cursor, later times first and of equal times
      the greater id; what it leaves out comes after all of a full page. */
  ghost predicate IsNewestPage(rows: set<Item>, beforeAt: int, beforeID: string, k: nat, page: seq<Item>)
  {
    && |page| <= k
    && (forall i, j :: 0 <= i < j < |page| ==>
        page[i].time > page[j].time || (page[i].time == page[j].time && Less(page[j].id, page[i].id)))
    && (forall x :: x in page ==> IsCandidate(rows, beforeAt, beforeID, x))
    && (forall x :: IsCandidate(rows, beforeAt, beforeID, x) && x !in page ==>
        |page| == k && forall y :: y in page ==> y.time > x.time || (y.time == x.time && Less(x.id, y.id)))
  }

  ghost predicate IsCandidate(rows: set<Item>, beforeAt: int, beforeID: string, x: Item)
  {
    && x in rows
    && (beforeAt <= 0 || beforeID == "" || x.time < beforeAt || (x.time == beforeAt && Less(x.id, beforeID)))
  }

  lemma TopIsNewestPage(rows: set<Item>, beforeAt: int, beforeID: string, k: nat, page: seq<Item>)
    requires IsTop(Below(rows, beforeAt, beforeID), k, page)
    ensures IsNewestPage(rows, beforeAt, beforeID, k, page)
  {
    var s := Below(rows, beforeAt, beforeID);
    assert forall x :: x in s <==> IsCandidate(rows, beforeAt, beforeID, x);
    assert forall x :: x in page <==> x in Elements(page);
    hide Below, BelowCursor, IsCandidate, Elements;
  }

  lemma {:induction false} DistinctCount(rows: seq<Item>)
    requires Descending(rows)
    ensures |Elements(rows)| == |rows|
  {
    hide Above;
    if rows != [] {
      var rest, last := rows[..|rows| - 1], rows[|rows| - 1];
      DistinctCount(rest);
      assert Elements(rows) == Elements(rest) + {last};
      if last in rest {
        var i :| 0 <= i < |rest| && rest[i] == last;
        AboveIsAsymmetric(rows[i], last);
      }
    }
  }

  lemma {:induction false} ElementsAtMost(rows: seq<Item>)
    ensures |Elements(rows)| <= |rows|
  {
    if rows != [] {
      var rest, last := rows[..|rows| - 1], rows[|rows| - 1];
      ElementsAtMost(rest);
      assert Elements(rows) == Elements(rest) + {last};
    }
  }

  lemma {:induction false} SubsetCount(a: set<Item>, b: set<Item>)
    requires a <= b
    ensures |a| <= |b|
    ensures |a| == |b| ==> a == b
  {
    if a != {} {
      var x :| x in a;
      SubsetCount(a - {x}, b - {x});
    }
  }

  /** Counting tells whether a page leaves something out. */
  lemma TopCount(s: set<Item>, k: nat, top: seq<Item>)
    requires IsTop(s, k, top)
    ensures |top| == if |s| < k then |s| else k
  {
    DistinctCount(top);
    SubsetCount(Elements(top), s);
  }

  /* ---------- The query itself ---------- */

  predicate IsGreatest(s: set<Item>, g: Item) { forall y :: y in s && y != g ==> Above(g, y) }

  lemma {:induction false} HasGreatest(s: set<Item>) returns (g: Item)
    requires Rows(s) && s != {}
    ensures g in s && IsGreatest(s, g)
  {
    var x :| x in s;
    if s == {x} {
      g := x;
    } else {
      var h := HasGreatest(s - {x});
      AboveIsTotal(x, h);
      if Above(x, h) {
        g := x;
        forall y | y in s && y != g ensures Above(g, y) {
          if y != h { AboveIsTransitive(x, h, y); }
        }
      } else {
        g := h;
      }
    }
  }

  /** The rows taken so far come before all that remain. */
  ghost predicate Selected(s: set<Item>, rest: set<Item>, top: seq<Item>)
  {
    && Descending(top) && Elements(top) == s - rest
    && forall x, y :: x in rest && y in top ==> Above(y, x)
  }

  lemma NothingSelected(s: set<Item>)
    ensures Selected(s, s, [])
  {
  }

  lemma SelectedNext(s: set<Item>, rest: set<Item>, top: seq<Item>, x: Item)
    requires Selected(s, rest, top) && rest <= s && x in rest && IsGreatest(rest, x)
    ensures Selected(s, rest - {x}, top + [x])
  {
    hide Above;
    assert Elements(top + [x]) == Elements(top) + {x};
  }

  lemma SelectedIsTop(s: set<Item>, rest: set<Item>, top: seq<Item>, limit: nat)
    requires Selected(s, rest, top) && |top| <= limit && (rest == {} || |top| == limit)
    ensures IsTop(s, limit, top)
  {
    hide Above, Descending;
    assert forall x :: x in top <==> x in Elements(top);
  }

  /** SELECT … ORDER BY time DESC, id DESC LIMIT. */
  method Select(rows: set<Item>, beforeAt: int, beforeID: string, limit: nat) returns (top: seq<Item>)
    requires Rows(rows)
    ensures IsTop(Below(rows, beforeAt, beforeID), limit, top)
    ensures IsNewestPage(rows, beforeAt, beforeID, limit, top)
  {
    hide IsNewestPage;
    hide Above, BelowCursor, Descending, Elements;
    var s := Below(rows, beforeAt, beforeID);
    var rest := s;
    top := [];
    NothingSelected(s);
    while rest != {} && |top| < limit
      invariant rest <= s && |top| <= limit && Selected(s, rest, top)
      decreases |rest|
    {
      ghost var g := HasGreatest(rest);
      var x :| x in rest && IsGreatest(rest, x);
      SelectedNext(s, rest, top, x);
      top := top + [x];
      rest := rest - {x};
    }
    SelectedIsTop(s, rest, top, limit);
    TopIsNewestPage(rows, beforeAt, beforeID, limit, top);
  }

  /** The notification query bounds its limit. */
  method QueryNotifications(rows: set<Item>, beforeAt: int, beforeID: string, limit: int) returns (top: seq<Item>)
    requires Rows(rows)
    ensures IsTop(Below(rows, beforeAt, beforeID), if 0 < limit <= 201 then limit else 100, top)
    ensures IsNewestPage(rows, beforeAt, beforeID, if 0 < limit <= 201 then limit else 100, top)
  {
    hide IsNewestPage;
    var bounded := if limit <= 0 || limit > 201 then 100 else limit;
    top := Select(rows, beforeAt, beforeID, bounded);
  }
}
