/** The channel timeline: three keyset queries merged into one page. */
module Timeline {
  import opened Basics
  import opened Ordering
  import opened KeysetQuery

  /** The rows of a channel that match a request, before the cursor is applied. */
  datatype Channel = Channel(notifications: set<Item>, messages: set<Item>, commands: set<Item>)

  function All(c: Channel): set<Item> { c.notifications + c.messages + c.commands }

  /** Sources do not share rows, and identifiers are unique over all of them. */
  ghost predicate ChannelOK(c: Channel)
  {
    && Rows(All(c))
    && c.notifications !! c.messages && c.notifications !! c.commands && c.messages !! c.commands
  }

  /* ---------- Top of a union from tops of its parts ---------- */

  /** Some row of a full source lies at position k or later, so everything the source
      left out comes after the first k. */
  lemma LeftOutIsBelow(s: set<Item>, rows: seq<Item>, merged: seq<Item>, k: nat, x: Item, i: nat)
    requires IsTop(s, k + 1, rows) && Descending(merged) && Elements(rows) <= Elements(merged)
    requires x in s && x !in rows && i < k && i < |merged|
    ensures Above(merged[i], x)
  {
    hide Above;
    assert |rows| == k + 1;
    var last := rows[k];
    assert last in Elements(rows);
    var j :| 0 <= j < |merged| && merged[j] == last;
    var prefix := merged[..j + 1];
    forall y | y in Elements(rows)
      ensures y in Elements(prefix)
    {
      FoundInPrefix(rows, merged, k, j, y);
    }
    DistinctCount(rows);
    SubsetCount(Elements(rows), Elements(prefix));
    ElementsAtMost(prefix);
    assert Above(last, x);
    assert Above(merged[i], last);
    AboveIsTransitive(merged[i], last, x);
  }

  lemma FoundInPrefix(rows: seq<Item>, merged: seq<Item>, k: nat, j: nat, y: Item)
    requires |rows| == k + 1 && Descending(rows) && Descending(merged) && j < |merged| && merged[j] == rows[k]
    requires y in Elements(rows) && y in Elements(merged)
    ensures y in Elements(merged[..j + 1])
  {
    hide Above;
    var m :| 0 <= m < |rows| && rows[m] == y;
    var p :| 0 <= p < |merged| && merged[p] == y;
    assert m < k ==> Above(y, rows[k]);
    if p > j {
      AboveIsAsymmetric(merged[j], merged[p]);
    }
    assert merged[..j + 1][p] == y;
  }

  function FirstOf(rows: seq<Item>, k: nat): seq<Item> { if |rows| > k then rows[..k] else rows }

  lemma FirstOfHas(rows: seq<Item>, k: nat)
    ensures forall j :: 0 <= j < |rows| && j < k ==> rows[j] in FirstOf(rows, k)
  {
    forall j | 0 <= j < |rows| && j < k ensures rows[j] in FirstOf(rows, k) {
      assert FirstOf(rows, k)[j] == rows[j];
    }
  }

  /** Each part contributed its first k + 1 rows. */
  ghost predicate Collected(parts: seq<set<Item>>, tops: seq<seq<Item>>, k: nat, merged: seq<Item>)
  {
    && |parts| == |tops| && Descending(merged)
    && (forall p :: 0 <= p < |parts| ==> IsTop(parts[p], k + 1, tops[p]) && Elements(tops[p]) <= Elements(merged))
    && (forall x :: x in merged ==> exists p :: 0 <= p < |tops| && x in tops[p])
  }

  ghost predicate IsUnion(parts: seq<set<Item>>, all: set<Item>)
  {
    forall x :: x in all <==> exists p :: 0 <= p < |parts| && x in parts[p]
  }

  /** The first k rows of the merge are the first k rows of the union. */
  lemma MergeIsTop(parts: seq<set<Item>>, tops: seq<seq<Item>>, k: nat, merged: seq<Item>, all: set<Item>)
    requires Collected(parts, tops, k, merged) && IsUnion(parts, all)
    ensures IsTop(all, k, FirstOf(merged, k))
  {
    hide Above, IsTop;
    var page := FirstOf(merged, k);
    forall x | x in Elements(page) ensures x in all {
      MergedComesFromPart(parts, tops, k, merged, x);
    }
    forall x, y | x in all && x !in page && y in page ensures Above(y, x) {
      var i :| 0 <= i < |page| && page[i] == y;
      var p :| 0 <= p < |parts| && x in parts[p];
      OutsideIsBelow(parts, tops, k, merged, p, x, i);
    }
    if |page| < k {
      forall x | x in all ensures x in Elements(page) {
        var p :| 0 <= p < |parts| && x in parts[p];
        ShortMergeHasAll(parts, tops, k, merged, p, x);
      }
      assert Elements(page) == all;
    }
    TopFromParts(all, k, page);
  }

  lemma TopFromParts(s: set<Item>, k: nat, top: seq<Item>)
    requires Descending(top) && Elements(top) <= s && |top| <= k
    requires |top| < k ==> Elements(top) == s
    requires forall x, y :: x in s && x !in top && y in top ==> Above(y, x)
    ensures IsTop(s, k, top)
  {
  }

  lemma MergedComesFromPart(parts: seq<set<Item>>, tops: seq<seq<Item>>, k: nat, merged: seq<Item>, x: Item)
    requires Collected(parts, tops, k, merged) && x in merged
    ensures exists p :: 0 <= p < |parts| && x in parts[p]
  {
    hide Above;
    var p :| 0 <= p < |tops| && x in tops[p];
    assert IsTop(parts[p], k + 1, tops[p]);
    assert x in Elements(tops[p]);
  }

  lemma OutsideIsBelow(parts: seq<set<Item>>, tops: seq<seq<Item>>, k: nat, merged: seq<Item>, p: nat, x: Item, i: nat)
    requires Collected(parts, tops, k, merged) && p < |parts| && x in parts[p] && x !in FirstOf(merged, k) &&
             i < |FirstOf(merged, k)|
    ensures Above(FirstOf(merged, k)[i], x)
  {
    hide Above;
    if x in tops[p] {
      assert x in Elements(tops[p]);
      FirstOfHas(merged, k);
      var j :| 0 <= j < |merged| && merged[j] == x;
      assert |FirstOf(merged, k)| <= j;
    } else {
      if |merged| <= k { ShortMergeHasAll(parts, tops, k, merged, p, x); }
      LeftOutIsBelow(parts[p], tops[p], merged, k, x, i);
    }
  }

  /** If the merge has at most k rows, no part left anything out. */
  lemma ShortMergeHasAll(parts: seq<set<Item>>, tops: seq<seq<Item>>, k: nat, merged: seq<Item>, p: nat, x: Item)
    requires Collected(parts, tops, k, merged) && |merged| <= k && p < |parts| && x in parts[p]
    ensures x in merged
  {
    hide Above;
    DistinctCount(tops[p]);
    SubsetCount(Elements(tops[p]), Elements(merged));
    ElementsAtMost(merged);
    assert x in Elements(tops[p]);
  }

  /** The merge is longer than a page exactly when the union is. */
  lemma MoreIsExact(parts: seq<set<Item>>, tops: seq<seq<Item>>, k: nat, merged: seq<Item>, all: set<Item>)
    requires Collected(parts, tops, k, merged) && IsUnion(parts, all)
    ensures |merged| > k <==> |all| > k
  {
    hide Above, IsTop;
    forall x | x in Elements(merged) ensures x in all {
      MergedComesFromPart(parts, tops, k, merged, x);
    }
    DistinctCount(merged);
    SubsetCount(Elements(merged), all);
    if |merged| <= k {
      forall x | x in all ensures x in Elements(merged) {
        var p :| 0 <= p < |parts| && x in parts[p];
        ShortMergeHasAll(parts, tops, k, merged, p, x);
      }
      SubsetCount(all, Elements(merged));
    }
  }

  /* ---------- Sorting the merged rows ---------- */

  ghost predicate InOrder(rows: seq<Item>)
  {
    forall i, j :: 0 <= i < j < |rows| ==> !Above(rows[j], rows[i])
  }

  method InsertStable(rows: seq<Item>, x: Item) returns (r: seq<Item>)
    requires InOrder(rows)
    ensures InOrder(r) && multiset(r) == multiset(rows) + multiset{x}
  {
    hide Above;
    var i := 0;
    while i < |rows| && !Above(x, rows[i])
      invariant 0 <= i <= |rows|
      invariant forall j :: 0 <= j < i ==> !Above(x, rows[j])
    {
      i := i + 1;
    }
    forall j | i <= j < |rows| ensures !Above(rows[j], x) {
      if Above(rows[j], x) {
        AboveIsTransitive(rows[j], x, rows[i]);
        AboveIsAsymmetric(rows[j], rows[i]);
      }
    }
    r := rows[..i] + [x] + rows[i..];
    assert rows == rows[..i] + rows[i..];
  }

  /** All rows of the three sources, newest first. */
  method MergeTimeline(notifications: seq<Item>, messages: seq<Item>, commands: seq<Item>) returns (items: seq<Item>)
    ensures InOrder(items)
    ensures multiset(items) == multiset(notifications) + multiset(messages) + multiset(commands)
  {
    hide InOrder;
    var rows := notifications + messages + commands;
    items := [];
    EmptyInOrder();
    for i := 0 to |rows|
      invariant InOrder(items) && multiset(items) == multiset(rows[..i])
    {
      assert rows[..i + 1] == rows[..i] + [rows[i]];
      items := InsertStable(items, rows[i]);
    }
    assert rows[..|rows|] == rows;
  }

  lemma EmptyInOrder()
    ensures InOrder([])
  {
  }

  lemma {:induction false} DescendingOccursOnce(rows: seq<Item>, x: Item)
    requires Descending(rows)
    ensures multiset(rows)[x] == if x in rows then 1 else 0
  {
    hide Above;
    if rows != [] {
      var rest, last := rows[..|rows| - 1], rows[|rows| - 1];
      DescendingOccursOnce(rest, x);
      assert rows == rest + [last];
      if last in rest {
        var i :| 0 <= i < |rest| && rest[i] == last;
        AboveIsAsymmetric(rows[i], last);
      }
    }
  }

  lemma TwicePlaced(rows: seq<Item>, i: nat, j: nat)
    requires i < j < |rows| && rows[i] == rows[j]
    ensures multiset(rows)[rows[i]] >= 2
  {
    assert rows == rows[..j] + rows[j..];
    assert rows[..j][i] == rows[i] && rows[j..][0] == rows[j];
  }

  lemma MergedIsDescending(rows: set<Item>, merged: seq<Item>)
    requires Rows(rows) && InOrder(merged) && (forall x :: x in merged ==> x in rows && multiset(merged)[x] == 1)
    ensures Descending(merged)
  {
    forall i, j | 0 <= i < j < |merged| ensures Above(merged[i], merged[j]) {
      if merged[i] == merged[j] { TwicePlaced(merged, i, j); }
      assert merged[i] in rows && merged[j] in rows;
      AboveIsTotal(merged[i], merged[j]);
    }
  }

  /* ---------- One page ---------- */

  function PageLimit(limit: int): (k: nat)
    ensures 1 <= k <= 200
  {
    if limit <= 0 || limit > 200 then 100 else limit
  }

  /** The rows a request ranges over: with a lifecycle filter only notifications. */
  function Requested(c: Channel, onlyNotifications: bool): set<Item>
  {
    if onlyNotifications then c.notifications else All(c)
  }

  lemma PartOfRows(c: Channel)
    requires ChannelOK(c)
    ensures Rows(c.notifications) && Rows(c.messages) && Rows(c.commands)
  {
  }

  ghost function Parts(c: Channel, onlyNotifications: bool, beforeAt: int, beforeID: string): seq<set<Item>>
  {
    [Below(c.notifications, beforeAt, beforeID),
     if onlyNotifications then {} else Below(c.messages, beforeAt, beforeID),
     if onlyNotifications then {} else Below(c.commands, beforeAt, beforeID)]
  }

  lemma PartsUnion(c: Channel, onlyNotifications: bool, beforeAt: int, beforeID: string)
    ensures IsUnion(Parts(c, onlyNotifications, beforeAt, beforeID),
                    Below(Requested(c, onlyNotifications), beforeAt, beforeID))
  {
    var parts := Parts(c, onlyNotifications, beforeAt, beforeID);
    forall x | x in Below(Requested(c, onlyNotifications), beforeAt, beforeID)
      ensures exists p :: 0 <= p < |parts| && x in parts[p]
    {
      assert x in parts[0] || x in parts[1] || x in parts[2];
    }
  }

  /** The three query results, merged and sorted, as the page lemmas need them. */
  lemma MergeCollects(c: Channel, only: bool, beforeAt: int, beforeID: string, k: nat, tops: seq<seq<Item>>,
                      merged: seq<Item>)
    requires ChannelOK(c) && |tops| == 3 && InOrder(merged)
    requires forall p :: 0 <= p < 3 ==> IsTop(Parts(c, only, beforeAt, beforeID)[p], k + 1, tops[p])
    requires multiset(merged) == multiset(tops[0]) + multiset(tops[1]) + multiset(tops[2])
    ensures Collected(Parts(c, only, beforeAt, beforeID), tops, k, merged)
  {
    hide Above, InOrder, BelowCursor, Rows, Descending;
    var parts := Parts(c, only, beforeAt, beforeID);
    forall x | x in merged
      ensures exists p :: 0 <= p < |tops| && x in tops[p]
      ensures x in All(c) && multiset(merged)[x] == 1
    {
      OccursOnce(c, only, beforeAt, beforeID, k, tops, merged, x);
    }
    MergedIsDescending(All(c), merged);
    forall p | 0 <= p < 3 ensures Elements(tops[p]) <= Elements(merged) {
      forall x | x in Elements(tops[p]) ensures x in merged {
        assert x in multiset(tops[p]);
        assert x in multiset(merged);
      }
    }
  }

  lemma OccursOnce(c: Channel, only: bool, beforeAt: int, beforeID: string, k: nat, tops: seq<seq<Item>>,
                   merged: seq<Item>, x: Item)
    requires ChannelOK(c) && |tops| == 3 && x in merged
    requires forall p :: 0 <= p < 3 ==> IsTop(Parts(c, only, beforeAt, beforeID)[p], k + 1, tops[p])
    requires multiset(merged) == multiset(tops[0]) + multiset(tops[1]) + multiset(tops[2])
    ensures exists p :: 0 <= p < |tops| && x in tops[p]
    ensures x in All(c) && multiset(merged)[x] == 1
  {
    hide Above, BelowCursor, Rows, Descending;
    var parts := Parts(c, only, beforeAt, beforeID);
    assert x in multiset(merged);
    forall p | 0 <= p < 3
      ensures multiset(tops[p])[x] == (if x in tops[p] then 1 else 0) && (x in tops[p] ==> x in parts[p])
    {
      assert IsTop(parts[p], k + 1, tops[p]);
      DescendingOccursOnce(tops[p], x);
      assert x in tops[p] ==> x in Elements(tops[p]);
    }
    assert x in tops[0] || x in tops[1] || x in tops[2];
  }

  /** A page holds the first `limit` rows below the cursor over all sources, and says
      whether there are more. */
  method ListChannelTimelineFiltered(c: Channel, onlyNotifications: bool, limit: int, beforeAt: int, beforeID: string)
    returns (page: seq<Item>, hasMore: bool)
    requires ChannelOK(c)
    ensures IsTop(Below(Requested(c, onlyNotifications), beforeAt, beforeID), PageLimit(limit), page)
    ensures hasMore <==> |Below(Requested(c, onlyNotifications), beforeAt, beforeID)| > PageLimit(limit)
    ensures var rows := if onlyNotifications then c.notifications else c.notifications + c.messages + c.commands;
            && IsNewestPage(rows, beforeAt, beforeID, if 0 < limit <= 200 then limit else 100, page)
            && (hasMore <==> exists x :: IsCandidate(rows, beforeAt, beforeID, x) && x !in page)
  {
    PageLaw(c, onlyNotifications, limit, beforeAt, beforeID);
    hide Above, IsNewestPage, IsCandidate, IsTop, Rows, ChannelOK, Collected, Requested, IsUnion;
    PartOfRows(c);
    ghost var parts := Parts(c, onlyNotifications, beforeAt, beforeID);
    var bounded := if limit <= 0 || limit > 200 then 100 else limit;
    var pageSize := bounded + 1;
    var notifications := QueryNotifications(c.notifications, beforeAt, beforeID, pageSize);
    var messages, commands := [], [];
    if !onlyNotifications {
      messages := Select(c.messages, beforeAt, beforeID, pageSize);
      commands := Select(c.commands, beforeAt, beforeID, pageSize);
    }
    NothingOfNothing(pageSize);
    ghost var tops := [notifications, messages, commands];
    var merged := MergeTimeline(notifications, messages, commands);
    MergeCollects(c, onlyNotifications, beforeAt, beforeID, bounded, tops, merged);
    PartsUnion(c, onlyNotifications, beforeAt, beforeID);
    MergeIsTop(parts, tops, bounded, merged, Below(Requested(c, onlyNotifications), beforeAt, beforeID));
    MoreIsExact(parts, tops, bounded, merged, Below(Requested(c, onlyNotifications), beforeAt, beforeID));
    hasMore := |merged| > bounded;
    page := if |merged| > bounded then merged[..bounded] else merged;
  }

  /** A page of the right size, and whether rows are left, column by column. */
  lemma PageLaw(c: Channel, onlyNotifications: bool, limit: int, beforeAt: int, beforeID: string)
    ensures var rows := if onlyNotifications then c.notifications else c.notifications + c.messages + c.commands;
            forall page :: IsTop(Below(Requested(c, onlyNotifications), beforeAt, beforeID), PageLimit(limit), page) ==>
              && IsNewestPage(rows, beforeAt, beforeID, if 0 < limit <= 200 then limit else 100, page)
              && (|Below(Requested(c, onlyNotifications), beforeAt, beforeID)| > PageLimit(limit) <==>
                  exists x :: IsCandidate(rows, beforeAt, beforeID, x) && x !in page)
  {
    var rows := if onlyNotifications then c.notifications else c.notifications + c.messages + c.commands;
    var k := if 0 < limit <= 200 then limit else 100;
    hide IsNewestPage, Descending, Above;
    forall page | IsTop(Below(rows, beforeAt, beforeID), k, page)
      ensures IsNewestPage(rows, beforeAt, beforeID, k, page)
      ensures |Below(rows, beforeAt, beforeID)| > k <==>
              exists x :: IsCandidate(rows, beforeAt, beforeID, x) && x !in page
    {
      TopIsNewestPage(rows, beforeAt, beforeID, k, page);
      MoreIsLeft(rows, beforeAt, beforeID, k, page);
    }
  }

  lemma MoreIsLeft(rows: set<Item>, beforeAt: int, beforeID: string, k: nat, page: seq<Item>)
    requires IsTop(Below(rows, beforeAt, beforeID), k, page)
    ensures |Below(rows, beforeAt, beforeID)| > k <==>
              exists x :: IsCandidate(rows, beforeAt, beforeID, x) && x !in page
  {
    var s := Below(rows, beforeAt, beforeID);
    assert forall x :: x in s <==> IsCandidate(rows, beforeAt, beforeID, x);
    assert forall x :: x in page <==> x in Elements(page);
    DistinctCount(page);
    TopCount(s, k, page);
    SubsetCount(Elements(page), s);
    hide Below, BelowCursor, IsCandidate, Descending, Above;
    if |s| > k && forall x :: x in s ==> x in page {
      assert s <= Elements(page);
      SubsetCount(s, Elements(page));
    }
  }

  lemma NothingOfNothing(k: nat)
    ensures IsTop({}, k, [])
  {
  }

  /* ---------- Walking all pages ---------- */

  /** Following the last row of each page while there are more. */
  ghost predicate IsWalk(rows: set<Item>, k: nat, beforeAt: int, beforeID: string, pages: seq<seq<Item>>)
    decreases |pages|
  {
    && pages != [] && IsTop(Below(rows, beforeAt, beforeID), k, pages[0])
    && if |Below(rows, beforeAt, beforeID)| > k
       then pages[0] != [] && var last := pages[0][|pages[0]| - 1]; IsWalk(rows, k, last.time, last.id, pages[1..])
       else |pages| == 1
  }

  /** The cursor made from the last row of a page leaves exactly the rows after it. */
  lemma NextBelow(rows: set<Item>, k: nat, beforeAt: int, beforeID: string, page: seq<Item>)
    requires Rows(rows) && IsTop(Below(rows, beforeAt, beforeID), k, page) && page != []
    ensures var last := page[|page| - 1];
            Below(rows, last.time, last.id) == Below(rows, beforeAt, beforeID) - Elements(page)
  {
    var last := page[|page| - 1];
    var s := Below(rows, beforeAt, beforeID);
    assert last in Elements(page);
    forall x | x in rows
      ensures x in Below(rows, last.time, last.id) <==> x in s && x !in Elements(page)
    {
      BelowLast(rows, k, beforeAt, beforeID, page, x);
    }
  }

  lemma BelowLast(rows: set<Item>, k: nat, beforeAt: int, beforeID: string, page: seq<Item>, x: Item)
    requires Rows(rows) && IsTop(Below(rows, beforeAt, beforeID), k, page) && page != [] && x in rows
    ensures var last := page[|page| - 1];
            Above(last, x) <==> x in Below(rows, beforeAt, beforeID) && x !in page
  {
    hide Above, BelowCursor;
    var last := page[|page| - 1];
    assert last in Elements(page);
    if Above(last, x) {
      BelowIsDownward(beforeAt, beforeID, last, x);
      if x in page {
        var i :| 0 <= i < |page| && page[i] == x;
        assert i < |page| - 1 ==> Above(page[i], page[|page| - 1]);
        AboveIsAsymmetric(last, x);
      }
    }
  }

  lemma BelowIsDownward(beforeAt: int, beforeID: string, a: Item, b: Item)
    requires BelowCursor(a, beforeAt, beforeID) && Above(a, b)
    ensures BelowCursor(b, beforeAt, beforeID)
  {
    if a.time == b.time == beforeAt && beforeID != "" && beforeAt > 0 {
      LessTransitive(b.id, a.id, beforeID);
    }
  }

  /** Each page takes exactly k rows off what is left, so the walk ends. */
  lemma PageShrinks(rows: set<Item>, k: nat, beforeAt: int, beforeID: string, page: seq<Item>)
    requires Rows(rows) && k > 0 && IsTop(Below(rows, beforeAt, beforeID), k, page) &&
             |Below(rows, beforeAt, beforeID)| > k
    ensures page != [] &&
            var last := page[|page| - 1]; |Below(rows, last.time, last.id)| == |Below(rows, beforeAt, beforeID)| - k
  {
    hide Above, Rows, BelowCursor;
    TopCount(Below(rows, beforeAt, beforeID), k, page);
    NextBelow(rows, k, beforeAt, beforeID, page);
    DistinctCount(page);
  }

  /** Walking the pages visits every row once, newest first. */
  lemma {:induction false} WalkVisitsEverythingOnce(rows: set<Item>, k: nat, beforeAt: int, beforeID: string,
                                                    pages: seq<seq<Item>>)
    requires Rows(rows) && IsWalk(rows, k, beforeAt, beforeID, pages)
    ensures Descending(Flatten(pages)) && Elements(Flatten(pages)) == Below(rows, beforeAt, beforeID)
    decreases |pages|
  {
    hide Above, Rows, BelowCursor, Below;
    var s, page := Below(rows, beforeAt, beforeID), pages[0];
    if |s| > k {
      var last := page[|page| - 1];
      WalkVisitsEverythingOnce(rows, k, last.time, last.id, pages[1..]);
      NextBelow(rows, k, beforeAt, beforeID, page);
      Appended(s, k, page, Flatten(pages[1..]));
    } else {
      TopCount(s, k, page);
      DistinctCount(page);
      SubsetCount(Elements(page), s);
      assert pages[1..] == [] && page + [] == page;
    }
  }

  lemma Appended(s: set<Item>, k: nat, page: seq<Item>, rest: seq<Item>)
    requires IsTop(s, k, page) && Descending(rest) && Elements(rest) == s - Elements(page)
    ensures Descending(page + rest) && Elements(page + rest) == s
  {
    hide Above;
    assert forall x :: x in rest <==> x in Elements(rest);
    assert forall x :: x in page <==> x in Elements(page);
  }

  /** Exactly the rows before the cursor, each once, later times first and of equal times
      the greater id. */
  ghost predicate SeesAll(rows: set<Item>, beforeAt: int, beforeID: string, seen: seq<Item>)
  {
    && (forall x :: x in seen <==> IsCandidate(rows, beforeAt, beforeID, x))
    && (forall i, j :: 0 <= i < j < |seen| ==> seen[i] != seen[j])
    && (forall i, j :: 0 <= i < j < |seen| ==>
        seen[i].time > seen[j].time || (seen[i].time == seen[j].time && Less(seen[j].id, seen[i].id)))
  }

  lemma WalkLaw(c: Channel, onlyNotifications: bool, beforeAt: int, beforeID: string, seen: seq<Item>)
    requires Descending(seen) && Elements(seen) == Below(Requested(c, onlyNotifications), beforeAt, beforeID)
    ensures var rows := if onlyNotifications then c.notifications else c.notifications + c.messages + c.commands;
            SeesAll(rows, beforeAt, beforeID, seen)
  {
    assert forall x :: x in seen <==> x in Elements(seen);
    forall i, j | 0 <= i < j < |seen| ensures seen[i] != seen[j] {
      if seen[i] == seen[j] { AboveIsAsymmetric(seen[i], seen[j]); }
    }
  }

  /** A client that follows the cursors of the pages: it ends, having seen every row
      once, newest first. */
  method WalkTimeline(c: Channel, onlyNotifications: bool, limit: int, beforeAt: int, beforeID: string)
    returns (pages: seq<seq<Item>>)
    requires ChannelOK(c)
    ensures IsWalk(Requested(c, onlyNotifications), PageLimit(limit), beforeAt, beforeID, pages)
    ensures Descending(Flatten(pages)) &&
            Elements(Flatten(pages)) == Below(Requested(c, onlyNotifications), beforeAt, beforeID)
    ensures var rows := if onlyNotifications then c.notifications else c.notifications + c.messages + c.commands;
            SeesAll(rows, beforeAt, beforeID, Flatten(pages))
    ensures forall i :: 0 <= i < |pages| ==> |pages[i]| <= if 0 < limit <= 200 then limit else 100
    decreases |Below(Requested(c, onlyNotifications), beforeAt, beforeID)|
  {
    hide Above, BelowCursor, Rows, IsTop, ChannelOK, Requested, PageLimit, IsCandidate, SeesAll;
    var page, hasMore := ListChannelTimelineFiltered(c, onlyNotifications, limit, beforeAt, beforeID);
    RequestedRows(c, onlyNotifications);
    if hasMore {
      PageShrinks(Requested(c, onlyNotifications), PageLimit(limit), beforeAt, beforeID, page);
      var last := page[|page| - 1];
      var rest := WalkTimeline(c, onlyNotifications, limit, last.time, last.id);
      pages := [page] + rest;
      assert pages[1..] == rest;
    } else {
      pages := [page];
    }
    WalkVisitsEverythingOnce(Requested(c, onlyNotifications), PageLimit(limit), beforeAt, beforeID, pages);
    WalkLaw(c, onlyNotifications, beforeAt, beforeID, Flatten(pages));
  }

  lemma RequestedRows(c: Channel, onlyNotifications: bool)
    requires ChannelOK(c)
    ensures Rows(Requested(c, onlyNotifications))
  {
  }
}
