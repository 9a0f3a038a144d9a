/** The daily digest counts recently updated notifications page by page. */
module Digest {
  import opened Basics
  import opened KeysetQuery
  import opened Timeline

  const PAGE := 201
  const DAY_NS := 86_400_000_000_000

  /** Updated at or after 24 hours before now; now is in nanoseconds, rows in milliseconds. */
  predicate Recent(x: Item, nowNs: int) { x.time * NS_PER_MS >= nowNs - DAY_NS }

  function RecentRows(rows: set<Item>, nowNs: int): set<Item> { set x | x in rows && Recent(x, nowNs) }

  lemma RecentLaw(rows: set<Item>, nowNs: int)
    ensures RecentRows(rows, nowNs) == set x | x in rows && x.time * 1_000_000 >= nowNs - 86_400_000_000_000
  {
  }

  /** All rows above the cursor are recent, and they are counted. */
  ghost predicate Counted(rows: set<Item>, s: set<Item>, nowNs: int, count: nat)
  {
    s <= rows && count == |rows - s| && forall x :: x in rows - s ==> Recent(x, nowNs)
  }

  lemma OlderIsNotRecent(a: Item, b: Item, nowNs: int)
    requires Above(a, b) && Recent(b, nowNs)
    ensures Recent(a, nowNs)
  {
  }

  /** Counting the first i rows of a page. */
  lemma CountedPrefix(rows: set<Item>, s: set<Item>, nowNs: int, count: nat, values: seq<Item>, i: nat)
    requires Counted(rows, s, nowNs, count) && IsTop(s, PAGE, values) && i <= |values|
    requires forall j :: 0 <= j < i ==> Recent(values[j], nowNs)
    ensures Counted(rows, s - Elements(values[..i]), nowNs, count + i)
  {
    hide Above, Recent;
    var taken := Elements(values[..i]);
    DistinctCount(values[..i]);
    assert taken <= Elements(values);
    assert rows - (s - taken) == (rows - s) + taken;
  }

  lemma PrefixHas(values: seq<Item>, i: nat)
    requires i <= |values|
    ensures forall j :: 0 <= j < i ==> values[j] in Elements(values[..i])
  {
    forall j | 0 <= j < i ensures values[j] in Elements(values[..i]) {
      assert values[..i][j] == values[j];
    }
  }

  /** At the first row that is too old, everything recent has been counted. */
  lemma StopsAtTheRightRow(s: set<Item>, nowNs: int, values: seq<Item>, i: nat)
    requires IsTop(s, PAGE, values) && i < |values| && !Recent(values[i], nowNs)
    ensures forall x :: x in s - Elements(values[..i]) ==> !Recent(x, nowNs)
  {
    hide Above, Recent;
    PrefixHas(values, i);
    forall x | x in s - Elements(values[..i])
      ensures !Recent(x, nowNs)
    {
      if x in values {
        var j :| 0 <= j < |values| && values[j] == x;
        assert i < j ==> Above(values[i], x);
      } else {
        assert Above(values[i], x);
      }
      if Recent(x, nowNs) && x != values[i] {
        OlderIsNotRecent(values[i], x, nowNs);
      }
    }
  }

  lemma CountIsComplete(rows: set<Item>, s: set<Item>, nowNs: int, count: nat)
    requires Counted(rows, s, nowNs, count) && forall x :: x in s ==> !Recent(x, nowNs)
    ensures count == |RecentRows(rows, nowNs)|
  {
    hide Recent;
    assert RecentRows(rows, nowNs) == rows - s;
  }

  lemma StartCounting(rows: set<Item>, nowNs: int)
    ensures Below(rows, 0, "") == rows && Counted(rows, rows, nowNs, 0)
  {
    assert rows - rows == {};
  }

  /** The count is exact, however many pages it takes. */
  method CreateDigest(rows: set<Item>, nowNs: int) returns (count: nat)
    requires Rows(rows)
    ensures count == |set x | x in rows && x.time * 1_000_000 >= nowNs - 86_400_000_000_000|
  {
    RecentLaw(rows, nowNs);
    hide IsNewestPage;
    hide Above, BelowCursor, Below, Rows, IsTop, Recent, Counted, RecentRows, Elements;
    count := 0;
    var beforeAt, beforeID := 0, "";
    StartCounting(rows, nowNs);
    while true
      invariant Counted(rows, Below(rows, beforeAt, beforeID), nowNs, count)
      decreases |Below(rows, beforeAt, beforeID)|
    {
      var values := QueryNotifications(rows, beforeAt, beforeID, PAGE);
      ghost var s, before := Below(rows, beforeAt, beforeID), count;
      var stop := false;
      var i := 0;
      while i < |values|
        invariant 0 <= i <= |values| && !stop && count == before + i
        invariant forall j :: 0 <= j < i ==> Recent(values[j], nowNs)
      {
        if !Recent(values[i], nowNs) {
          stop := true;
          StopsAtTheRightRow(s, nowNs, values, i);
          break;
        }
        count := count + 1;
        i := i + 1;
      }
      CountedPrefix(rows, s, nowNs, before, values, i);
      if stop || |values| < PAGE {
        PageLeavesNothing(s, values, i, stop);
        CountIsComplete(rows, s - Elements(values[..i]), nowNs, count);
        break;
      }
      var last := values[|values| - 1];
      NextBelow(rows, PAGE, beforeAt, beforeID, values);
      assert values[..i] == values;
      LastIsBelow(s, values);
      beforeAt, beforeID := last.time, last.id;
    }
  }

  /** A short page was the last one. */
  lemma PageLeavesNothing(s: set<Item>, values: seq<Item>, i: nat, stop: bool)
    requires IsTop(s, PAGE, values) && i <= |values| && (stop || (|values| < PAGE && i == |values|))
    ensures !stop ==> s - Elements(values[..i]) == {}
  {
    if !stop { assert values[..i] == values; }
  }

  lemma LastIsBelow(s: set<Item>, values: seq<Item>)
    requires IsTop(s, PAGE, values) && values != []
    ensures |s - Elements(values)| < |s|
  {
    assert values[0] in Elements(values);
    SubsetCount(s - Elements(values), s);
  }
}
