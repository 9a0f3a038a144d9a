/** The abstract convergence model of replication: nodes accept operations keyed by
    "origin:sequence" and keep the greatest state per notification. */
module ReferenceModel {
  import opened Ordering
  import opened Decimal

  const SEQUENCES := 0x1_0000_0000_0000_0000
  const RESOLVED := 3

  type Sequence = x: nat | x < SEQUENCES
  type StateCode = x: nat | x < 256

  datatype Operation = Operation(origin: string, sequence: Sequence, notificationID: string, state: StateCode)

  function Key(origin: string, sequence: Sequence): string { origin + ":" + IntString(sequence) }

  function ID(op: Operation): string { Key(op.origin, op.sequence) }

  /** A node's two maps. */
  datatype Maps = Maps(states: map<string, StateCode>, applied: map<string, Operation>)

  predicate WellFormed(op: Operation)
  {
    op.origin != "" && op.sequence != 0 && op.notificationID != "" && op.state <= RESOLVED
  }

  function StateOf(n: Maps, id: string): StateCode { if id in n.states then n.states[id] else 0 }

  datatype Applied = Applied(node: Maps, ok: bool)

  function Applying(n: Maps, op: Operation): Applied
  {
    if !WellFormed(op) then Applied(n, false)
    else if ID(op) in n.applied then Applied(n, n.applied[ID(op)] == op)
    else
      var raised := op.state > StateOf(n, op.notificationID);
      var states := if raised then n.states[op.notificationID := op.state] else n.states;
      Applied(Maps(states, n.applied[ID(op) := op]), true)
  }

  /** Merge stops at the first refused operation, keeping what it applied. */
  function Merging(n: Maps, ops: seq<Operation>): Applied
    decreases |ops|
  {
    if ops == [] then Applied(n, true)
    else
      var first := Applying(n, ops[0]);
      if first.ok then Merging(first.node, ops[1..]) else first
  }

  const NEW := Maps(map[], map[])

  /* ---------- Identifiers ---------- */

  lemma KeysDiffer(a: string, x: string, b: string, y: string)
    requires AllDigits(x) && AllDigits(y) && a + ":" + x == b + ":" + y
    ensures |x| >= |y|
  {
    var s := b + ":" + y;
    assert (a + ":" + x)[|a|] == ':';
    assert forall i :: |b| < i < |s| ==> IsDigit(s[i]);
    assert s[|a|] == ':' && !IsDigit(s[|a|]);
  }

  /** "origin:sequence" identifies the pair, whatever colons the origin contains. */
  lemma KeyInjective(o: string, s: Sequence, p: string, t: Sequence)
    requires Key(o, s) == Key(p, t)
    ensures o == p && s == t
  {
    var x, y := IntString(s), IntString(t);
    NumeralReads(s);
    NumeralReads(t);
    KeysDiffer(o, x, p, y);
    KeysDiffer(p, y, o, x);
    assert o == (o + ":" + x)[..|o|] == (p + ":" + y)[..|p|] == p;
    assert x == (o + ":" + x)[|o| + 1..] == (p + ":" + y)[|p| + 1..] == y;
    IntStringInjective(s, t);
  }

  /* ---------- Specification: the set of accepted operations ---------- */

  predicate SameSlot(a: Operation, b: Operation) { a.origin == b.origin && a.sequence == b.sequence }

  ghost predicate Refused(accepted: set<Operation>, op: Operation)
  {
    !WellFormed(op) || exists o :: o in accepted && SameSlot(o, op) && o != op
  }

  ghost function Accept(accepted: set<Operation>, op: Operation): set<Operation>
  {
    if Refused(accepted, op) then accepted else accepted + {op}
  }

  /** v is the greatest state among the operations on a notification, 0 if none. */
  ghost predicate IsGreatest(accepted: set<Operation>, id: string, v: nat)
  {
    && (forall op :: op in accepted && op.notificationID == id ==> op.state <= v)
    && (v == 0 || exists op :: op in accepted && op.notificationID == id && op.state == v)
  }

  ghost predicate Valid(n: Maps)
  {
    && (forall k :: k in n.applied ==> k == ID(n.applied[k]) && WellFormed(n.applied[k]))
    && (forall id :: id in n.states ==> n.states[id] > 0)
    && (forall id {:trigger StateOf(n, id)} :: IsGreatest(n.applied.Values, id, StateOf(n, id)))
  }

  lemma HasKey(n: Maps, op: Operation)
    requires Valid(n)
    ensures op in n.applied.Values <==> ID(op) in n.applied && n.applied[ID(op)] == op
  {
  }

  lemma SlotTaken(n: Maps, op: Operation)
    requires Valid(n)
    ensures (exists o :: o in n.applied.Values && SameSlot(o, op) && o != op) <==>
            ID(op) in n.applied && n.applied[ID(op)] != op
  {
    if ID(op) in n.applied {
      var o := n.applied[ID(op)];
      assert o in n.applied.Values;
      KeyInjective(o.origin, o.sequence, op.origin, op.sequence);
    }
  }

  lemma AppliedValues(n: Maps, op: Operation)
    requires ID(op) !in n.applied
    ensures n.applied[ID(op) := op].Values == n.applied.Values + {op}
  {
    var m := n.applied[ID(op) := op];
    forall o | o in n.applied.Values
      ensures o in m.Values
    {
      var k :| k in n.applied && n.applied[k] == o;
      assert m[k] == o;
    }
    assert m[ID(op)] == op;
  }

  /** Applying one operation accepts it exactly when no other operation holds its slot. */
  lemma ApplyAccepts(n: Maps, op: Operation)
    requires Valid(n)
    ensures Applying(n, op).ok <==> !Refused(n.applied.Values, op)
    ensures Applying(n, op).node.applied.Values == Accept(n.applied.Values, op)
  {
    hide Valid;
    SlotTaken(n, op);
    HasKey(n, op);
    if ID(op) !in n.applied {
      AppliedValues(n, op);
    }
  }

  lemma GreatestWithOne(accepted: set<Operation>, op: Operation, id: string, v: nat)
    requires IsGreatest(accepted, id, v)
    ensures IsGreatest(accepted + {op}, id, if op.notificationID == id && op.state > v then op.state else v)
  {
    var w: nat := if op.notificationID == id && op.state > v then op.state else v;
    if w != 0 && w == v {
      var o :| o in accepted && o.notificationID == id && o.state == v;
      assert o in accepted + {op};
    } else if w != 0 {
      assert op in accepted + {op};
    }
  }

  lemma ApplyKeepsValid(n: Maps, op: Operation)
    requires Valid(n)
    ensures Valid(Applying(n, op).node)
  {
    var n' := Applying(n, op).node;
    if n' != n {
      AppliedValues(n, op);
      forall id
        ensures IsGreatest(n'.applied.Values, id, StateOf(n', id))
      {
        assert IsGreatest(n.applied.Values, id, StateOf(n, id));
        GreatestWithOne(n.applied.Values, op, id, StateOf(n, id));
      }
    }
  }

  lemma {:induction false} MergeKeepsValid(n: Maps, ops: seq<Operation>)
    requires Valid(n)
    ensures Valid(Merging(n, ops).node)
    ensures n.applied.Values <= Merging(n, ops).node.applied.Values
    decreases |ops|
  {
    if ops != [] {
      ApplyKeepsValid(n, ops[0]);
      ApplyAccepts(n, ops[0]);
      MergeKeepsValid(Applying(n, ops[0]).node, ops[1..]);
    }
  }

  lemma GreatestIsUnique(accepted: set<Operation>, id: string, v: nat, w: nat)
    requires IsGreatest(accepted, id, v) && IsGreatest(accepted, id, w)
    ensures v == w
  {
  }

  /** Nodes that accepted the same operations are the same node. */
  lemma EqualAcceptedEqualNodes(a: Maps, b: Maps)
    requires Valid(a) && Valid(b) && a.applied.Values == b.applied.Values
    ensures a == b
  {
    forall k | k in a.applied ensures k in b.applied && b.applied[k] == a.applied[k] {
      assert a.applied[k] in b.applied.Values;
    }
    forall k | k in b.applied ensures k in a.applied {
      assert b.applied[k] in a.applied.Values;
    }
    assert a.applied == b.applied;
    forall id ensures StateOf(a, id) == StateOf(b, id) {
      GreatestIsUnique(a.applied.Values, id, StateOf(a, id), StateOf(b, id));
    }
    forall id | id in a.states || id in b.states
      ensures id in a.states && id in b.states && a.states[id] == b.states[id]
    {
      assert StateOf(a, id) == StateOf(b, id);
    }
    assert a.states == b.states;
  }

  /** A well-formed operation is added unless its slot holds another one. */
  ghost predicate AddsUnlessTaken(before: set<Operation>, op: Operation, ok: bool, after: set<Operation>)
  {
    && (ok <==>
        && op.origin != "" && op.sequence > 0 && op.notificationID != "" && op.state <= 3
        && forall o :: o in before && o.origin == op.origin && o.sequence == op.sequence ==> o == op)
    && after == if ok then before + {op} else before
  }

  lemma AcceptLaw(accepted: set<Operation>, op: Operation)
    ensures AddsUnlessTaken(accepted, op, !Refused(accepted, op), Accept(accepted, op))
  {
  }

  function Taken(ops: seq<Operation>, k: nat): set<Operation>
    requires k <= |ops|
  {
    set op | op in ops[..k]
  }

  /** The first k are taken and the next one, if any, is refused. */
  ghost predicate TakesFirst(before: set<Operation>, ops: seq<Operation>, k: nat, after: set<Operation>)
  {
    && k <= |ops| && after == before + Taken(ops, k)
    && (forall i :: 0 <= i < k ==> !Refused(before + Taken(ops, i), ops[i]))
    && (k < |ops| ==> Refused(before + Taken(ops, k), ops[k]))
  }

  /** A merge takes some operations, and all if it succeeds. */
  ghost predicate TakesUpToRefusal(before: set<Operation>, ops: seq<Operation>, ok: bool, after: set<Operation>)
  {
    exists k: nat :: TakesFirst(before, ops, k, after) && (ok <==> k == |ops|)
  }

  lemma TakenFromNext(ops: seq<Operation>)
    requires ops != []
    ensures forall i :: 0 <= i < |ops| ==> Taken(ops, i + 1) == {ops[0]} + Taken(ops[1..], i)
  {
    forall i | 0 <= i < |ops| ensures Taken(ops, i + 1) == {ops[0]} + Taken(ops[1..], i) {
      assert ops[..i + 1] == [ops[0]] + ops[1..][..i];
    }
  }

  lemma TakesOneMore(before: set<Operation>, ops: seq<Operation>, k: nat, after: set<Operation>)
    requires ops != [] && !Refused(before, ops[0]) && TakesFirst(before + {ops[0]}, ops[1..], k, after)
    ensures TakesFirst(before, ops, k + 1, after)
  {
    hide Refused;
    TakenFromNext(ops);
    assert before + Taken(ops, k + 1) == before + {ops[0]} + Taken(ops[1..], k);
    forall i | 0 <= i < k + 1 ensures !Refused(before + Taken(ops, i), ops[i]) {
      if i > 0 {
        assert before + Taken(ops, i) == before + {ops[0]} + Taken(ops[1..], i - 1);
        assert ops[i] == ops[1..][i - 1];
      } else {
        assert before + Taken(ops, 0) == before;
      }
    }
  }

  lemma NothingTaken(before: set<Operation>, ops: seq<Operation>)
    requires ops == [] || Refused(before, ops[0])
    ensures TakesFirst(before, ops, 0, before)
  {
    assert before + Taken(ops, 0) == before;
  }

  /** A merge takes the operations up to the first refused one, in the given order. */
  lemma {:induction false} MergeTakesFirst(n: Maps, ops: seq<Operation>) returns (k: nat)
    requires Valid(n)
    ensures TakesFirst(n.applied.Values, ops, k, Merging(n, ops).node.applied.Values)
    ensures Merging(n, ops).ok <==> k == |ops|
    decreases |ops|
  {
    hide Valid, Applying, Refused;
    k := 0;
    if ops == [] || Refused(n.applied.Values, ops[0]) { NothingTaken(n.applied.Values, ops); }
    if ops != [] {
      ApplyKeepsValid(n, ops[0]);
      ApplyAccepts(n, ops[0]);
      if Applying(n, ops[0]).ok {
        k := MergeTakesFirst(Applying(n, ops[0]).node, ops[1..]);
        TakesOneMore(n.applied.Values, ops, k, Merging(n, ops).node.applied.Values);
        k := k + 1;
      }
    }
  }

  /* ---------- Runs ---------- */

  datatype Call = ApplyCall(op: Operation) | MergeCall(ops: seq<Operation>)

  function Perform(n: Maps, call: Call): Maps
  {
    match call
    case ApplyCall(op) => Applying(n, op).node
    case MergeCall(ops) => Merging(n, ops).node
  }

  /** The node after a run of calls. */
  function After(calls: seq<Call>): Maps
  {
    if calls == [] then NEW else Perform(After(calls[..|calls| - 1]), calls[|calls| - 1])
  }

  /** Accepting a list stops at the first refused operation. */
  ghost function AcceptAll(accepted: set<Operation>, ops: seq<Operation>): set<Operation>
    decreases |ops|
  {
    if ops == [] || Refused(accepted, ops[0]) then accepted else AcceptAll(accepted + {ops[0]}, ops[1..])
  }

  ghost function Accepted(calls: seq<Call>): set<Operation>
  {
    if calls == [] then {}
    else
      var before := Accepted(calls[..|calls| - 1]);
      match calls[|calls| - 1]
      case ApplyCall(op) => Accept(before, op)
      case MergeCall(ops) => AcceptAll(before, ops)
  }

  lemma {:induction false} MergeAccepts(n: Maps, ops: seq<Operation>)
    requires Valid(n)
    ensures Merging(n, ops).node.applied.Values == AcceptAll(n.applied.Values, ops)
    decreases |ops|
  {
    hide Valid, Applying, Refused;
    if ops != [] {
      ApplyKeepsValid(n, ops[0]);
      ApplyAccepts(n, ops[0]);
      if Applying(n, ops[0]).ok {
        MergeAccepts(Applying(n, ops[0]).node, ops[1..]);
      }
    }
  }

  lemma {:induction false} RunAccepts(calls: seq<Call>)
    ensures Valid(After(calls)) && After(calls).applied.Values == Accepted(calls)
  {
    if calls != [] {
      RunAccepts(calls[..|calls| - 1]);
      var n := After(calls[..|calls| - 1]);
      match calls[|calls| - 1]
      case ApplyCall(op) => ApplyKeepsValid(n, op); ApplyAccepts(n, op);
      case MergeCall(ops) => MergeKeepsValid(n, ops); MergeAccepts(n, ops);
    }
  }

  /** In every run, also through refused operations and stopped merges, the state
      shown is the greatest among accepted operations on the notification. */
  lemma StateIsGreatestAccepted(calls: seq<Call>, id: string)
    ensures IsGreatest(Accepted(calls), id, StateOf(After(calls), id))
  {
    RunAccepts(calls);
  }

  /** Two runs that accepted the same operations end in equal nodes. */
  lemma RunsConverge(c: seq<Call>, d: seq<Call>)
    requires Accepted(c) == Accepted(d)
    ensures After(c) == After(d)
  {
    RunAccepts(c);
    RunAccepts(d);
    EqualAcceptedEqualNodes(After(c), After(d));
  }

  /* ---------- Snapshots ---------- */

  predicate Before(a: Operation, b: Operation)
  {
    if a.origin == b.origin then a.sequence < b.sequence else Less(a.origin, b.origin)
  }

  ghost predicate Ascending(ops: seq<Operation>)
  {
    forall i, j :: 0 <= i < j < |ops| ==> Before(ops[i], ops[j])
  }

  ghost predicate IsSnapshot(n: Maps, ops: seq<Operation>)
  {
    Ascending(ops) && forall op :: op in ops <==> op in n.applied.Values
  }

  /** No two operations claim one slot. */
  ghost predicate Compatible(ops: set<Operation>)
  {
    forall a, b :: a in ops && b in ops && SameSlot(a, b) ==> a == b
  }

  lemma NodesAreCompatible(n: Maps)
    requires Valid(n)
    ensures Compatible(n.applied.Values)
  {
  }

  /** Without a collision a merge accepts everything. */
  lemma {:induction false} MergeIsUnion(n: Maps, ops: seq<Operation>, all: set<Operation>)
    requires Valid(n) && Compatible(all) && n.applied.Values <= all
    requires forall op :: op in ops ==> op in all && WellFormed(op)
    ensures Merging(n, ops).ok
    ensures forall op :: op in Merging(n, ops).node.applied.Values <==> op in n.applied.Values || op in ops
    decreases |ops|
  {
    hide Valid, Applying;
    if ops != [] {
      assert ops[0] in ops;
      ApplyKeepsValid(n, ops[0]);
      ApplyAccepts(n, ops[0]);
      MergeIsUnion(Applying(n, ops[0]).node, ops[1..], all);
      assert forall op :: op in ops <==> op == ops[0] || op in ops[1..];
    }
  }

  lemma SnapshotIsWellFormed(n: Maps, ops: seq<Operation>)
    requires Valid(n) && IsSnapshot(n, ops)
    ensures forall op :: op in ops ==> op in n.applied.Values && WellFormed(op)
  {
  }

  lemma NewIsValid()
    ensures Valid(NEW)
  {
  }

  /** Merging a snapshot into a new node gives the node it was taken from. */
  lemma SnapshotReproduces(n: Maps, ops: seq<Operation>)
    requires Valid(n) && IsSnapshot(n, ops)
    ensures Merging(NEW, ops) == Applied(n, true)
  {
    hide Valid;
    NewIsValid();
    NodesAreCompatible(n);
    SnapshotIsWellFormed(n, ops);
    MergeIsUnion(NEW, ops, n.applied.Values);
    MergeKeepsValid(NEW, ops);
    EqualAcceptedEqualNodes(Merging(NEW, ops).node, n);
  }

  /** Two nodes without a collision that merge each other's snapshots become equal. */
  lemma ExchangeConverges(a: Maps, b: Maps, fromA: seq<Operation>, fromB: seq<Operation>)
    requires Valid(a) && Valid(b) && IsSnapshot(a, fromA) && IsSnapshot(b, fromB)
    requires Compatible(a.applied.Values + b.applied.Values)
    ensures Merging(a, fromB).ok && Merging(b, fromA).ok
    ensures Merging(a, fromB).node == Merging(b, fromA).node
  {
    hide Valid;
    SnapshotIsWellFormed(a, fromA);
    SnapshotIsWellFormed(b, fromB);
    MergeIsUnion(a, fromB, a.applied.Values + b.applied.Values);
    MergeIsUnion(b, fromA, a.applied.Values + b.applied.Values);
    MergeKeepsValid(a, fromB);
    MergeKeepsValid(b, fromA);
    EqualAcceptedEqualNodes(Merging(a, fromB).node, Merging(b, fromA).node);
  }

  lemma BeforeTransitive(a: Operation, b: Operation, c: Operation)
    requires Before(a, b) && Before(b, c)
    ensures Before(a, c)
  {
    if a.origin != b.origin && b.origin != c.origin {
      LessTransitive(a.origin, b.origin, c.origin);
      if a.origin == c.origin { LessIrreflexive(a.origin); }
    }
  }

  lemma BeforeTotal(a: Operation, b: Operation)
    requires !SameSlot(a, b)
    ensures Before(a, b) || Before(b, a)
  {
    LessTotal(a.origin, b.origin);
  }

  /* ---------- The cursor ---------- */

  ghost predicate HasSlot(accepted: set<Operation>, origin: string, sequence: nat)
  {
    exists op :: op in accepted && op.origin == origin && op.sequence == sequence
  }

  /** The longest gap-free prefix of an origin's sequences. */
  ghost predicate IsPrefix(accepted: set<Operation>, origin: string, cursor: nat)
  {
    (forall s :: 1 <= s <= cursor ==> HasSlot(accepted, origin, s)) && !HasSlot(accepted, origin, cursor + 1)
  }

  lemma KeyMeansSlot(n: Maps, origin: string, s: Sequence)
    requires Valid(n)
    ensures Key(origin, s) in n.applied <==> HasSlot(n.applied.Values, origin, s)
  {
    if Key(origin, s) in n.applied {
      var op := n.applied[Key(origin, s)];
      KeyInjective(op.origin, op.sequence, origin, s);
      assert op in n.applied.Values;
    }
    if HasSlot(n.applied.Values, origin, s) {
      var op :| op in n.applied.Values && op.origin == origin && op.sequence == s;
      assert Key(origin, s) == ID(op);
    }
  }

  lemma ZeroIsNoSlot(n: Maps, origin: string)
    requires Valid(n)
    ensures Key(origin, 0) !in n.applied
  {
    KeyMeansSlot(n, origin, 0);
  }

  class Node {
    var states: map<string, StateCode>
    var applied: map<string, Operation>

    function Value(): Maps
      reads this
    {
      Maps(states, applied)
    }

    constructor ()
      ensures Value() == NEW && Valid(Value())
    {
      states, applied := map[], map[];
    }

    method Apply(op: Operation) returns (ok: bool)
      requires Valid(Value())
      modifies this
      ensures Valid(Value())
      ensures Applied(Value(), ok) == Applying(old(Value()), op)
      ensures ok <==> !Refused(old(applied).Values, op)
      ensures applied.Values == Accept(old(applied).Values, op)
      ensures AddsUnlessTaken(old(applied).Values, op, ok, applied.Values)
    {
      AcceptLaw(applied.Values, op);
      hide Valid, Refused, Accept, AddsUnlessTaken;
      ApplyKeepsValid(Value(), op);
      ApplyAccepts(Value(), op);
      if op.origin == "" || op.sequence == 0 || op.notificationID == "" || op.state > RESOLVED {
        return false;
      }
      if ID(op) in applied {
        return applied[ID(op)] == op;
      }
      applied := applied[ID(op) := op];
      if op.state > StateOf(Value(), op.notificationID) {
        states := states[op.notificationID := op.state];
      }
      ok := true;
    }

    method State(id: string) returns (state: StateCode)
      requires Valid(Value())
      ensures IsGreatest(applied.Values, id, state)
      ensures forall op :: op in applied.Values && op.notificationID == id ==> op.state <= state
      ensures state > 0 ==> exists op :: op in applied.Values && op.notificationID == id && op.state == state
    {
      state := if id in states then states[id] else 0;
      assert state == StateOf(Value(), id);
    }

    /** Counts up to the first missing sequence; the counter wraps like a uint64. */
    method Cursor(origin: string) returns (cursor: Sequence)
      requires Valid(Value())
      ensures IsPrefix(applied.Values, origin, cursor)
    {
      hide Valid, Key;
      cursor := 0;
      while true
        invariant forall s :: 1 <= s <= cursor ==> HasSlot(applied.Values, origin, s)
        decreases SEQUENCES - cursor
      {
        var next := (cursor + 1) % SEQUENCES;
        KeyMeansSlot(Value(), origin, next);
        ZeroIsNoSlot(Value(), origin);
        if Key(origin, next) !in applied {
          return;
        }
        cursor := next;
      }
    }

    method Snapshot() returns (ops: seq<Operation>)
      requires Valid(Value())
      ensures IsSnapshot(Value(), ops)
      ensures forall op :: op in ops <==> op in applied.Values
      ensures forall i, j :: 0 <= i < j < |ops| ==>
                if ops[i].origin == ops[j].origin then ops[i].sequence < ops[j].sequence
                else Less(ops[i].origin, ops[j].origin)
    {
      ops := [];
      var keys := applied.Keys;
      while keys != {}
        invariant keys <= applied.Keys
        invariant Ascending(ops)
        invariant forall op :: op in ops <==> op in applied.Values && ID(op) !in keys
        decreases |keys|
      {
        hide Valid, ID, Ascending, Before;
        var k :| k in keys;
        var op := applied[k];
        KeyOf(Value(), k);
        assert forall o :: o in ops ==> !SameSlot(o, op) by { FreshSlot(Value(), ops, keys, k); }
        ops := InsertSorted(ops, op);
        OnlyThatKey(Value(), k);
        keys := keys - {k};
      }
    }

    method Merge(ops: seq<Operation>) returns (ok: bool)
      requires Valid(Value())
      modifies this
      ensures Valid(Value())
      ensures Applied(Value(), ok) == Merging(old(Value()), ops)
      ensures TakesUpToRefusal(old(applied).Values, ops, ok, applied.Values)
    {
      ghost var before := Value();
      ghost var k := MergeTakesFirst(before, ops);
      ok := ApplyAll(ops);
      hide Valid, TakesFirst, Merging;
    }

    /** The loop of a merge. */
    method ApplyAll(ops: seq<Operation>) returns (ok: bool)
      requires Valid(Value())
      modifies this
      ensures Valid(Value())
      ensures Applied(Value(), ok) == Merging(old(Value()), ops)
    {
      hide Valid, Refused, Applying, Accept, AddsUnlessTaken, Merging;
      ghost var result := Merging(Value(), ops);
      assert ops[0..] == ops;
      for i := 0 to |ops|
        invariant Valid(Value())
        invariant Merging(Value(), ops[i..]) == result
      {
        MergeStep(Value(), ops, i);
        ok := Apply(ops[i]);
        if !ok {
          return;
        }
      }
      MergeStep(Value(), ops, |ops|);
      ok := true;
    }
  }

  lemma MergeStep(n: Maps, ops: seq<Operation>, i: nat)
    requires i <= |ops|
    ensures Merging(n, ops[i..]) ==
            if i == |ops| then Applied(n, true)
            else
              var first := Applying(n, ops[i]);
              if first.ok then Merging(first.node, ops[i + 1..]) else first
  {
    if i < |ops| {
      assert ops[i..][0] == ops[i] && ops[i..][1..] == ops[i + 1..];
    }
  }

  lemma KeyOf(n: Maps, k: string)
    requires Valid(n) && k in n.applied
    ensures ID(n.applied[k]) == k && n.applied[k] in n.applied.Values
  {
  }

  lemma FreshSlot(n: Maps, ops: seq<Operation>, keys: set<string>, k: string)
    requires Valid(n) && k in n.applied && k in keys
    requires forall op :: op in ops ==> op in n.applied.Values && ID(op) !in keys
    ensures forall o :: o in ops ==> !SameSlot(o, n.applied[k])
  {
  }

  lemma OnlyThatKey(n: Maps, k: string)
    requires Valid(n) && k in n.applied
    ensures forall op :: op in n.applied.Values && ID(op) == k ==> op == n.applied[k]
  {
  }

  /** Inserts before the first later element. */
  method InsertSorted(ops: seq<Operation>, op: Operation) returns (r: seq<Operation>)
    requires Ascending(ops) && forall o :: o in ops ==> !SameSlot(o, op)
    ensures Ascending(r) && forall o :: o in r <==> o in ops || o == op
  {
    hide Before;
    var i := 0;
    while i < |ops| && Before(ops[i], op)
      invariant 0 <= i <= |ops|
      invariant forall j :: 0 <= j < i ==> Before(ops[j], op)
    {
      i := i + 1;
    }
    forall j | i <= j < |ops| ensures Before(op, ops[j]) {
      assert ops[i] in ops;
      BeforeTotal(ops[i], op);
      if i < j { BeforeTransitive(op, ops[i], ops[j]); }
    }
    r := ops[..i] + [op] + ops[i..];
    assert ops == ops[..i] + ops[i..];
  }
}
