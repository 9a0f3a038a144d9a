/** A notification as replication sees it, and the join that both the snapshot
    path and the external-key branch of `notification.created` apply to two
    versions of one notification. */
module NotificationRecord {
  import opened Ordering

  /** Lifecycle states; any other text in the column is Unrecognised. */
  datatype State = Received | Firing | Acknowledged | Resolved | Unrecognised(text: string)

  function StateRank(s: State): (rank: int)
    ensures -1 <= rank <= 3
    ensures rank == -1 <==> s.Unrecognised?
  {
    match s
    case Received => 0
    case Firing => 1
    case Acknowledged => 2
    case Resolved => 3
    case Unrecognised(_) => -1
  }

  /** The lifecycle: received, firing, acknowledged, resolved; anything else ranks below. */
  lemma LifecycleOrder(text: string)
    ensures StateRank(Unrecognised(text)) < StateRank(Received) < StateRank(Firing)
    ensures StateRank(Firing) < StateRank(Acknowledged) < StateRank(Resolved)
  {
  }

  /** Among recognised states the rank names the state. */
  lemma RankNamesState(s: State, t: State)
    requires StateRank(s) == StateRank(t) >= 0
    ensures s == t
  {
  }

  /** Everything the content key covers. */
  datatype Content = Content(channelID: string, text: string, username: string, iconURL: string,
                             attachments: string, rawPayload: string, card: string)

  datatype Record = Record(webhookID: string, externalKey: string, content: Content,
                           createdAt: int, updatedAt: int, state: State)

  /* ---------- The content key ---------- */

  function EscapeChar(c: char): string
  {
    if c == '"' || c == '\\' then ['\\', c] else [c]
  }

  /** The escaped text followed by `rest`. */
  function Escape(s: string, rest: string): string
  {
    if s == "" then rest else EscapeChar(s[0]) + Escape(s[1..], rest)
  }

  /** A JSON string literal followed by `rest`. */
  function Quote(s: string, rest: string): string
  {
    ['"'] + Escape(s, ['"'] + rest)
  }

  function Fields(c: Content): seq<string>
  {
    [c.channelID, c.text, c.username, c.iconURL, c.attachments, c.rawPayload, c.card]
  }

  function Separator(fields: seq<string>): string { if fields == [] then "" else "," }

  function QuoteFields(fields: seq<string>): string
  {
    if fields == [] then "]" else Quote(fields[0], Separator(fields[1..]) + QuoteFields(fields[1..]))
  }

  /** The JSON array of the content fields, the tie-breaker between versions
      with equal update times. */
  function ContentKey(c: Content): string
  {
    ['['] + QuoteFields(Fields(c))
  }

  lemma EscapedCharCancels(c: char, d: char, x: string, y: string)
    requires EscapeChar(c) + x == EscapeChar(d) + y
    ensures c == d && x == y
  {
    var left, right := EscapeChar(c) + x, EscapeChar(d) + y;
    assert left[0] == right[0];
    if |EscapeChar(c)| == 2 {
      assert left[1] == right[1];
      assert left[2..] == x && right[2..] == y;
    } else {
      assert left[1..] == x && right[1..] == y;
    }
  }

  /** A closing quote is recognisable: an escaped field never swallows it. */
  lemma {:induction false} EscapeEndsAtQuote(a: string, b: string, x: string, y: string)
    requires Escape(a, ['"'] + x) == Escape(b, ['"'] + y)
    ensures a == b && x == y
  {
    assert a != "" ==> Escape(a, ['"'] + x)[0] == EscapeChar(a[0])[0];
    assert b != "" ==> Escape(b, ['"'] + y)[0] == EscapeChar(b[0])[0];
    if a == "" && b == "" {
      assert (['"'] + x)[1..] == x && (['"'] + y)[1..] == y;
    } else if a != "" && b != "" {
      EscapedCharCancels(a[0], b[0], Escape(a[1..], ['"'] + x), Escape(b[1..], ['"'] + y));
      EscapeEndsAtQuote(a[1..], b[1..], x, y);
      assert a == [a[0]] + a[1..] && b == [b[0]] + b[1..];
    }
  }

  lemma QuotedFieldsCancel(a: string, b: string, x: string, y: string)
    requires Quote(a, x) == Quote(b, y)
    ensures a == b && x == y
  {
    assert Quote(a, x)[1..] == Escape(a, ['"'] + x) && Quote(b, y)[1..] == Escape(b, ['"'] + y);
    EscapeEndsAtQuote(a, b, x, y);
  }

  lemma {:induction false} QuoteFieldsInjective(a: seq<string>, b: seq<string>)
    requires |a| == |b| && QuoteFields(a) == QuoteFields(b)
    ensures a == b
  {
    if a != [] {
      var n := |Separator(a[1..])|;
      var x, y := Separator(a[1..]) + QuoteFields(a[1..]), Separator(b[1..]) + QuoteFields(b[1..]);
      QuotedFieldsCancel(a[0], b[0], x, y);
      assert x[n..] == QuoteFields(a[1..]) && y[n..] == QuoteFields(b[1..]);
      QuoteFieldsInjective(a[1..], b[1..]);
      assert a == [a[0]] + a[1..] && b == [b[0]] + b[1..];
    }
  }

  /** Distinct contents have distinct keys, so comparing keys is a total order
      on contents. */
  lemma ContentKeyInjective(c: Content, d: Content)
    requires ContentKey(c) == ContentKey(d)
    ensures c == d
  {
    var x, y := Fields(c), Fields(d);
    assert ContentKey(c)[1..] == QuoteFields(x) && ContentKey(d)[1..] == QuoteFields(y);
    QuoteFieldsInjective(x, y);
    assert x[0] == y[0] && x[1] == y[1] && x[2] == y[2] && x[3] == y[3] && x[4] == y[4] && x[5] == y[5] && x[6] == y[6];
  }

  /* ---------- The join ---------- */

  function Min(a: int, b: int): int { if a <= b then a else b }

  /** Later update wins; on a tie the greater content key wins. */
  predicate IncomingWins(local: Record, incoming: Record)
  {
    incoming.updatedAt > local.updatedAt ||
    (incoming.updatedAt == local.updatedAt && Less(ContentKey(local.content), ContentKey(incoming.content)))
  }

  function HigherState(local: State, incoming: State): State
  {
    if StateRank(incoming) > StateRank(local) then incoming else local
  }

  /** Field by field, what merging an incoming version into the local one gives: the later
      update time with its content, on equal times the content with the greater key, the
      earlier creation time, the higher state, and the local identity. */
  ghost predicate IsMerge(local: Record, incoming: Record, merged: Record)
  {
    && merged.webhookID == local.webhookID && merged.externalKey == local.externalKey
    && merged.updatedAt == (if incoming.updatedAt > local.updatedAt then incoming.updatedAt else local.updatedAt)
    && (incoming.updatedAt > local.updatedAt ==> merged.content == incoming.content)
    && (incoming.updatedAt < local.updatedAt ==> merged.content == local.content)
    && (incoming.updatedAt == local.updatedAt ==>
        merged.content == if Less(ContentKey(local.content), ContentKey(incoming.content)) then incoming.content
          else local.content)
    && merged.createdAt == (if incoming.createdAt < local.createdAt then incoming.createdAt else local.createdAt)
    && merged.state == (if StateRank(incoming.state) > StateRank(local.state) then incoming.state else local.state)
  }

  /** What the code stores when a version of a known notification arrives. */
  function Join(local: Record, incoming: Record): Record
  {
    var merged := local.(createdAt := Min(local.createdAt, incoming.createdAt),
                         state := HigherState(local.state, incoming.state));
    if IncomingWins(local, incoming) then
      merged.(content := incoming.content, updatedAt := incoming.updatedAt)
    else
      merged
  }

  /** Versions the join is applied to: same webhook and external key, known states. */
  predicate SameIdentity(a: Record, b: Record)
  {
    a.webhookID == b.webhookID && a.externalKey == b.externalKey
  }

  predicate KnownState(a: Record) { StateRank(a.state) >= 0 }

  lemma WinsTransitive(a: Record, b: Record, c: Record)
    requires IncomingWins(a, b) && IncomingWins(b, c)
    ensures IncomingWins(a, c)
  {
    if a.updatedAt == b.updatedAt == c.updatedAt {
      LessTransitive(ContentKey(a.content), ContentKey(b.content), ContentKey(c.content));
    }
  }

  lemma WinsTotal(a: Record, b: Record)
    ensures !(IncomingWins(a, b) && IncomingWins(b, a))
    ensures !IncomingWins(a, b) && !IncomingWins(b, a) ==> a.updatedAt == b.updatedAt && a.content == b.content
  {
    var ka, kb := ContentKey(a.content), ContentKey(b.content);
    if IncomingWins(a, b) && IncomingWins(b, a) {
      LessAsymmetric(ka, kb);
    }
    if !IncomingWins(a, b) && !IncomingWins(b, a) {
      LessTotal(ka, kb);
      ContentKeyInjective(a.content, b.content);
    }
  }

  lemma JoinIsMerge(local: Record, incoming: Record)
    ensures IsMerge(local, incoming, Join(local, incoming))
  {
  }

  lemma JoinIdempotent(a: Record)
    ensures Join(a, a) == a
  {
    WinsTotal(a, a);
  }

  lemma JoinCommutative(a: Record, b: Record)
    requires SameIdentity(a, b) && KnownState(a) && KnownState(b)
    ensures Join(a, b) == Join(b, a)
  {
    WinsTotal(a, b);
  }

  lemma JoinAssociative(a: Record, b: Record, c: Record)
    requires SameIdentity(a, b) && SameIdentity(b, c)
    requires KnownState(a) && KnownState(b) && KnownState(c)
    ensures Join(Join(a, b), c) == Join(a, Join(b, c))
  {
    WinsTotal(a, b);
    WinsTotal(b, c);
    WinsTotal(a, c);
    WinsLooksOnlyAtVersion(a, b, c);
    if IncomingWins(a, b) && IncomingWins(b, c) {
      WinsTransitive(a, b, c);
    } else if !IncomingWins(a, b) && !IncomingWins(b, c) && IncomingWins(a, c) {
      // b is at most a and c at most b, so c cannot beat a.
      if IncomingWins(b, a) && IncomingWins(a, c) { WinsTransitive(b, a, c); }
    }
  }

  lemma WinsLooksOnlyAtVersion(a: Record, b: Record, c: Record)
    ensures IncomingWins(Join(a, b), c) == IncomingWins(if IncomingWins(a, b) then b else a, c)
    ensures IncomingWins(a, Join(b, c)) == IncomingWins(a, if IncomingWins(b, c) then c else b)
  {
  }

  /* ---------- Any order, any repetition ---------- */

  /** b already contains a. */
  predicate Below(a: Record, b: Record) { Join(b, a) == b }

  /** Versions of one notification that may be joined with each other. */
  predicate Joinable(versions: seq<Record>)
  {
    forall i, j :: 0 <= i < |versions| && 0 <= j < |versions| ==>
      SameIdentity(versions[i], versions[j]) && KnownState(versions[i])
  }

  /** Store the first version, then merge the rest as they arrive. */
  function JoinAll(versions: seq<Record>): Record
    requires versions != []
  {
    if |versions| == 1 then versions[0]
    else Join(JoinAll(versions[..|versions| - 1]), versions[|versions| - 1])
  }

  lemma JoinKeepsShape(a: Record, b: Record)
    ensures SameIdentity(Join(a, b), a)
    ensures KnownState(a) && KnownState(b) ==> KnownState(Join(a, b))
  {
  }

  lemma JoinIsAbove(a: Record, b: Record)
    requires SameIdentity(a, b) && KnownState(a) && KnownState(b)
    ensures Below(b, Join(a, b))
  {
    JoinAssociative(a, b, b);
    JoinIdempotent(b);
  }

  lemma JoinKeepsLower(v: Record, a: Record, b: Record)
    requires SameIdentity(v, a) && SameIdentity(a, b) && KnownState(v) && KnownState(a) && KnownState(b)
    requires Below(v, a)
    ensures Below(v, Join(a, b))
  {
    JoinCommutative(a, b);
    JoinAssociative(b, a, v);
  }

  lemma JoinIsLeast(a: Record, b: Record, bound: Record)
    requires SameIdentity(a, b) && SameIdentity(bound, a) && KnownState(a) && KnownState(b) && KnownState(bound)
    requires Below(a, bound) && Below(b, bound)
    ensures Below(Join(a, b), bound)
  {
    JoinAssociative(bound, a, b);
  }

  lemma BelowAntisymmetric(a: Record, b: Record)
    requires SameIdentity(a, b) && KnownState(a) && KnownState(b)
    requires Below(a, b) && Below(b, a)
    ensures a == b
  {
    JoinCommutative(a, b);
  }

  ghost predicate AllBelow(versions: seq<Record>, bound: Record)
  {
    forall i :: 0 <= i < |versions| ==> Below(versions[i], bound)
  }

  lemma {:induction false} JoinAllIsUpperBound(versions: seq<Record>)
    requires versions != [] && Joinable(versions)
    ensures SameIdentity(JoinAll(versions), versions[0]) && KnownState(JoinAll(versions))
    ensures AllBelow(versions, JoinAll(versions))
  {
    var n := |versions| - 1;
    assert SameIdentity(versions[0], versions[n]) && KnownState(versions[n]);
    if n == 0 {
      JoinIdempotent(versions[0]);
    } else {
      var before := JoinAll(versions[..n]);
      JoinAllIsUpperBound(versions[..n]);
      JoinKeepsShape(before, versions[n]);
      forall i | 0 <= i <= n
        ensures Below(versions[i], JoinAll(versions))
      {
        assert SameIdentity(versions[i], versions[0]) && KnownState(versions[i]);
        if i < n {
          assert versions[..n][i] == versions[i];
          JoinKeepsLower(versions[i], before, versions[n]);
        } else {
          JoinIsAbove(before, versions[n]);
        }
      }
    }
  }

  lemma {:induction false} JoinAllIsLeast(versions: seq<Record>, bound: Record)
    requires versions != [] && Joinable(versions)
    requires SameIdentity(versions[0], bound) && KnownState(bound)
    requires AllBelow(versions, bound)
    ensures Below(JoinAll(versions), bound)
  {
    var n := |versions| - 1;
    if n > 0 {
      assert SameIdentity(versions[0], versions[n]) && KnownState(versions[n]);
      JoinAllIsUpperBound(versions[..n]);
      JoinAllIsLeast(versions[..n], bound);
      JoinIsLeast(JoinAll(versions[..n]), versions[n], bound);
    }
  }

  lemma SameVersionsJoinBelow(xs: seq<Record>, ys: seq<Record>)
    requires xs != [] && ys != [] && Joinable(xs) && Joinable(ys)
    requires SameIdentity(xs[0], ys[0])
    requires forall v :: v in xs ==> v in ys
    ensures Below(JoinAll(xs), JoinAll(ys))
  {
    JoinAllIsUpperBound(ys);
    forall i | 0 <= i < |xs|
      ensures Below(xs[i], JoinAll(ys))
    {
      assert xs[i] in ys;
    }
    JoinAllIsLeast(xs, JoinAll(ys));
  }

  /** Deliveries of the same versions, in any order and any number of times,
      leave the same record. */
  lemma DeliveryOrderIrrelevant(xs: seq<Record>, ys: seq<Record>)
    requires xs != [] && ys != [] && Joinable(xs)
    requires forall v :: v in xs <==> v in ys
    ensures JoinAll(xs) == JoinAll(ys)
  {
    forall i, j | 0 <= i < |ys| && 0 <= j < |ys|
      ensures SameIdentity(ys[i], ys[j]) && KnownState(ys[i])
    {
      assert ys[i] in ys && ys[j] in ys;
      var a :| 0 <= a < |xs| && xs[a] == ys[i];
      var b :| 0 <= b < |xs| && xs[b] == ys[j];
      assert SameIdentity(xs[a], xs[b]) && KnownState(xs[a]);
    }
    assert ys[0] in xs && xs[0] in ys;
    var k :| 0 <= k < |xs| && xs[k] == ys[0];
    assert SameIdentity(xs[k], xs[0]) && SameIdentity(xs[0], xs[k]);
    SameVersionsJoinBelow(xs, ys);
    SameVersionsJoinBelow(ys, xs);
    JoinAllIsUpperBound(xs);
    JoinAllIsUpperBound(ys);
    BelowAntisymmetric(JoinAll(xs), JoinAll(ys));
  }

  /** A version with the update time and the content of the merged card. */
  ghost predicate Latest(version: Record, merged: Record)
  {
    version.updatedAt == merged.updatedAt && version.content == merged.content
  }

  /** Of all versions merged, the result has the latest update time and the content of a
      version with that time, the earliest creation time and the highest state. */
  lemma {:induction false} JoinAllIsLatest(versions: seq<Record>)
    requires versions != []
    ensures var m := JoinAll(versions);
            && (forall i :: 0 <= i < |versions| ==> versions[i].updatedAt <= m.updatedAt)
            && (exists i :: 0 <= i < |versions| && Latest(versions[i], m))
            && (forall i :: 0 <= i < |versions| ==> m.createdAt <= versions[i].createdAt)
            && (exists i :: 0 <= i < |versions| && versions[i].createdAt == m.createdAt)
            && (forall i :: 0 <= i < |versions| ==> StateRank(versions[i].state) <= StateRank(m.state))
            && (exists i :: 0 <= i < |versions| && versions[i].state == m.state)
  {
    hide ContentKey, Join, StateRank, Less, IsMerge;
    var n := |versions| - 1;
    if n == 0 {
      assert JoinAll(versions) == versions[0];
    } else {
      var rest, before := versions[..n], JoinAll(versions[..n]);
      JoinAllIsLatest(rest);
      assert forall i :: 0 <= i < n ==> versions[i] == rest[i];
      MergeIsLatest(before, versions[n]);
      assert JoinAll(versions) == Join(before, versions[n]);
      hide JoinAll;
      var u :| 0 <= u < n && Latest(rest[u], before);
      var c :| 0 <= c < n && rest[c].createdAt == before.createdAt;
      var t :| 0 <= t < n && rest[t].state == before.state;
      assert versions[u] == rest[u] && versions[c] == rest[c] && versions[t] == rest[t];
    }
  }

  lemma MergeIsLatest(a: Record, b: Record)
    ensures var m := Join(a, b);
            && m.updatedAt >= a.updatedAt && m.updatedAt >= b.updatedAt
            && ((m.updatedAt == a.updatedAt && m.content == a.content) ||
                (m.updatedAt == b.updatedAt && m.content == b.content))
            && m.createdAt <= a.createdAt && m.createdAt <= b.createdAt && (m.createdAt in {a.createdAt, b.createdAt})
            && StateRank(a.state) <= StateRank(m.state) && StateRank(b.state) <= StateRank(m.state)
            && m.state in {a.state, b.state}
  {
    JoinIsMerge(a, b);
  }

  predicate Plain(s: string) { forall i :: 0 <= i < |s| ==> s[i] != '"' && s[i] != '\\' }

  /** A string literal that needs no escapes, and what follows it. */
  function Literal(s: string, rest: string): string { ['"'] + (s + (['"'] + rest)) }

  lemma {:induction false} PlainIsNotEscaped(s: string, rest: string)
    requires Plain(s)
    ensures Escape(s, rest) == s + rest
  {
    if s != "" {
      PlainIsNotEscaped(s[1..], rest);
      hide Escape;
      assert s == [s[0]] + s[1..];
      assert EscapeChar(s[0]) == [s[0]];
      assert Escape(s, rest) == [s[0]] + (s[1..] + rest) by { EscapeFirst(s, rest); }
    }
  }

  lemma EscapeFirst(s: string, rest: string)
    requires s != ""
    ensures Escape(s, rest) == EscapeChar(s[0]) + Escape(s[1..], rest)
  {
  }

  lemma PlainLiteral(s: string, rest: string)
    requires Plain(s)
    ensures Quote(s, rest) == Literal(s, rest)
  {
    PlainIsNotEscaped(s, ['"'] + rest);
  }

  /** The key is the JSON array of the fields in this order, if none needs escaping. */
  lemma ContentKeyIsTheArray(c: Content)
    requires Plain(c.channelID) && Plain(c.text) && Plain(c.username) && Plain(c.iconURL)
    requires Plain(c.attachments) && Plain(c.rawPayload) && Plain(c.card)
    ensures ContentKey(c) ==
            "[" + Literal(c.channelID, "," + Literal(c.text, "," + Literal(c.username, "," + Literal(c.iconURL, "," +
            Literal(c.attachments, "," + Literal(c.rawPayload, "," + Literal(c.card, "]")))))))
  {
    hide Quote, Literal;
    assert Fields(c)[6..] == [c.card] && Fields(c)[5..] == [c.rawPayload, c.card];
    var g := QuoteFields(Fields(c)[6..]);
    NextField(Fields(c), 6, "]");
    PlainLiteral(c.card, "]");
    NextField(Fields(c), 5, "," + g);
    PlainLiteral(c.rawPayload, "," + g);
    var f := QuoteFields(Fields(c)[5..]);
    NextField(Fields(c), 4, "," + f);
    PlainLiteral(c.attachments, "," + f);
    var e := QuoteFields(Fields(c)[4..]);
    NextField(Fields(c), 3, "," + e);
    PlainLiteral(c.iconURL, "," + e);
    var d := QuoteFields(Fields(c)[3..]);
    NextField(Fields(c), 2, "," + d);
    PlainLiteral(c.username, "," + d);
    var b := QuoteFields(Fields(c)[2..]);
    NextField(Fields(c), 1, "," + b);
    PlainLiteral(c.text, "," + b);
    var a := QuoteFields(Fields(c)[1..]);
    NextField(Fields(c), 0, "," + a);
    PlainLiteral(c.channelID, "," + a);
    assert Fields(c)[0..] == Fields(c);
  }

  lemma NextField(fields: seq<string>, i: nat, rest: string)
    requires i < |fields| && rest == if i + 1 == |fields| then "]" else "," + QuoteFields(fields[i + 1..])
    ensures QuoteFields(fields[i..]) == Quote(fields[i], rest)
  {
    assert fields[i..][1..] == fields[i + 1..];
    assert "" + "]" == "]";
  }
}
