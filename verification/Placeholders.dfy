/** The rewriter that turns `?` placeholders into `$1`, `$2`, … for PostgreSQL:
    a byte loop with four mode flags, against a token-level specification. */
module Placeholders {
  import opened Decimal

  datatype Kind = LineComment | BlockComment | SingleQuoted | DoubleQuoted | Parameter | Plain

  datatype Token = Token(kind: Kind, text: string)

  /* ---------- Tokens ---------- */

  /** How much of s belongs to a line comment that is already open. */
  function LineEnd(s: string): (k: nat)
    ensures k <= |s|
  {
    if s == "" then 0 else if s[0] == '\n' then 1 else 1 + LineEnd(s[1..])
  }

  function BlockEnd(s: string): (k: nat)
    ensures k <= |s|
  {
    if s == "" then 0 else if s[0] == '*' && |s| > 1 && s[1] == '/' then 2 else 1 + BlockEnd(s[1..])
  }

  /** Two single quotes in a row are an escaped quote. */
  function SingleEnd(s: string): (k: nat)
    ensures k <= |s|
  {
    if s == "" then 0
    else if s[0] != '\'' then 1 + SingleEnd(s[1..])
    else if |s| > 1 && s[1] == '\'' then 2 + SingleEnd(s[2..])
    else 1
  }

  function DoubleEnd(s: string): (k: nat)
    ensures k <= |s|
  {
    if s == "" then 0 else if s[0] == '"' then 1 else 1 + DoubleEnd(s[1..])
  }

  function HeadKind(s: string): Kind
    requires s != ""
  {
    if s[0] == '-' && |s| > 1 && s[1] == '-' then LineComment
    else if s[0] == '/' && |s| > 1 && s[1] == '*' then BlockComment
    else if s[0] == '\'' then SingleQuoted
    else if s[0] == '"' then DoubleQuoted
    else if s[0] == '?' then Parameter
    else Plain
  }

  function HeadLength(s: string): (k: nat)
    requires s != ""
    ensures 0 < k <= |s|
  {
    match HeadKind(s)
    case LineComment => 2 + LineEnd(s[2..])
    case BlockComment => 2 + BlockEnd(s[2..])
    case SingleQuoted => 1 + SingleEnd(s[1..])
    case DoubleQuoted => 1 + DoubleEnd(s[1..])
    case _ => 1
  }

  function Lex(s: string): seq<Token>
  {
    if s == "" then [] else [Token(HeadKind(s), s[..HeadLength(s)])] + Lex(s[HeadLength(s)..])
  }

  /** The text the tokens were cut from. */
  function Source(tokens: seq<Token>): string
  {
    if tokens == [] then "" else tokens[0].text + Source(tokens[1..])
  }

  function ParameterCount(tokens: seq<Token>): nat
  {
    if tokens == [] then 0 else (if tokens[0].kind.Parameter? then 1 else 0) + ParameterCount(tokens[1..])
  }

  /** Number the parameters from n on and keep every other token. */
  function Render(tokens: seq<Token>, n: nat): string
  {
    if tokens == [] then ""
    else if tokens[0].kind.Parameter? then "$" + IntString(n) + Render(tokens[1..], n + 1)
    else tokens[0].text + Render(tokens[1..], n)
  }

  function Rewritten(query: string): string { Render(Lex(query), 1) }

  /* ---------- Facts about tokens ---------- */

  /** Lexing loses nothing. */
  lemma {:induction false} SourceOfLex(s: string)
    ensures Source(Lex(s)) == s
  {
    if s != "" {
      SourceOfLex(s[HeadLength(s)..]);
    }
  }

  /** A question mark is a parameter or stands inside quotes or a comment. */
  lemma {:induction false} QuestionMarks(s: string, i: nat)
    requires i < |Lex(s)|
    ensures Lex(s)[i].kind.Parameter? ==> Lex(s)[i].text == "?"
    ensures Lex(s)[i].kind.Plain? ==> |Lex(s)[i].text| == 1 && Lex(s)[i].text[0] !in {'?', '\'', '"'}
  {
    if i > 0 {
      QuestionMarks(s[HeadLength(s)..], i - 1);
    }
  }

  /** Pieces of a string literal: characters and doubled quotes. */
  predicate Quoted(s: string)
  {
    || s == ""
    || (s[0] != '\'' && Quoted(s[1..]))
    || (|s| > 1 && s[0] == '\'' && s[1] == '\'' && Quoted(s[2..]))
  }

  /** A token and the text after it: comments and quotes run to their first end, or to the
      end of the text if it never comes. */
  ghost predicate IsToken(kind: Kind, text: string, rest: string)
  {
    var n := |text|;
    match kind
    case LineComment =>
      && n >= 2 && text[..2] == "--" && (forall i :: 2 <= i < n - 1 ==> text[i] != '\n')
      && (rest != "" ==> n > 2 && text[n - 1] == '\n')
    case BlockComment =>
      && n >= 2 && text[..2] == "/*" && (forall i :: 2 <= i < n - 2 ==> !(text[i] == '*' && text[i + 1] == '/'))
      && (rest != "" ==> n >= 4 && text[n - 2] == '*' && text[n - 1] == '/')
    case SingleQuoted =>
      && n >= 1 && text[0] == '\''
      && ((n > 1 && text[n - 1] == '\'' && Quoted(text[1..n - 1]) && (rest == "" || rest[0] != '\'')) ||
          (rest == "" && Quoted(text[1..])))
    case DoubleQuoted =>
      && n >= 1 && text[0] == '"' && (forall i :: 1 <= i < n - 1 ==> text[i] != '"')
      && (rest != "" ==> n > 1 && text[n - 1] == '"')
    case Parameter => text == "?"
    case Plain =>
      && n == 1 && text[0] != '?' && text[0] != '\'' && text[0] != '"'
      && (rest != "" ==> !(text[0] == '-' && rest[0] == '-') && !(text[0] == '/' && rest[0] == '*'))
  }

  lemma {:induction false} LineEndIsFirst(s: string)
    ensures var k := LineEnd(s);
            (forall i :: 0 <= i < k - 1 ==> s[i] != '\n') && (k < |s| ==> k > 0 && s[k - 1] == '\n')
  {
    if s != "" && s[0] != '\n' {
      LineEndIsFirst(s[1..]);
      assert forall i :: 1 <= i < |s| ==> s[i] == s[1..][i - 1];
    }
  }

  lemma {:induction false} BlockEndIsFirst(s: string)
    ensures var k := BlockEnd(s);
            && (forall i :: 0 <= i < k - 2 ==> !(s[i] == '*' && s[i + 1] == '/'))
            && (k < |s| ==> k > 1 && s[k - 2] == '*' && s[k - 1] == '/')
  {
    if s != "" && !(s[0] == '*' && |s| > 1 && s[1] == '/') {
      BlockEndIsFirst(s[1..]);
      assert forall i :: 1 <= i < |s| ==> s[i] == s[1..][i - 1];
    }
  }

  lemma {:induction false} DoubleEndIsFirst(s: string)
    ensures var k := DoubleEnd(s);
            (forall i :: 0 <= i < k - 1 ==> s[i] != '"') && (k < |s| ==> k > 0 && s[k - 1] == '"')
  {
    if s != "" && s[0] != '"' {
      DoubleEndIsFirst(s[1..]);
      assert forall i :: 1 <= i < |s| ==> s[i] == s[1..][i - 1];
    }
  }

  lemma {:induction false} SingleEndIsUnescaped(s: string)
    ensures var k := SingleEnd(s);
            || (k > 0 && s[k - 1] == '\'' && Quoted(s[..k - 1]) && (k == |s| || s[k] != '\''))
            || (k == |s| && Quoted(s))
  {
    var k := SingleEnd(s);
    if s == "" {
    } else if s[0] != '\'' {
      SingleEndIsUnescaped(s[1..]);
      assert k > 1 ==> s[..k - 1][1..] == s[1..][..k - 2];
    } else if |s| > 1 && s[1] == '\'' {
      SingleEndIsUnescaped(s[2..]);
      assert k > 2 ==> s[..k - 1][2..] == s[2..][..k - 3];
    }
  }

  lemma HeadIsToken(s: string)
    requires s != ""
    ensures IsToken(HeadKind(s), s[..HeadLength(s)], s[HeadLength(s)..])
  {
    hide LineEnd, BlockEnd, SingleEnd, DoubleEnd, Quoted;
    var text := s[..HeadLength(s)];
    match HeadKind(s)
    case LineComment =>
      LineEndIsFirst(s[2..]);
      assert forall i :: 2 <= i < |s| ==> s[i] == s[2..][i - 2];
    case BlockComment =>
      BlockEndIsFirst(s[2..]);
      assert forall i :: 2 <= i < |s| ==> s[i] == s[2..][i - 2];
    case SingleQuoted =>
      var k := SingleEnd(s[1..]);
      SingleEndIsUnescaped(s[1..]);
      assert k > 0 ==> text[1..|text| - 1] == s[1..][..k - 1];
      assert k == |s| - 1 ==> text[1..] == s[1..];
    case DoubleQuoted =>
      DoubleEndIsFirst(s[1..]);
      assert forall i :: 1 <= i < |s| ==> s[i] == s[1..][i - 1];
    case _ =>
  }

  /** Every token is cut where the SQL it belongs to ends. */
  lemma {:induction false} TokensAreSQL(s: string, i: nat)
    requires i < |Lex(s)|
    ensures IsToken(Lex(s)[i].kind, Lex(s)[i].text, Source(Lex(s)[i + 1..]))
  {
    hide IsToken, HeadKind, HeadLength;
    var rest := s[HeadLength(s)..];
    assert Lex(s)[1..] == Lex(rest);
    if i > 0 {
      TokensAreSQL(rest, i - 1);
      assert Lex(s)[i + 1..] == Lex(rest)[i..];
    } else {
      HeadIsToken(s);
      SourceOfLex(rest);
    }
  }

  /** The parameters of the second part are numbered after those of the first, so the
      token after p parameters becomes $(n + p). */
  lemma {:induction false} RenderInParts(a: seq<Token>, b: seq<Token>, n: nat)
    ensures Render(a + b, n) == Render(a, n) + Render(b, n + ParameterCount(a))
  {
    if a == [] {
      assert a + b == b;
    } else {
      assert (a + b)[1..] == a[1..] + b;
      var next := if a[0].kind.Parameter? then n + 1 else n;
      var head := if a[0].kind.Parameter? then "$" + IntString(n) else a[0].text;
      RenderInParts(a[1..], b, next);
      Regroup(head, Render(a[1..], next), Render(b, n + ParameterCount(a)));
    }
  }

  /** Around any parameter token: its number is one more than the parameters before it. */
  lemma ParameterIsNumbered(tokens: seq<Token>, i: nat)
    requires i < |tokens| && tokens[i].kind.Parameter?
    ensures Render(tokens, 1) ==
            Render(tokens[..i], 1) +
              ("$" + IntString(1 + ParameterCount(tokens[..i])) +
               Render(tokens[i + 1..], 2 + ParameterCount(tokens[..i])))
  {
    hide Render, ParameterCount;
    var pre, post := tokens[..i], tokens[i..];
    assert tokens == pre + post;
    RenderInParts(pre, post, 1);
    assert post[0] == tokens[i] && post[1..] == tokens[i + 1..];
    RenderFirst(post, 1 + ParameterCount(pre));
  }

  lemma RenderFirst(tokens: seq<Token>, n: nat)
    requires tokens != [] && tokens[0].kind.Parameter?
    ensures Render(tokens, n) == "$" + IntString(n) + Render(tokens[1..], n + 1)
  {
  }

  lemma {:induction false} WithoutParametersNothingChanges(tokens: seq<Token>, n: nat)
    requires forall i :: 0 <= i < |tokens| ==> !tokens[i].kind.Parameter?
    ensures Render(tokens, n) == Source(tokens)
  {
    if tokens != [] {
      WithoutParametersNothingChanges(tokens[1..], n);
    }
  }

  /* ---------- The rewrite is idempotent ---------- */

  ghost predicate NoParameters(s: string)
  {
    forall i :: 0 <= i < |Lex(s)| ==> !Lex(s)[i].kind.Parameter?
  }

  /** r stands for the rewritten form of what follows position k of s. */
  predicate Follows(s: string, k: nat, r: string)
    requires k <= |s|
  {
    if k == |s| then r == "" else r != "" && (r[0] == s[k] || (s[k] == '?' && r[0] == '$'))
  }

  lemma {:induction false} LineEndLocal(s: string, r: string)
    requires Follows(s, LineEnd(s), r)
    ensures LineEnd(s[..LineEnd(s)] + r) == LineEnd(s)
  {
    if s != "" && s[0] != '\n' {
      LineEndLocal(s[1..], r);
      assert (s[..LineEnd(s)] + r)[1..] == s[1..][..LineEnd(s[1..])] + r;
    }
  }

  lemma {:induction false} BlockEndLocal(s: string, r: string)
    requires Follows(s, BlockEnd(s), r)
    ensures BlockEnd(s[..BlockEnd(s)] + r) == BlockEnd(s)
  {
    if s != "" && !(s[0] == '*' && |s| > 1 && s[1] == '/') {
      BlockEndLocal(s[1..], r);
      var t := s[..BlockEnd(s)] + r;
      assert t[1..] == s[1..][..BlockEnd(s[1..])] + r;
      assert |t| > 1 && t[0] == '*' ==> t[1] != '/';
    }
  }

  lemma {:induction false} SingleEndLocal(s: string, r: string)
    requires Follows(s, SingleEnd(s), r)
    ensures SingleEnd(s[..SingleEnd(s)] + r) == SingleEnd(s)
  {
    if s != "" && s[0] != '\'' {
      SingleEndLocal(s[1..], r);
      assert (s[..SingleEnd(s)] + r)[1..] == s[1..][..SingleEnd(s[1..])] + r;
    } else if |s| > 1 && s[1] == '\'' {
      SingleEndLocal(s[2..], r);
      assert (s[..SingleEnd(s)] + r)[2..] == s[2..][..SingleEnd(s[2..])] + r;
    }
  }

  lemma {:induction false} DoubleEndLocal(s: string, r: string)
    requires Follows(s, DoubleEnd(s), r)
    ensures DoubleEnd(s[..DoubleEnd(s)] + r) == DoubleEnd(s)
  {
    if s != "" && s[0] != '"' {
      DoubleEndLocal(s[1..], r);
      assert (s[..DoubleEnd(s)] + r)[1..] == s[1..][..DoubleEnd(s[1..])] + r;
    }
  }

  /** The text after the first m characters, when s is cut at m + j and continued by r. */
  lemma TailAfter(s: string, m: nat, j: nat, r: string)
    requires m + j <= |s| && Follows(s, m + j, r)
    ensures (s[..m + j] + r)[m..] == s[m..][..j] + r && Follows(s[m..], j, r)
    ensures forall i :: 0 <= i < m ==> (s[..m + j] + r)[i] == s[i]
    ensures m < |s[..m + j] + r| ==>
            m < |s| && ((s[..m + j] + r)[m] == s[m] || (s[m] == '?' && (s[..m + j] + r)[m] == '$'))
  {
    var t := s[..m + j] + r;
    assert t[m..] == s[m..][..j] + r;
  }

  /** The kind of the head depends on its first two characters only. */
  lemma KindLocal(s: string, r: string)
    requires s != "" && !HeadKind(s).Parameter? && Follows(s, HeadLength(s), r)
    ensures var t := s[..HeadLength(s)] + r; t != "" && HeadKind(t) == HeadKind(s)
  {
    hide HeadLength, Follows;
    var k := HeadLength(s);
    var t := s[..k] + r;
    assert t[0] == s[0];
    TailAfter(s, 1, k - 1, r);
    HeadOpensWithin(s);
  }

  lemma HeadOpensWithin(s: string)
    requires s != ""
    ensures HeadKind(s).LineComment? || HeadKind(s).BlockComment? ==> HeadLength(s) >= 2
  {
  }

  /** The head token is found again when what follows it is rewritten. */
  lemma HeadLocal(s: string, r: string)
    requires s != "" && !HeadKind(s).Parameter? && Follows(s, HeadLength(s), r)
    ensures var t := s[..HeadLength(s)] + r; t != "" && HeadKind(t) == HeadKind(s) && HeadLength(t) == HeadLength(s)
  {
    hide LineEnd, BlockEnd, SingleEnd, DoubleEnd, Follows, HeadKind;
    KindLocal(s, r);
    match HeadKind(s)
    case LineComment => TailAfter(s, 2, LineEnd(s[2..]), r); LineEndLocal(s[2..], r);
    case BlockComment => TailAfter(s, 2, BlockEnd(s[2..]), r); BlockEndLocal(s[2..], r);
    case SingleQuoted => TailAfter(s, 1, SingleEnd(s[1..]), r); SingleEndLocal(s[1..], r);
    case DoubleQuoted => TailAfter(s, 1, DoubleEnd(s[1..]), r); DoubleEndLocal(s[1..], r);
    case Plain =>
  }

  lemma RenderFollows(s: string, k: nat, n: nat)
    requires k <= |s|
    ensures Follows(s, k, Render(Lex(s[k..]), n))
  {
    if k < |s| {
      var u := s[k..];
      assert Lex(u)[1..] == Lex(u[HeadLength(u)..]);
    }
  }

  lemma {:induction false} DigitsHaveNoParameters(digits: string, s: string)
    requires AllDigits(digits) && NoParameters(s)
    ensures NoParameters(digits + s)
  {
    if digits == "" {
      assert digits + s == s;
    } else {
      DigitsHaveNoParameters(digits[1..], s);
      assert (digits + s)[1..] == digits[1..] + s;
    }
  }

  /** The first token of a text, and then the rest. */
  lemma RenderHead(s: string, n: nat)
    requires s != ""
    ensures Render(Lex(s), n) ==
              if HeadKind(s).Parameter? then "$" + IntString(n) + Render(Lex(s[1..]), n + 1)
              else s[..HeadLength(s)] + Render(Lex(s[HeadLength(s)..]), n)
  {
    assert Lex(s)[1..] == Lex(s[HeadLength(s)..]);
  }

  lemma NumberedHasNoParameters(n: nat, r: string)
    requires NoParameters(r)
    ensures NoParameters("$" + IntString(n) + r)
  {
    NumeralReads(n);
    DigitsHaveNoParameters(IntString(n), r);
    var rest := IntString(n) + r;
    var t := "$" + rest;
    assert t[1..] == rest && HeadKind(t).Plain?;
    assert "$" + IntString(n) + r == t;
  }

  lemma TokenHasNoParameters(s: string, r: string)
    requires s != "" && !HeadKind(s).Parameter? && Follows(s, HeadLength(s), r) && NoParameters(r)
    ensures NoParameters(s[..HeadLength(s)] + r)
  {
    hide HeadKind, HeadLength;
    HeadLocal(s, r);
    var t := s[..HeadLength(s)] + r;
    assert t[HeadLength(t)..] == r;
    assert Lex(t) == [Token(HeadKind(t), t[..HeadLength(t)])] + Lex(r);
  }

  lemma {:induction false} RenderHasNoParameters(s: string, n: nat)
    ensures NoParameters(Render(Lex(s), n))
  {
    hide Render, Lex, HeadKind, Follows, NoParameters;
    if s == "" {
      EmptyHasNoParameters(n);
    } else {
      RenderHead(s, n);
      var k := HeadLength(s);
      if HeadKind(s).Parameter? {
        RenderHasNoParameters(s[1..], n + 1);
        NumberedHasNoParameters(n, Render(Lex(s[1..]), n + 1));
      } else {
        RenderHasNoParameters(s[k..], n);
        RenderFollows(s, k, n);
        TokenHasNoParameters(s, Render(Lex(s[k..]), n));
      }
    }
  }

  lemma EmptyHasNoParameters(n: nat)
    ensures NoParameters(Render(Lex(""), n))
  {
  }

  /** Rewriting a rewritten query changes nothing. */
  lemma RewriteIsIdempotent(query: string)
    ensures Rewritten(Rewritten(query)) == Rewritten(query)
  {
    var out := Rewritten(query);
    RenderHasNoParameters(query, 1);
    WithoutParametersNothingChanges(Lex(out), 1);
    SourceOfLex(out);
  }

  /* ---------- The loop ---------- */

  function Rest(s: string, n: nat): string { Render(Lex(s), n) }

  /** What is still to be written when s starts inside a token. */
  function Pending(single: bool, double: bool, line: bool, block: bool, s: string, n: nat): string
  {
    var k :=
      if line then LineEnd(s)
      else if block then BlockEnd(s)
      else if single then SingleEnd(s)
      else if double then DoubleEnd(s)
      else 0;
    s[..k] + Rest(s[k..], n)
  }

  lemma InLineComment(s: string, n: nat)
    requires s != ""
    ensures Pending(false, false, true, false, s, n) == [s[0]] + Pending(false, false, s[0] != '\n', false, s[1..], n)
  {
    hide Rest;
    if s[0] != '\n' {
      assert s[1..][LineEnd(s[1..])..] == s[LineEnd(s)..];
    }
  }

  lemma InBlockComment(s: string, n: nat)
    requires s != ""
    ensures Pending(false, false, false, true, s, n) ==
              if s[0] == '*' && |s| > 1 && s[1] == '/' then "*/" + Pending(false, false, false, false, s[2..], n)
              else [s[0]] + Pending(false, false, false, true, s[1..], n)
  {
    hide Rest;
    if !(s[0] == '*' && |s| > 1 && s[1] == '/') {
      assert s[1..][BlockEnd(s[1..])..] == s[BlockEnd(s)..];
    }
  }

  lemma InSingleQuotes(s: string, n: nat)
    requires s != ""
    ensures Pending(true, false, false, false, s, n) ==
              if s[0] != '\'' then [s[0]] + Pending(true, false, false, false, s[1..], n)
              else if |s| > 1 && s[1] == '\'' then "''" + Pending(true, false, false, false, s[2..], n)
              else "'" + Pending(false, false, false, false, s[1..], n)
  {
    hide Rest;
    if s[0] != '\'' {
      assert s[1..][SingleEnd(s[1..])..] == s[SingleEnd(s)..];
    } else if |s| > 1 && s[1] == '\'' {
      assert s[2..][SingleEnd(s[2..])..] == s[SingleEnd(s)..];
    }
  }

  lemma InDoubleQuotes(s: string, n: nat)
    requires s != ""
    ensures Pending(false, true, false, false, s, n) == [s[0]] + Pending(false, s[0] != '"', false, false, s[1..], n)
  {
    hide Rest;
    if s[0] != '"' {
      assert s[1..][DoubleEnd(s[1..])..] == s[DoubleEnd(s)..];
    }
  }

  lemma Cut(s: string, m: nat, j: nat, rest: string)
    requires m + j <= |s|
    ensures s[m..][j..] == s[m + j..]
    ensures s[..m + j] + rest == s[..m] + (s[m..][..j] + rest)
  {
  }

  lemma OpensLineComment(s: string, n: nat)
    requires s != "" && HeadKind(s).LineComment?
    ensures Rest(s, n) == "--" + Pending(false, false, true, false, s[2..], n)
  {
    hide LineEnd, Lex, Render;
    RenderHead(s, n);
    Cut(s, 2, LineEnd(s[2..]), Rest(s[HeadLength(s)..], n));
    assert s[..2] == "--";
  }

  lemma OpensBlockComment(s: string, n: nat)
    requires s != "" && HeadKind(s).BlockComment?
    ensures Rest(s, n) == "/*" + Pending(false, false, false, true, s[2..], n)
  {
    hide BlockEnd, Lex, Render;
    RenderHead(s, n);
    Cut(s, 2, BlockEnd(s[2..]), Rest(s[HeadLength(s)..], n));
    assert s[..2] == "/*";
  }

  lemma OpensQuotes(s: string, n: nat)
    requires s != "" && (HeadKind(s).SingleQuoted? || HeadKind(s).DoubleQuoted?)
    ensures Rest(s, n) ==
            [s[0]] + Pending(HeadKind(s).SingleQuoted?, HeadKind(s).DoubleQuoted?, false, false, s[1..], n)
  {
    hide SingleEnd, DoubleEnd, Lex, Render;
    RenderHead(s, n);
    Cut(s, 1, if HeadKind(s).SingleQuoted? then SingleEnd(s[1..]) else DoubleEnd(s[1..]), Rest(s[HeadLength(s)..], n));
    assert s[..1] == [s[0]];
  }

  lemma OneCharacter(s: string, n: nat)
    requires s != "" && (HeadKind(s).Parameter? || HeadKind(s).Plain?)
    ensures Rest(s, n) == if HeadKind(s).Parameter? then "$" + IntString(n) + Rest(s[1..], n + 1)
            else [s[0]] + Rest(s[1..], n)
  {
    hide Lex, Render;
    RenderHead(s, n);
    assert s[..1] == [s[0]];
  }

  lemma NoModeIsRest(s: string, n: nat)
    ensures Pending(false, false, false, false, s, n) == Rest(s, n)
  {
    hide Rest;
    assert s[0..] == s;
  }

  lemma Outside(s: string, n: nat)
    requires s != ""
    ensures Pending(false, false, false, false, s, n) ==
              match HeadKind(s)
              case LineComment => "--" + Pending(false, false, true, false, s[2..], n)
              case BlockComment => "/*" + Pending(false, false, false, true, s[2..], n)
              case SingleQuoted => "'" + Pending(true, false, false, false, s[1..], n)
              case DoubleQuoted => "\"" + Pending(false, true, false, false, s[1..], n)
              case Parameter => "$" + IntString(n) + Pending(false, false, false, false, s[1..], n + 1)
              case Plain => [s[0]] + Pending(false, false, false, false, s[1..], n)
  {
    hide Pending, Rest, HeadLength;
    NoModeIsRest(s, n);
    NoModeIsRest(s[1..], n);
    NoModeIsRest(s[1..], n + 1);
    match HeadKind(s)
    case LineComment => OpensLineComment(s, n);
    case BlockComment => OpensBlockComment(s, n);
    case SingleQuoted => OpensQuotes(s, n);
    case DoubleQuoted => OpensQuotes(s, n);
    case Parameter => OneCharacter(s, n);
    case Plain => OneCharacter(s, n);
  }

  lemma Regroup(out: string, head: string, rest: string)
    ensures out + (head + rest) == (out + head) + rest
  {
  }

  /** One pass over the bytes of the query. */
  method PostgresParameters(query: string) returns (out: string)
    ensures out == Rewritten(query)
  {
    hide Rewritten, HeadKind, Pending, IntString, Quoted, LineEnd, BlockEnd, SingleEnd, DoubleEnd, Rest, Lex, Render;
    out := "";
    var parameter := 1;
    var single, double, line, block := false, false, false, false;
    var i := 0;
    StartsOutside(query);
    while i < |query|
      invariant 0 <= i <= |query|
      invariant !(line && (block || single || double)) && !(block && (single || double)) && !(single && double)
      invariant out + Pending(single, double, line, block, query[i..], parameter) == Rewritten(query)
    {
      var current := query[i];
      var next := i + 1 < |query|;
      ghost var s := query[i..];
      ghost var before := Pending(single, double, line, block, s, parameter);
      var piece;
      FromHere(query, i);
      if line {
        InLineComment(s, parameter);
        piece := [current];
        if current == '\n' { line := false; }
        i := i + 1;
      } else if block {
        InBlockComment(s, parameter);
        piece := [current];
        i := i + 1;
        if current == '*' && next && query[i] == '/' {
          piece := "*/";
          i := i + 1;
          block := false;
        }
      } else if !single && !double && current == '-' && next && query[i + 1] == '-' {
        OutsideKind(s, parameter);
        piece := "--";
        i := i + 2;
        line := true;
      } else if !single && !double && current == '/' && next && query[i + 1] == '*' {
        OutsideKind(s, parameter);
        piece := "/*";
        i := i + 2;
        block := true;
      } else if current == '\'' && !double {
        InSingleQuotes(s, parameter);
        OutsideKind(s, parameter);
        piece := "'";
        i := i + 1;
        if single && next && query[i] == '\'' {
          piece := "''";
          i := i + 1;
        } else {
          single := !single;
        }
      } else if current == '"' && !single {
        InDoubleQuotes(s, parameter);
        OutsideKind(s, parameter);
        double := !double;
        piece := [current];
        i := i + 1;
      } else if current == '?' && !single && !double {
        OutsideKind(s, parameter);
        piece := "$" + IntString(parameter);
        parameter := parameter + 1;
        i := i + 1;
      } else {
        InSingleQuotes(s, parameter);
        InDoubleQuotes(s, parameter);
        OutsideKind(s, parameter);
        piece := [current];
        i := i + 1;
      }
      assert before == piece + Pending(single, double, line, block, query[i..], parameter);
      Regroup(out, piece, Pending(single, double, line, block, query[i..], parameter));
      out := out + piece;
    }
    NothingPending(single, double, line, block, parameter);
    assert query[i..] == "";
  }

  lemma FromHere(query: string, i: nat)
    requires i < |query|
    ensures var s := query[i..];
            s[0] == query[i] && |s| == |query| - i && s[1..] == query[i + 1..] &&
            (i + 1 < |query| ==> s[1] == query[i + 1] && s[2..] == query[i + 2..])
  {
  }

  lemma StartsOutside(query: string)
    ensures Pending(false, false, false, false, query[0..], 1) == Rewritten(query)
  {
    assert query[0..] == query;
  }

  lemma NothingPending(single: bool, double: bool, line: bool, block: bool, n: nat)
    ensures Pending(single, double, line, block, "", n) == ""
  {
  }

  /** Outside with the head's kind spelled out. */
  lemma OutsideKind(s: string, n: nat)
    requires s != ""
    ensures Pending(false, false, false, false, s, n) ==
              if s[0] == '-' && |s| > 1 && s[1] == '-' then "--" + Pending(false, false, true, false, s[2..], n)
              else if s[0] == '/' && |s| > 1 && s[1] == '*' then "/*" + Pending(false, false, false, true, s[2..], n)
              else if s[0] == '\'' then "'" + Pending(true, false, false, false, s[1..], n)
              else if s[0] == '"' then "\"" + Pending(false, true, false, false, s[1..], n)
              else if s[0] == '?' then "$" + IntString(n) + Pending(false, false, false, false, s[1..], n + 1)
              else [s[0]] + Pending(false, false, false, false, s[1..], n)
  {
    hide Pending;
    Outside(s, n);
  }
}
