/** base64url without padding, section 5 of RFC 4648. Strings are byte strings. */
module Base64URL {
  import opened Basics

  predicate Bytes(s: string) { forall i :: 0 <= i < |s| ==> s[i] as int < 256 }

  /* ---------- base64url without padding ---------- */

  function SextetChar(v: nat): char
    requires v < 64
  {
    if v < 26 then 'A' + v as char
    else if v < 52 then 'a' + (v - 26) as char
    else if v < 62 then '0' + (v - 52) as char
    else if v == 62 then '-' else '_'
  }

  predicate InAlphabet(c: char)
  {
    'A' <= c <= 'Z' || 'a' <= c <= 'z' || '0' <= c <= '9' || c == '-' || c == '_'
  }

  function Sextet(c: char): (v: nat)
    requires InAlphabet(c)
    ensures v < 64
  {
    if 'A' <= c <= 'Z' then (c - 'A') as nat
    else if 'a' <= c <= 'z' then (c - 'a') as nat + 26
    else if '0' <= c <= '9' then (c - '0') as nat + 52
    else if c == '-' then 62 else 63
  }

  lemma SextetRoundTrip(v: nat)
    requires v < 64
    ensures InAlphabet(SextetChar(v)) && Sextet(SextetChar(v)) == v
  {
  }

  type Byte = c: char | c as int < 256

  /** Three bytes as four sextets. */
  function Pack(a: Byte, b: Byte, c: Byte): (r: string)
    ensures |r| == 4
  {
    [SextetChar(a as int / 4), SextetChar(a as int % 4 * 16 + b as int / 16),
     SextetChar(b as int % 16 * 4 + c as int / 64), SextetChar(c as int % 64)]
  }

  /** A short last group is packed with zero bits and cut. */
  function Encode(s: string): string
    requires Bytes(s)
  {
    if |s| == 0 then ""
    else if |s| == 1 then Pack(s[0], 0 as char, 0 as char)[..2]
    else if |s| == 2 then Pack(s[0], s[1], 0 as char)[..3]
    else Pack(s[0], s[1], s[2]) + Encode(s[3..])
  }

  /** The decoder passes over line breaks wherever they stand. */
  function WithoutBreaks(s: string): string
  {
    if s == "" then ""
    else if s[0] == '\n' || s[0] == '\r' then WithoutBreaks(s[1..])
    else [s[0]] + WithoutBreaks(s[1..])
  }

  predicate AllInAlphabet(s: string) { forall i :: 0 <= i < |s| ==> InAlphabet(s[i]) }

  function Unpack(p: char, q: char, r: char, t: char): (b: string)
    requires InAlphabet(p) && InAlphabet(q) && InAlphabet(r) && InAlphabet(t)
    ensures |b| == 3 && Bytes(b)
  {
    var v, w, x, y := Sextet(p), Sextet(q), Sextet(r), Sextet(t);
    [(v * 4 + w / 16) as char, (w % 16 * 16 + x / 4) as char, (x % 4 * 64 + y) as char]
  }

  /** Groups of four sextets; unused bits of a short last group are ignored. */
  function DecodeGroups(s: string): (r: string)
    requires AllInAlphabet(s) && |s| % 4 != 1
    ensures Bytes(r)
  {
    if |s| == 0 then ""
    else if |s| == 2 then Unpack(s[0], s[1], 'A', 'A')[..1]
    else if |s| == 3 then Unpack(s[0], s[1], s[2], 'A')[..2]
    else Unpack(s[0], s[1], s[2], s[3]) + DecodeGroups(s[4..])
  }

  function Decode(s: string): (r: Option<string>)
    ensures r.Some? ==> Bytes(r.value)
  {
    var t := WithoutBreaks(s);
    if AllInAlphabet(t) && |t| % 4 != 1 then Some(DecodeGroups(t)) else None
  }

  lemma PackInAlphabet(a: Byte, b: Byte, c: Byte)
    ensures AllInAlphabet(Pack(a, b, c))
  {
    hide SextetChar, InAlphabet;
    SextetRoundTrip(a as int / 4);
    SextetRoundTrip(a as int % 4 * 16 + b as int / 16);
    SextetRoundTrip(b as int % 16 * 4 + c as int / 64);
    SextetRoundTrip(c as int % 64);
  }

  lemma SplitBits(a: nat, b: nat, c: nat)
    requires a < 256 && b < 256 && c < 256
    ensures a / 4 * 4 + (a % 4 * 16 + b / 16) / 16 == a
    ensures (a % 4 * 16 + b / 16) % 16 * 16 + (b % 16 * 4 + c / 64) / 4 == b
    ensures (b % 16 * 4 + c / 64) % 4 * 64 + c % 64 == c
  {
    assert (a % 4 * 16 + b / 16) / 16 == a % 4;
    assert (b % 16 * 4 + c / 64) / 4 == b % 16;
  }

  /** Sextets of a packed group. */
  lemma PackedSextets(a: Byte, b: Byte, c: Byte)
    ensures var p := Pack(a, b, c);
            && AllInAlphabet(p) && Sextet(p[0]) == a as int / 4 && Sextet(p[1]) == a as int % 4 * 16 + b as int / 16
            && Sextet(p[2]) == b as int % 16 * 4 + c as int / 64 && Sextet(p[3]) == c as int % 64
  {
    hide SextetChar, Sextet, InAlphabet;
    PackInAlphabet(a, b, c);
    SextetRoundTrip(a as int / 4);
    SextetRoundTrip(a as int % 4 * 16 + b as int / 16);
    SextetRoundTrip(b as int % 16 * 4 + c as int / 64);
    SextetRoundTrip(c as int % 64);
  }

  /** The first bytes come back from the first sextets alone, whatever follows them. */
  lemma UnpackOfPack(a: Byte, b: Byte, c: Byte, x: char, y: char)
    requires InAlphabet(x) && InAlphabet(y)
    ensures var p := Pack(a, b, c);
            && AllInAlphabet(p) && Unpack(p[0], p[1], p[2], p[3]) == [a, b, c]
            && (c as int == 0 ==> Unpack(p[0], p[1], p[2], y)[..2] == [a, b])
            && (b as int == 0 ==> Unpack(p[0], p[1], x, y)[..1] == [a])
  {
    hide Pack, Sextet, InAlphabet;
    var p := Pack(a, b, c);
    PackedSextets(a, b, c);
    SplitBits(a as int, b as int, c as int);
    assert Unpack(p[0], p[1], p[2], p[3])[0] == a;
    assert Unpack(p[0], p[1], p[2], p[3])[1] == b;
    assert Unpack(p[0], p[1], p[2], p[3])[2] == c;
  }

  /** The text of an encoding: only alphabet characters, no padding, six bits each. */
  lemma {:induction false} EncodeShape(s: string)
    requires Bytes(s)
    ensures AllInAlphabet(Encode(s)) && |Encode(s)| == (|s| * 8 + 5) / 6
    ensures |Encode(s)| % 4 != 1
  {
    hide Pack, InAlphabet;
    if |s| >= 3 {
      EncodeShape(s[3..]);
      PackInAlphabet(s[0], s[1], s[2]);
    } else if |s| > 0 {
      PackInAlphabet(s[0], if |s| == 2 then s[1] else 0 as char, 0 as char);
    }
  }

  lemma {:induction false} NothingToSkip(s: string)
    requires AllInAlphabet(s)
    ensures WithoutBreaks(s) == s
  {
    if s != "" {
      NothingToSkip(s[1..]);
    }
  }

  lemma FirstLetter()
    ensures InAlphabet('A')
  {
  }

  lemma {:induction false} GroupsRoundTrip(s: string)
    requires Bytes(s)
    ensures AllInAlphabet(Encode(s)) && |Encode(s)| % 4 != 1 && DecodeGroups(Encode(s)) == s
  {
    hide Pack, Unpack, InAlphabet;
    EncodeShape(s);
    FirstLetter();
    var e := Encode(s);
    if |s| >= 3 {
      GroupsRoundTrip(s[3..]);
      assert e[..4] == Pack(s[0], s[1], s[2]) && e[4..] == Encode(s[3..]);
      UnpackOfPack(s[0], s[1], s[2], e[0], e[0]);
      assert s == [s[0], s[1], s[2]] + s[3..];
    } else if |s| == 2 {
      UnpackOfPack(s[0], s[1], 0 as char, 'A', 'A');
    } else if |s| == 1 {
      UnpackOfPack(s[0], 0 as char, 0 as char, 'A', 'A');
    }
  }

  lemma DecodeOfEncode(s: string)
    requires Bytes(s)
    ensures Decode(Encode(s)) == Some(s)
  {
    GroupsRoundTrip(s);
    NothingToSkip(Encode(s));
  }

  /* ---------- Bit by bit ---------- */

  const ALPHABET := "ABCDEFGHIJKLMNOPQRSTUVWXYZ" + ("abcdefghijklmnopqrstuvwxyz" + "0123456789-_")

  /** The table of section 5 of RFC 4648, in both directions. */
  lemma AlphabetIsURLSafe(v: nat, c: char)
    requires v < 64
    ensures |ALPHABET| == 64 && SextetChar(v) == ALPHABET[v]
    ensures InAlphabet(c) ==> ALPHABET[Sextet(c)] == c
    ensures InAlphabet(c) <==> c in ALPHABET
  {
    AlphabetInOrder(v);
    if InAlphabet(c) {
      SextetOfLetter(c);
      AlphabetInOrder(Sextet(c));
    }
    hide SextetChar, Sextet, InAlphabet;
    if c in ALPHABET {
      var i :| 0 <= i < 64 && ALPHABET[i] == c;
      AlphabetInOrder(i);
    }
  }

  lemma SextetOfLetter(c: char)
    requires InAlphabet(c)
    ensures SextetChar(Sextet(c)) == c
  {
  }

  lemma AlphabetInOrder(v: nat)
    requires v < 64
    ensures |ALPHABET| == 64 && ALPHABET[v] == SextetChar(v) && InAlphabet(ALPHABET[v])
  {
    var upper, lower, other := "ABCDEFGHIJKLMNOPQRSTUVWXYZ", "abcdefghijklmnopqrstuvwxyz", "0123456789-_";
    assert v < 26 ==> upper[v] == SextetChar(v);
  }

  /** The last n bits of a number, most significant first. */
  function Bits(v: nat, n: nat): seq<nat> { if n == 0 then [] else Bits(v / 2, n - 1) + [v % 2] }

  function ByteBits(s: string): seq<nat> { if s == "" then [] else Bits(s[0] as nat, 8) + ByteBits(s[1..]) }

  /** Six bits a character, by its place in the alphabet. */
  function TextBits(s: string): seq<nat>
    requires AllInAlphabet(s)
  {
    if s == "" then [] else Bits(Sextet(s[0]), 6) + TextBits(s[1..])
  }

  function Zeros(n: nat): seq<nat> { seq(n, _ => 0) }

  lemma BitsJoin2(h: nat, l: nat, m: nat)
    requires l < 4
    ensures Bits(h * 4 + l, m + 2) == Bits(h, m) + Bits(l, 2)
  {
    assert Bits(h * 4 + l, m + 2) == Bits(h * 2 + l / 2, m + 1) + [l % 2];
    assert Bits(h * 2 + l / 2, m + 1) == Bits(h, m) + [l / 2];
    assert Bits(l / 2, 1) == [l / 2] && Bits(l, 2) == [l / 2] + [l % 2];
  }

  lemma BitsJoin4(h: nat, l: nat, m: nat)
    requires l < 16
    ensures Bits(h * 16 + l, m + 4) == Bits(h, m) + Bits(l, 4)
  {
    hide Bits;
    BitsJoin2(h * 4 + l / 4, l % 4, m + 2);
    BitsJoin2(h, l / 4, m);
    BitsJoin2(l / 4, l % 4, 2);
  }

  lemma BitsJoin6(h: nat, l: nat, m: nat)
    requires l < 64
    ensures Bits(h * 64 + l, m + 6) == Bits(h, m) + Bits(l, 6)
  {
    hide Bits;
    BitsJoin4(h * 4 + l / 16, l % 16, m + 2);
    BitsJoin2(h, l / 16, m);
    BitsJoin4(l / 16, l % 16, 2);
  }

  lemma Regroup(u: seq<nat>, v: seq<nat>, w: seq<nat>, x: seq<nat>, y: seq<nat>, z: seq<nat>)
    ensures u + (v + w) + (x + y) + z == (u + v) + (w + x) + (y + z)
    ensures u + (v + w) + (x + y) == (u + v) + (w + x) + y
  {
  }

  /** Three bytes and four sextets with the same bits. */
  lemma GroupBits(a: nat, b: nat, c: nat)
    requires a < 256 && b < 256 && c < 256
    ensures Bits(a / 4, 6) + Bits(a % 4 * 16 + b / 16, 6) + Bits(b % 16 * 4 + c / 64, 6) + Bits(c % 64, 6) ==
            Bits(a, 8) + Bits(b, 8) + Bits(c, 8)
  {
    SplitByte(a);
    SplitByte(b);
    SplitByte(c);
    JoinSextets(a, b, c);
    hide Bits;
    Regroup(Bits(a / 4, 6), Bits(a % 4, 2), Bits(b / 16, 4), Bits(b % 16, 4), Bits(c / 64, 2), Bits(c % 64, 6));
  }

  lemma SplitByte(a: nat)
    requires a < 256
    ensures Bits(a, 8) == Bits(a / 4, 6) + Bits(a % 4, 2)
    ensures Bits(a, 8) == Bits(a / 16, 4) + Bits(a % 16, 4)
    ensures Bits(a, 8) == Bits(a / 64, 2) + Bits(a % 64, 6)
  {
    hide Bits;
    BitsJoin2(a / 4, a % 4, 6);
    BitsJoin4(a / 16, a % 16, 4);
    BitsJoin6(a / 64, a % 64, 2);
  }

  lemma JoinSextets(a: nat, b: nat, c: nat)
    requires a < 256 && b < 256 && c < 256
    ensures Bits(a % 4 * 16 + b / 16, 6) == Bits(a % 4, 2) + Bits(b / 16, 4)
    ensures Bits(b % 16 * 4 + c / 64, 6) == Bits(b % 16, 4) + Bits(c / 64, 2)
  {
    hide Bits;
    BitsJoin4(a % 4, b / 16, 2);
    BitsJoin2(b % 16, c / 64, 4);
  }

  lemma TwoByteBits(a: nat, b: nat)
    requires a < 256 && b < 256
    ensures Bits(a / 4, 6) + Bits(a % 4 * 16 + b / 16, 6) + Bits(b % 16 * 4, 6) == Bits(a, 8) + Bits(b, 8) + Zeros(2)
  {
    SplitByte(a);
    SplitByte(b);
    JoinSextets(a, b, 0);
    BitsOfZero(2);
    hide Bits, Zeros;
    assert b % 16 * 4 + 0 / 64 == b % 16 * 4 && 0 / 64 == 0;
    Regroup(Bits(a / 4, 6), Bits(a % 4, 2), Bits(b / 16, 4), Bits(b % 16, 4), Zeros(2), []);
  }

  lemma OneByteBits(a: nat)
    requires a < 256
    ensures Bits(a / 4, 6) + Bits(a % 4 * 16, 6) == Bits(a, 8) + Zeros(4)
  {
    SplitByte(a);
    JoinSextets(a, 0, 0);
    BitsOfZero(4);
    hide Bits, Zeros;
    assert a % 4 * 16 + 0 / 16 == a % 4 * 16 && 0 / 16 == 0;
    Regroup(Bits(a / 4, 6), Bits(a % 4, 2), Zeros(4), [], [], []);
  }

  lemma {:induction false} BitsOfZero(n: nat)
    ensures Bits(0, n) == Zeros(n)
  {
    if n > 0 {
      BitsOfZero(n - 1);
      assert Zeros(n) == Zeros(n - 1) + [0];
    }
  }

  lemma FirstLetterBits(s: string, rest: string)
    requires s != "" && s == [s[0]] + rest && InAlphabet(s[0]) && AllInAlphabet(rest)
    ensures AllInAlphabet(s) && TextBits(s) == Bits(Sextet(s[0]), 6) + TextBits(rest)
  {
    hide InAlphabet, Sextet, Bits;
    assert s[1..] == rest;
  }

  lemma {:induction false} TextBitsAppend(s: string, t: string)
    requires AllInAlphabet(s) && AllInAlphabet(t)
    ensures AllInAlphabet(s + t) && TextBits(s + t) == TextBits(s) + TextBits(t)
  {
    hide InAlphabet, Sextet, Bits;
    if s == "" {
      assert s + t == t;
    } else {
      TextBitsAppend(s[1..], t);
      FirstLetterBits(s, s[1..]);
      FirstLetterBits(s + t, s[1..] + t);
      hide TextBits;
    }
  }

  lemma OneLetter(p: char)
    requires InAlphabet(p)
    ensures AllInAlphabet([p]) && TextBits([p]) == Bits(Sextet(p), 6)
  {
    hide Bits, InAlphabet, Sextet;
    assert [p][1..] == "";
  }

  lemma Letters(p: char, q: char, r: char, t: char)
    requires InAlphabet(p) && InAlphabet(q) && InAlphabet(r) && InAlphabet(t)
    ensures AllInAlphabet([p, q]) && TextBits([p, q]) == Bits(Sextet(p), 6) + Bits(Sextet(q), 6)
    ensures AllInAlphabet([p, q, r]) && TextBits([p, q, r]) == TextBits([p, q]) + Bits(Sextet(r), 6)
    ensures AllInAlphabet([p, q, r, t]) && TextBits([p, q, r, t]) == TextBits([p, q, r]) + Bits(Sextet(t), 6)
  {
    hide InAlphabet, Sextet, Bits, TextBits, AllInAlphabet;
    OneLetter(p);
    OneLetter(q);
    OneLetter(r);
    OneLetter(t);
    assert [p] + [q] == [p, q] && [p, q] + [r] == [p, q, r] && [p, q, r] + [t] == [p, q, r, t];
    TextBitsAppend([p], [q]);
    TextBitsAppend([p, q], [r]);
    TextBitsAppend([p, q, r], [t]);
  }

  lemma ThreeBytes(a: char, b: char, c: char)
    ensures ByteBits([a, b, c]) == Bits(a as nat, 8) + Bits(b as nat, 8) + Bits(c as nat, 8)
    ensures ByteBits([a, b]) == Bits(a as nat, 8) + Bits(b as nat, 8)
    ensures ByteBits([a]) == Bits(a as nat, 8)
  {
    hide Bits;
    assert [a, b, c][1..] == [b, c] && [b, c][1..] == [c] && [a, b][1..] == [b];
    assert ByteBits([c]) == Bits(c as nat, 8) && ByteBits([b]) == Bits(b as nat, 8);
  }

  lemma Associate(a: seq<nat>, b: seq<nat>, c: seq<nat>)
    ensures a + (b + c) == (a + b) + c
  {
  }

  lemma FirstByteBits(s: string, rest: string)
    requires s != "" && s == [s[0]] + rest
    ensures ByteBits(s) == Bits(s[0] as nat, 8) + ByteBits(rest)
  {
    assert s[1..] == rest;
  }

  lemma {:induction false} ByteBitsAppend(s: string, t: string)
    ensures ByteBits(s + t) == ByteBits(s) + ByteBits(t)
  {
    hide Bits;
    if s == "" {
      assert s + t == t;
    } else {
      ByteBitsAppend(s[1..], t);
      FirstByteBits(s, s[1..]);
      assert s + t == [s[0]] + (s[1..] + t);
      FirstByteBits(s + t, s[1..] + t);
      hide ByteBits;
      Associate(Bits(s[0] as nat, 8), ByteBits(s[1..]), ByteBits(t));
    }
  }

  lemma PackedLetters(a: Byte, b: Byte, c: Byte)
    ensures var p := Pack(a, b, c); InAlphabet(p[0]) && InAlphabet(p[1]) && InAlphabet(p[2]) && InAlphabet(p[3])
  {
    PackInAlphabet(a, b, c);
    hide InAlphabet, Pack;
  }

  lemma PackBits(a: Byte, b: Byte, c: Byte)
    ensures AllInAlphabet(Pack(a, b, c)) && TextBits(Pack(a, b, c)) == ByteBits([a, b, c])
  {
    hide Bits, Sextet, InAlphabet, AllInAlphabet, Pack, TextBits, ByteBits;
    PackedSextets(a, b, c);
    PackedLetters(a, b, c);
    GroupBits(a as nat, b as nat, c as nat);
    ThreeBytes(a, b, c);
    var p := Pack(a, b, c);
    Letters(p[0], p[1], p[2], p[3]);
    assert p == [p[0], p[1], p[2], p[3]];
  }

  /** A short last group: the bits of its bytes and then zeros. */
  lemma TwoBytesPacked(a: Byte, b: Byte)
    ensures var p := Pack(a, b, 0 as char)[..3]; AllInAlphabet(p) && TextBits(p) == ByteBits([a, b]) + Zeros(2)
  {
    hide Bits, Sextet, InAlphabet, AllInAlphabet, Pack, TextBits, ByteBits, Zeros;
    PackedSextets(a, b, 0 as char);
    PackedLetters(a, b, 0 as char);
    TwoByteBits(a as nat, b as nat);
    ThreeBytes(a, b, b);
    var p := Pack(a, b, 0 as char);
    Letters(p[0], p[1], p[2], p[3]);
    assert p[..3] == [p[0], p[1], p[2]];
  }

  lemma OneBytePacked(a: Byte)
    ensures var p := Pack(a, 0 as char, 0 as char)[..2]; AllInAlphabet(p) && TextBits(p) == ByteBits([a]) + Zeros(4)
  {
    hide Bits, Sextet, InAlphabet, AllInAlphabet, Pack, TextBits, ByteBits, Zeros;
    PackedSextets(a, 0 as char, 0 as char);
    PackedLetters(a, 0 as char, 0 as char);
    OneByteBits(a as nat);
    ThreeBytes(a, a, a);
    var p := Pack(a, 0 as char, 0 as char);
    Letters(p[0], p[1], p[2], p[3]);
    assert p[..2] == [p[0], p[1]];
  }

  /** The encoding spells the bits of the bytes in order, six a character, and fills the
      last character with zeros. */
  lemma {:induction false} EncodeSpellsTheBits(s: string)
    requires Bytes(s)
    ensures AllInAlphabet(Encode(s))
    ensures TextBits(Encode(s)) == ByteBits(s) + Zeros(if |s| % 3 == 0 then 0 else if |s| % 3 == 1 then 4 else 2)
  {
    hide TextBits, ByteBits, Pack, InAlphabet, AllInAlphabet, Zeros;
    EncodeShape(s);
    if |s| >= 3 {
      EncodeSpellsTheBits(s[3..]);
      PackBits(s[0], s[1], s[2]);
      TextBitsAppend(Pack(s[0], s[1], s[2]), Encode(s[3..]));
      ByteBitsAppend([s[0], s[1], s[2]], s[3..]);
      assert s == [s[0], s[1], s[2]] + s[3..];
      hide Encode;
    } else if |s| == 2 {
      TwoBytesPacked(s[0], s[1]);
      assert s == [s[0], s[1]];
    } else if |s| == 1 {
      OneBytePacked(s[0]);
      assert s == [s[0]];
    } else {
      NoBits();
    }
  }

  lemma NoBits()
    ensures TextBits("") == [] && ByteBits("") == [] && Zeros(0) == []
  {
  }

  lemma UnpackBits(p: char, q: char, r: char, t: char)
    requires InAlphabet(p) && InAlphabet(q) && InAlphabet(r) && InAlphabet(t)
    ensures AllInAlphabet([p, q, r, t]) && ByteBits(Unpack(p, q, r, t)) == TextBits([p, q, r, t])
  {
    hide Bits, Sextet, InAlphabet, AllInAlphabet, TextBits, ByteBits;
    Letters(p, q, r, t);
    var b := Unpack(p, q, r, t);
    UnpackedSextets(Sextet(p), Sextet(q), Sextet(r), Sextet(t));
    ThreeBytes(b[0], b[1], b[2]);
    GroupBits(b[0] as nat, b[1] as nat, b[2] as nat);
    assert b == [b[0], b[1], b[2]];
  }

  /** The first bytes of a group need only the first letters. */
  lemma ShortUnpackBits(p: char, q: char, r: char)
    requires InAlphabet(p) && InAlphabet(q) && InAlphabet(r) && InAlphabet('A')
    ensures AllInAlphabet([p, q, r]) && ByteBits(Unpack(p, q, r, 'A')[..2]) <= TextBits([p, q, r])
    ensures AllInAlphabet([p, q]) && ByteBits(Unpack(p, q, 'A', 'A')[..1]) <= TextBits([p, q])
  {
    hide Bits, Sextet, InAlphabet, AllInAlphabet, TextBits, ByteBits, Unpack;
    ShortUnpack3(p, q, r);
    ShortUnpack2(p, q);
  }

  lemma ShortUnpack3(p: char, q: char, r: char)
    requires InAlphabet(p) && InAlphabet(q) && InAlphabet(r) && InAlphabet('A')
    ensures AllInAlphabet([p, q, r]) && ByteBits(Unpack(p, q, r, 'A')[..2]) <= TextBits([p, q, r])
  {
    hide Bits, Sextet, InAlphabet, AllInAlphabet, TextBits, ByteBits, Unpack;
    var b := Unpack(p, q, r, 'A');
    UnpackBits(p, q, r, 'A');
    Letters(p, q, r, 'A');
    ThreeBytes(b[0], b[1], b[2]);
    assert b == [b[0], b[1], b[2]] && b[..2] == [b[0], b[1]];
    BitsLength(b[0] as nat, 8);
    BitsLength(b[1] as nat, 8);
    BitsLength(Sextet(p), 6);
    BitsLength(Sextet(q), 6);
    BitsLength(Sextet(r), 6);
    PrefixOfBoth(ByteBits([b[0], b[1]]), Bits(b[2] as nat, 8), TextBits([p, q, r]), Bits(Sextet('A'), 6));
  }

  lemma ShortUnpack2(p: char, q: char)
    requires InAlphabet(p) && InAlphabet(q) && InAlphabet('A')
    ensures AllInAlphabet([p, q]) && ByteBits(Unpack(p, q, 'A', 'A')[..1]) <= TextBits([p, q])
  {
    hide Bits, Sextet, InAlphabet, AllInAlphabet, TextBits, ByteBits, Unpack;
    var b := Unpack(p, q, 'A', 'A');
    UnpackBits(p, q, 'A', 'A');
    Letters(p, q, 'A', 'A');
    ThreeBytes(b[0], b[1], b[2]);
    assert b == [b[0], b[1], b[2]] && b[..1] == [b[0]];
    BitsLength(b[0] as nat, 8);
    BitsLength(Sextet(p), 6);
    BitsLength(Sextet(q), 6);
    var six := Bits(Sextet('A'), 6);
    assert TextBits([p, q, 'A', 'A']) == TextBits([p, q]) + (six + six);
    assert ByteBits(b) == ByteBits([b[0]]) + (Bits(b[1] as nat, 8) + Bits(b[2] as nat, 8));
    PrefixOfBoth(ByteBits([b[0]]), Bits(b[1] as nat, 8) + Bits(b[2] as nat, 8), TextBits([p, q]), six + six);
  }

  lemma PrefixOfBoth(a: seq<nat>, a': seq<nat>, b: seq<nat>, b': seq<nat>)
    requires a + a' == b + b' && |a| <= |b|
    ensures a <= b
  {
    assert (a + a')[..|a|] == a && (b + b')[..|a|] == b[..|a|];
  }

  lemma UnpackedSextets(v: nat, w: nat, x: nat, y: nat)
    requires v < 64 && w < 64 && x < 64 && y < 64
    ensures var a, b, c := v * 4 + w / 16, w % 16 * 16 + x / 4, x % 4 * 64 + y;
            a / 4 == v && a % 4 * 16 + b / 16 == w && b % 16 * 4 + c / 64 == x && c % 64 == y
  {
  }

  /** Decoding reads the same bits: all whole bytes of them. */
  lemma {:induction false} DecodeReadsTheBits(t: string)
    requires AllInAlphabet(t) && |t| % 4 != 1
    ensures ByteBits(DecodeGroups(t)) <= TextBits(t) && |DecodeGroups(t)| == |t| * 6 / 8
  {
    hide TextBits, ByteBits, Unpack, InAlphabet;
    NoBits();
    FirstLetter();
    if |t| >= 4 {
      var group := [t[0], t[1], t[2], t[3]];
      DecodeReadsTheBits(t[4..]);
      UnpackBits(t[0], t[1], t[2], t[3]);
      TextBitsAppend(group, t[4..]);
      ByteBitsAppend(Unpack(t[0], t[1], t[2], t[3]), DecodeGroups(t[4..]));
      assert t == group + t[4..];
    } else if |t| == 3 {
      ShortUnpackBits(t[0], t[1], t[2]);
      assert t == [t[0], t[1], t[2]];
    } else if |t| == 2 {
      ShortUnpackBits(t[0], t[1], t[1]);
      assert t == [t[0], t[1]];
    }
  }

  lemma {:induction false} BitsLength(v: nat, n: nat)
    ensures |Bits(v, n)| == n
  {
    if n > 0 { BitsLength(v / 2, n - 1); }
  }

  /** Line breaks are passed over wherever they stand. */
  lemma {:induction false} BreaksAreSkipped(s: string, t: string)
    ensures Decode(s + "\n" + t) == Decode(s + t) && Decode(s + "\r" + t) == Decode(s + t)
  {
    WithoutBreaksAppend(s, "\n" + t);
    WithoutBreaksAppend(s, "\r" + t);
    WithoutBreaksAppend(s, t);
    assert s + "\n" + t == s + ("\n" + t) && s + "\r" + t == s + ("\r" + t);
    assert ("\n" + t)[1..] == t && ("\r" + t)[1..] == t;
  }

  lemma WithoutFirst(s: string, rest: string)
    requires s != "" && s == [s[0]] + rest
    ensures WithoutBreaks(s) ==
            (if s[0] == '\n' || s[0] == '\r' then "" else [s[0]]) + WithoutBreaks(rest)
  {
    assert s[1..] == rest;
  }

  lemma {:induction false} WithoutBreaksAppend(s: string, t: string)
    ensures WithoutBreaks(s + t) == WithoutBreaks(s) + WithoutBreaks(t)
  {
    if s == "" {
      assert s + t == t;
    } else {
      WithoutBreaksAppend(s[1..], t);
      WithoutFirst(s, s[1..]);
      WithoutFirst(s + t, s[1..] + t);
      hide WithoutBreaks;
    }
  }

  /** Besides breaks only the alphabet is accepted, in any number but one more than a
      multiple of four; and then the bits are those of the text. */
  lemma DecodeAccepts(s: string)
    requires forall i :: 0 <= i < |s| ==> s[i] != '\n' && s[i] != '\r'
    ensures Decode(s).Some? <==> (forall i :: 0 <= i < |s| ==> s[i] in ALPHABET) && |s| % 4 != 1
    ensures Decode(s).Some? ==> AllInAlphabet(s) && ByteBits(Decode(s).value) <= TextBits(s) &&
                                |Decode(s).value| == |s| * 6 / 8
  {
    NoBreaks(s);
    InAlphabetIsMember(s);
    if AllInAlphabet(s) && |s| % 4 != 1 { DecodeReadsTheBits(s); }
  }

  lemma {:induction false} NoBreaks(s: string)
    requires forall i :: 0 <= i < |s| ==> s[i] != '\n' && s[i] != '\r'
    ensures WithoutBreaks(s) == s
  {
    if s != "" { NoBreaks(s[1..]); }
  }

  lemma InAlphabetIsMember(s: string)
    ensures AllInAlphabet(s) <==> forall i :: 0 <= i < |s| ==> s[i] in ALPHABET
  {
    forall c: char ensures InAlphabet(c) <==> c in ALPHABET { AlphabetIsURLSafe(0, c); }
  }
}
