/** Opaque page cursors: "time:id" or "utime:id" in unpadded base64url. Strings are
    byte strings. */
module CursorCodec {
  import opened Basics
  import opened Decimal
  import opened Base64URL

  datatype Cursor = Cursor(at: int, id: string)

  const INT64_LIMIT := 0x8000_0000_0000_0000

  /* ---------- Numbers ---------- */

  function FormatInt(v: int): string { if v < 0 then "-" + IntString(-v) else IntString(v) }

  /** Base-10 parse into 64 bits: an optional sign, then at least one digit. */
  function ParseInt(s: string): Option<int>
  {
    var negative := s != "" && s[0] == '-';
    var digits := if s != "" && (s[0] == '-' || s[0] == '+') then s[1..] else s;
    if digits == "" || !AllDigits(digits) then None
    else
      var n: int := NumeralValue(digits);
      if negative then (if n > INT64_LIMIT then None else Some(-n))
      else if n >= INT64_LIMIT then None else Some(n)
  }

  lemma ParseOfFormat(v: int)
    requires -INT64_LIMIT <= v < INT64_LIMIT
    ensures ParseInt(FormatInt(v)) == Some(v)
  {
    NumeralReads(if v < 0 then -v else v);
  }

  /** Digits with or without one sign, within 64 bits, and nothing else. */
  lemma ParseIntAccepts(digits: string)
    requires digits != "" && AllDigits(digits)
    ensures ParseInt(digits) ==
            if NumeralValue(digits) < 0x8000_0000_0000_0000 then Some(NumeralValue(digits) as int) else None
    ensures ParseInt("+" + digits) == ParseInt(digits)
    ensures ParseInt("-" + digits) ==
            if NumeralValue(digits) <= 0x8000_0000_0000_0000 then Some(-(NumeralValue(digits) as int)) else None
  {
    assert ("+" + digits)[1..] == digits && ("-" + digits)[1..] == digits;
  }

  lemma ParseIntRefuses(s: string)
    requires ParseInt(s).Some?
    ensures exists digits ::
              digits != "" && AllDigits(digits) && (s == digits || s == "+" + digits || s == "-" + digits)
  {
    var digits := if s[0] == '-' || s[0] == '+' then s[1..] else s;
    assert s == digits || s == "+" + digits || s == "-" + digits;
  }

  /* ---------- Cursors ---------- */

  /** Position of the first colon, or the length. */
  function Colon(s: string): (k: nat)
    ensures k <= |s| && (k < |s| ==> s[k] == ':')
    ensures forall i :: 0 <= i < k ==> s[i] != ':'
  {
    if s == "" || s[0] == ':' then 0 else 1 + Colon(s[1..])
  }

  /** The text of a cursor: a positive time, the first colon, an id of 1 to 100 bytes. */
  function ParseCursor(text: string): Option<Cursor>
  {
    var k := Colon(text);
    if k == |text| then None
    else
      var id := text[k + 1..];
      if id == "" || |id| > 100 then None
      else match ParseInt(text[..k])
        case None => None
        case Some(at) => if at > 0 then Some(Cursor(at, id)) else None
  }

  function CursorText(c: Cursor): string { FormatInt(c.at) + ":" + c.id }

  function EncodeNotificationCursor(c: Cursor): string
    requires Bytes(c.id)
  {
    TextIsBytes(c);
    Encode(CursorText(c))
  }

  function EncodeUpdatedNotificationCursor(c: Cursor): string
    requires Bytes(c.id)
  {
    TextIsBytes(c);
    Encode("u" + CursorText(c))
  }

  function DecodeNotificationCursor(value: string): Option<Cursor>
  {
    match Decode(value)
    case None => None
    case Some(text) => ParseCursor(text)
  }

  function DecodeUpdatedNotificationCursor(value: string): Option<Cursor>
  {
    match Decode(value)
    case None => None
    case Some(text) => if |text| == 0 || text[0] != 'u' then None else DecodeNotificationCursor(Encode(text[1..]))
  }

  lemma FormatIsNumeral(v: int)
    ensures FormatInt(v) != "" && forall i :: 0 <= i < |FormatInt(v)| ==>
            IsDigit(FormatInt(v)[i]) || FormatInt(v)[i] == '-'
  {
    NumeralReads(if v < 0 then -v else v);
  }

  lemma TextIsBytes(c: Cursor)
    requires Bytes(c.id)
    ensures Bytes(CursorText(c)) && Bytes("u" + CursorText(c))
  {
    FormatIsNumeral(c.at);
  }

  /** What cursors the server hands out and takes back. */
  predicate Valid(c: Cursor) { 0 < c.at < INT64_LIMIT && 1 <= |c.id| <= 100 && Bytes(c.id) }

  lemma ParseOfText(c: Cursor)
    requires Valid(c)
    ensures ParseCursor(CursorText(c)) == Some(c)
  {
    var digits, text := FormatInt(c.at), CursorText(c);
    FormatIsNumeral(c.at);
    ParseOfFormat(c.at);
    var k := Colon(text);
    assert text[|digits|] == ':';
    assert forall i :: 0 <= i < |digits| ==> text[i] == digits[i];
    assert k == |digits|;
    assert text[..k] == digits && text[k + 1..] == c.id;
  }

  /** A text is a cursor exactly if a positive number stands before its first colon and 1 to
      100 bytes after it. */
  lemma ParseCursorAccepts(number: string, id: string)
    requires ':' !in number
    ensures ParseCursor(number + ":" + id) ==
            if ParseInt(number).Some? && ParseInt(number).value > 0 && 1 <= |id| <= 100
            then Some(Cursor(ParseInt(number).value, id)) else None
    ensures ParseCursor(number).None?
  {
    var text := number + ":" + id;
    assert text[|number|] == ':';
    assert forall i :: 0 <= i < |number| ==> text[i] == number[i];
    assert Colon(text) == |number|;
    assert text[..|number|] == number && text[|number| + 1..] == id;
  }

  /** What the server hands out: the printed time, a colon and the id, after "u" for
      update times, in base64url. */
  lemma CursorsAreEncodedText(c: Cursor)
    requires Valid(c)
    ensures Decode(EncodeNotificationCursor(c)) == Some(IntString(c.at) + ":" + c.id)
    ensures Decode(EncodeUpdatedNotificationCursor(c)) == Some("u" + (IntString(c.at) + ":" + c.id))
  {
    TextIsBytes(c);
    DecodeOfEncode(CursorText(c));
    DecodeOfEncode("u" + CursorText(c));
  }

  /** An update cursor is "u" and then the text of a cursor. */
  lemma UpdatedDecoderAccepts(value: string)
    ensures DecodeUpdatedNotificationCursor(value).Some? <==>
              Decode(value).Some? && |Decode(value).value| > 0 && Decode(value).value[0] == 'u' &&
              ParseCursor(Decode(value).value[1..]).Some?
    ensures DecodeUpdatedNotificationCursor(value).Some? ==>
              DecodeUpdatedNotificationCursor(value) == ParseCursor(Decode(value).value[1..])
  {
    if Decode(value).Some? && |Decode(value).value| > 0 {
      DecodeOfEncode(Decode(value).value[1..]);
    }
  }

  /** Round trip, whatever colons the id contains. */
  lemma CursorRoundTrip(c: Cursor)
    requires Valid(c)
    ensures DecodeNotificationCursor(EncodeNotificationCursor(c)) == Some(c)
  {
    TextIsBytes(c);
    DecodeOfEncode(CursorText(c));
    ParseOfText(c);
  }

  lemma UpdatedCursorRoundTrip(c: Cursor)
    requires Valid(c)
    ensures DecodeUpdatedNotificationCursor(EncodeUpdatedNotificationCursor(c)) == Some(c)
  {
    TextIsBytes(c);
    var text := "u" + CursorText(c);
    DecodeOfEncode(text);
    assert text[1..] == CursorText(c);
    CursorRoundTrip(c);
  }

  /** No text is a cursor of both kinds. */
  lemma KindsExcludeEachOther(value: string)
    ensures !(DecodeNotificationCursor(value).Some? && DecodeUpdatedNotificationCursor(value).Some?)
  {
    if DecodeUpdatedNotificationCursor(value).Some? {
      var text := Decode(value).value;
      var k := Colon(text);
      if k > 0 {
        assert text[..k][0] == 'u';
        assert ParseInt(text[..k]).None?;
      }
    }
  }

  /** A decoder rejects every cursor the other encoder makes, valid or not. */
  lemma OtherKindIsRejected(c: Cursor)
    requires Bytes(c.id)
    ensures DecodeNotificationCursor(EncodeUpdatedNotificationCursor(c)).None?
    ensures DecodeUpdatedNotificationCursor(EncodeNotificationCursor(c)).None?
  {
    TextIsBytes(c);
    DecodeOfEncode("u" + CursorText(c));
    DecodeOfEncode(CursorText(c));
    FormatIsNumeral(c.at);
    var text := "u" + CursorText(c);
    assert text[0] == 'u';
    var k := Colon(text);
    if k > 0 {
      assert text[..k][0] == 'u';
      assert ParseInt(text[..k]).None?;
    }
  }

  /** Whatever is accepted is a valid cursor, and its own encoding means the same. */
  lemma AcceptedIsValid(value: string)
    ensures DecodeNotificationCursor(value).Some? ==>
              Valid(DecodeNotificationCursor(value).value) &&
              DecodeNotificationCursor(EncodeNotificationCursor(DecodeNotificationCursor(value).value)) ==
                DecodeNotificationCursor(value)
    ensures DecodeUpdatedNotificationCursor(value).Some? ==> Valid(DecodeUpdatedNotificationCursor(value).value)
  {
    if DecodeNotificationCursor(value).Some? {
      AcceptedTextIsValid(Decode(value).value);
      CursorRoundTrip(DecodeNotificationCursor(value).value);
    }
    if DecodeUpdatedNotificationCursor(value).Some? {
      var text := Decode(value).value;
      DecodeOfEncode(text[1..]);
      AcceptedTextIsValid(text[1..]);
    }
  }

  lemma AcceptedTextIsValid(text: string)
    requires Bytes(text) && ParseCursor(text).Some?
    ensures Valid(ParseCursor(text).value)
  {
  }
}
