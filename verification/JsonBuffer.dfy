/** The growable output buffer of the schema exporter, under a hard size limit, and JSON string escaping. */
module JsonBuffers {
  import opened Options
  import opened Bytes

  const MAX_JSON_BYTES: nat := 64 * 1024 * 1024 - 1

  /** C strings hold no NUL. */
  type CString = s: seq<byte> | 0 !in s witness []

  // ---------------------------------------------------------- specification

  /** What a buffer stands for: its content, and whether it has failed. */
  datatype Output = Output(content: seq<byte>, failed: bool)

  /** Failure is sticky and freezes the content. */
  function Push(o: Output, piece: seq<byte>): Output {
    if o.failed then o
    else if |o.content| + |piece| > MAX_JSON_BYTES then o.(failed := true)
    else Output(o.content + piece, false)
  }

  function PushAll(o: Output, pieces: seq<seq<byte>>): Output
    decreases |pieces|
  {
    if pieces == [] then o else PushAll(Push(o, pieces[0]), pieces[1..])
  }

  function Concat(pieces: seq<seq<byte>>): seq<byte> {
    if pieces == [] then [] else pieces[0] + Concat(pieces[1..])
  }

  /** A series of writes succeeds exactly when everything fits; then the content is the concatenation, and
      otherwise a prefix of it within the limit. */
  lemma {:induction false} PushAllIsConcat(o: Output, pieces: seq<seq<byte>>)
    requires |o.content| <= MAX_JSON_BYTES
    ensures var r := PushAll(o, pieces);
            && (r.failed <==> o.failed || |o.content| + |Concat(pieces)| > 67_108_863)
            && (!r.failed ==> r.content == o.content + Concat(pieces))
            && o.content <= r.content <= o.content + Concat(pieces) && |r.content| <= 67_108_863
    decreases |pieces|
  {
    if pieces != [] {
      var first, rest := pieces[0], Concat(pieces[1..]);
      PushAllIsConcat(Push(o, first), pieces[1..]);
      assert o.content + (first + rest) == o.content + first + rest;
      if Push(o, first).failed {
        FrozenOnceFailed(Push(o, first), pieces[1..]);
      }
    }
  }

  lemma {:induction false} FrozenOnceFailed(o: Output, pieces: seq<seq<byte>>)
    requires o.failed
    ensures PushAll(o, pieces) == o
    decreases |pieces|
  {
    if pieces != [] {
      FrozenOnceFailed(o, pieces[1..]);
    }
  }

  lemma {:induction false} PushAllAppend(o: Output, a: seq<seq<byte>>, piece: seq<byte>)
    ensures PushAll(o, a + [piece]) == Push(PushAll(o, a), piece)
    decreases |a|
  {
    if a == [] {
      assert (a + [piece])[1..] == [];
    } else {
      assert (a + [piece])[1..] == a[1..] + [piece];
      PushAllAppend(Push(o, a[0]), a[1..], piece);
    }
  }

  // --------------------------------------------------------------- escaping

  function HexDigit(n: nat): byte
    requires n < 16
  {
    if n < 10 then 48 + n else 87 + n
  }

  /** The escape of one octet: short forms, `\u00xx` for other control characters, itself otherwise. */
  function Escape(b: byte): seq<byte> {
    if b == 0x22 then [0x5c, 0x22]
    else if b == 0x5c then [0x5c, 0x5c]
    else if b == 0x08 then [0x5c, 0x62]
    else if b == 0x0c then [0x5c, 0x66]
    else if b == 0x0a then [0x5c, 0x6e]
    else if b == 0x0d then [0x5c, 0x72]
    else if b == 0x09 then [0x5c, 0x74]
    else if b < 0x20 then [0x5c, 0x75, 48, 48, HexDigit(b / 16), HexDigit(b % 16)]
    else [b]
  }

  function Escapes(value: seq<byte>): seq<seq<byte>> {
    seq(|value|, i requires 0 <= i < |value| => Escape(value[i]))
  }

  const QUOTE: seq<byte> := [0x22]
  const NULL_TEXT: seq<byte> := [0x6e, 0x75, 0x6c, 0x6c]

  /** The writes `json_string` makes, in order. */
  function StringPieces(value: Option<CString>): seq<seq<byte>> {
    if value.None? then [NULL_TEXT] else [QUOTE] + Escapes(value.value) + [QUOTE]
  }

  // ---------------------------------------------------------------- decoder

  datatype Decoded = Malformed | Decoded(value: seq<byte>, rest: seq<byte>)

  function HexValue(b: byte): Option<nat> {
    if 48 <= b <= 57 then Some(b - 48)
    else if 97 <= b <= 102 then Some(b - 87)
    else if 65 <= b <= 70 then Some(b - 55)
    else None
  }

  /** The octet an escape stands for and how many octets it takes after the backslash. Code points above 0x7f,
      which the encoder writes as raw UTF-8, are not decoded from `\u`. */
  function DecodeEscape(s: seq<byte>): Option<(byte, nat)> {
    if s == [] then None
    else if s[0] == 0x22 || s[0] == 0x5c || s[0] == 0x2f then Some((s[0], 1))
    else if s[0] == 0x62 then Some((0x08, 1))
    else if s[0] == 0x66 then Some((0x0c, 1))
    else if s[0] == 0x6e then Some((0x0a, 1))
    else if s[0] == 0x72 then Some((0x0d, 1))
    else if s[0] == 0x74 then Some((0x09, 1))
    else if s[0] == 0x75 && |s| >= 5 then
      var (a, b, c, d) := (HexValue(s[1]), HexValue(s[2]), HexValue(s[3]), HexValue(s[4]));
      if a == Some(0) && b == Some(0) && c.Some? && c.value < 8 && d.Some? then Some((c.value * 16 + d.value, 5))
      else None
    else None
  }

  /** Characters up to the closing quote, as in section 7 of RFC 8259. */
  function DecodeBody(s: seq<byte>): (r: Decoded)
    ensures r.Decoded? ==> |r.rest| < |s|
    decreases |s|
  {
    if s == [] then Malformed
    else if s[0] == 0x22 then Decoded([], s[1..])
    else if s[0] == 0x5c then
      var e := DecodeEscape(s[1..]);
      if e.None? || e.value.1 > |s| - 1 then Malformed
      else Prepend(e.value.0, DecodeBody(s[1 + e.value.1..]))
    else if s[0] < 0x20 then Malformed
    else Prepend(s[0], DecodeBody(s[1..]))
  }

  function Prepend(b: byte, d: Decoded): Decoded {
    if d.Malformed? then d else Decoded([b] + d.value, d.rest)
  }

  function DecodeString(s: seq<byte>): Decoded {
    if s == [] || s[0] != 0x22 then Malformed else DecodeBody(s[1..])
  }

  lemma HexRoundTrip(n: nat)
    requires n < 16
    ensures HexValue(HexDigit(n)) == Some(n)
  {
  }

  lemma DecodeOne(b: byte, rest: seq<byte>)
    requires b != 0
    ensures DecodeBody(Escape(b) + rest) == Prepend(b, DecodeBody(rest))
  {
    var s := Escape(b) + rest;
    if |Escape(b)| == 2 {
      assert s[1..] == [s[1]] + rest && s[2..] == rest;
    } else if |Escape(b)| == 6 {
      HexRoundTrip(b / 16);
      HexRoundTrip(b % 16);
      assert s[1..] == [0x75, 48, 48, HexDigit(b / 16), HexDigit(b % 16)] + rest && s[6..] == rest;
      assert DecodeEscape(s[1..]) == Some((b, 5));
    } else {
      assert s[1..] == rest;
    }
  }

  lemma {:induction false} DecodeEscapes(value: CString, rest: seq<byte>)
    ensures DecodeBody(Concat(Escapes(value)) + QUOTE + rest) == Decoded(value, rest)
  {
    if value == [] {
      assert Concat(Escapes(value)) + QUOTE + rest == QUOTE + rest;
      assert (QUOTE + rest)[1..] == rest;
    } else {
      var tail := value[1..];
      assert value[0] in value;
      calc {
        DecodeBody(Concat(Escapes(value)) + QUOTE + rest);
        { EscapesCons(value, rest); }
        DecodeBody(Escape(value[0]) + (Concat(Escapes(tail)) + QUOTE + rest));
        { DecodeOne(value[0], Concat(Escapes(tail)) + QUOTE + rest); }
        Prepend(value[0], DecodeBody(Concat(Escapes(tail)) + QUOTE + rest));
        { DecodeEscapes(tail, rest); }
        Decoded([value[0]] + tail, rest);
      }
    }
  }

  lemma EscapesCons(value: CString, rest: seq<byte>)
    requires value != []
    ensures Concat(Escapes(value)) + QUOTE + rest
            == Escape(value[0]) + (Concat(Escapes(value[1..])) + QUOTE + rest)
  {
    assert Escapes(value)[1..] == Escapes(value[1..]);
  }

  lemma {:induction false} ConcatAppend(a: seq<seq<byte>>, b: seq<seq<byte>>)
    ensures Concat(a + b) == Concat(a) + Concat(b)
  {
    if a == [] {
      assert a + b == b;
    } else {
      assert (a + b)[1..] == a[1..] + b;
      ConcatAppend(a[1..], b);
    }
  }

  /** Whatever follows, a decoder recovers every C string from its JSON form and stops at the closing quote. */
  lemma StringRoundTrip(value: CString, rest: seq<byte>)
    ensures DecodeString(Concat(StringPieces(Some(value))) + rest) == Decoded(value, rest)
  {
    var body := Concat(Escapes(value));
    ConcatAppend([QUOTE] + Escapes(value), [QUOTE]);
    ConcatAppend([QUOTE], Escapes(value));
    assert Concat([QUOTE]) == QUOTE;
    var s := Concat(StringPieces(Some(value))) + rest;
    assert s == QUOTE + (body + QUOTE + rest);
    assert s[1..] == body + QUOTE + rest;
    DecodeEscapes(value, rest);
  }

  /** A string, or the literal `null` for none. */
  datatype DecodedValue = NoValue | DecodedValue(value: Option<seq<byte>>, rest: seq<byte>)

  function DecodeValue(s: seq<byte>): DecodedValue {
    if |s| >= 4 && s[0] == 'n' as int && s[1] == 'u' as int && s[2] == 'l' as int && s[3] == 'l' as int
    then DecodedValue(None, s[4..])
    else
      match DecodeString(s)
      case Malformed => NoValue
      case Decoded(value, rest) => DecodedValue(Some(value), rest)
  }

  /** A missing string is told apart from every string there is. */
  lemma ValueRoundTrip(value: Option<CString>, rest: seq<byte>)
    ensures DecodeValue(Concat(StringPieces(value)) + rest) == DecodedValue(value, rest)
  {
    if value.Some? {
      StringRoundTrip(value.value, rest);
    } else {
      assert Concat([NULL_TEXT]) == NULL_TEXT + Concat([]);
      assert (NULL_TEXT + rest)[4..] == rest;
    }
  }

  // ------------------------------------------------------------------ source

  class JsonBuffer {
    var data: array<byte>
    var length: nat
    var failed: bool

    /** The capacity stays within one octet above the limit and, once anything was reserved, above the length. */
    ghost predicate Valid()
      reads this
    {
      && length <= MAX_JSON_BYTES && data.Length <= MAX_JSON_BYTES + 1
      && (data.Length == 0 ==> length == 0) && (data.Length > 0 ==> length < data.Length)
    }

    ghost function View(): Output
      requires Valid()
      reads this, data
    {
      Output(data[..length], failed)
    }

    constructor ()
      ensures Valid() && fresh(data) && View() == Output([], false)
    {
      data, length, failed := new byte[0], 0, false;
    }

    /** Doubles the capacity, or jumps to the largest one, until `required` octets fit. */
    method NextCapacity(required: nat) returns (next: nat)
      requires required <= MAX_JSON_BYTES + 1 && data.Length < required
      requires data.Length <= MAX_JSON_BYTES + 1
      ensures required <= next <= MAX_JSON_BYTES + 1
    {
      next := if data.Length > 0 then data.Length else 4096;
      while next < required
        invariant 0 < next <= MAX_JSON_BYTES + 1
        decreases MAX_JSON_BYTES + 1 - next
      {
        if next > MAX_JSON_BYTES / 2 {
          next := MAX_JSON_BYTES + 1;
          break;
        }
        next := next * 2;
      }
    }

    method Reserve(additional: nat) returns (ok: bool)
      requires Valid()
      modifies this
      ensures Valid() && length == old(length) && data[..length] == old(data[..length])
      ensures data == old(data) || fresh(data)
      ensures ok == !failed && failed == (old(failed) || old(length) + additional > MAX_JSON_BYTES)
      ensures ok ==> length + additional < data.Length
    {
      if failed {
        return false;
      }
      if length > MAX_JSON_BYTES || additional > MAX_JSON_BYTES - length {
        failed := true;
        return false;
      }
      var required := length + additional + 1;
      if data.Length >= required {
        return true;
      }
      var next := NextCapacity(required);
      var resized := new byte[next];
      var i := 0;
      while i < length
        invariant 0 <= i <= length && resized[..i] == data[..i]
        modifies resized
      {
        resized[i] := data[i];
        i := i + 1;
      }
      data := resized;
      return true;
    }

    /** Copies `value` behind the content. */
    method CopyIn(value: seq<byte>)
      requires length + |value| < data.Length
      modifies data
      ensures data[..length + |value|] == old(data[..length]) + value
    {
      var i := 0;
      while i < |value|
        invariant 0 <= i <= |value|
        invariant data[..length + i] == old(data[..length]) + value[..i]
      {
        data[length + i] := value[i];
        assert data[..length + i + 1] == data[..length + i] + [value[i]];
        i := i + 1;
      }
    }

    method RawN(value: seq<byte>)
      requires Valid()
      modifies this, data
      ensures Valid() && (data == old(data) || fresh(data))
      ensures View() == Push(old(View()), value)
      ensures !failed ==> length < data.Length && data[length] == 0
    {
      var ok := Reserve(|value|);
      if !ok {
        return;
      }
      CopyIn(value);
      length := length + |value|;
      data[length] := 0;
    }

    /** Writes a JSON string piece by piece; `None` is a null pointer. */
    method JsonString(value: Option<CString>)
      requires Valid()
      modifies this, data
      ensures Valid() && (data == old(data) || fresh(data))
      ensures View() == PushAll(old(View()), StringPieces(value))
    {
      ghost var before := View();
      if value.None? {
        RawN(NULL_TEXT);
        assert PushAll(before, [NULL_TEXT]) == Push(before, NULL_TEXT);
        return;
      }
      var text := value.value;
      RawN(QUOTE);
      ghost var pieces := [QUOTE];
      assert PushAll(before, pieces) == Push(before, QUOTE);
      var i := 0;
      while i < |text|
        invariant 0 <= i <= |text| && Valid() && (data == old(data) || fresh(data))
        invariant pieces == [QUOTE] + Escapes(text[..i])
        invariant View() == PushAll(before, pieces)
      {
        RawN(Escape(text[i]));
        PushAllAppend(before, pieces, Escape(text[i]));
        assert Escapes(text[..i + 1]) == Escapes(text[..i]) + [Escape(text[i])];
        pieces := pieces + [Escape(text[i])];
        i := i + 1;
      }
      assert text[..|text|] == text;
      RawN(QUOTE);
      PushAllAppend(before, pieces, QUOTE);
    }
  }
}
