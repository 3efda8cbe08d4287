/** `b64_audio_pcm16`: the standard base64 alphabet and padding of section 4
    of RFC 4648, with a strict decoder that inverts it. */
module Base64 {
  import opened Wrappers

  newtype byte = x: int | 0 <= x < 256

  /** The character for a 6-bit value: A-Z, a-z, 0-9, '+', '/'. */
  function SextetChar(i: int): (c: char)
    requires 0 <= i < 64
  {
    if i < 26 then ('A' as int + i) as char
    else if i < 52 then ('a' as int + (i - 26)) as char
    else if i < 62 then ('0' as int + (i - 52)) as char
    else if i == 62 then '+'
    else '/'
  }

  /** The 6-bit value of an alphabet character; `None` for any other character,
      the padding character '=' included. */
  function SextetValue(c: char): (r: Option<int>)
    ensures r.Some? ==> 0 <= r.value < 64 && SextetChar(r.value) == c
  {
    if 'A' <= c <= 'Z' then Some(c as int - 'A' as int)
    else if 'a' <= c <= 'z' then Some(c as int - 'a' as int + 26)
    else if '0' <= c <= '9' then Some(c as int - '0' as int + 52)
    else if c == '+' then Some(62)
    else if c == '/' then Some(63)
    else None
  }

  lemma {:induction false} SextetRoundTrip(i: int)
    requires 0 <= i < 64
    ensures SextetValue(SextetChar(i)) == Some(i)
  {
  }

  /** Four characters for a group of three bytes (24 bits, high bits first). */
  function EncodeGroup(b0: byte, b1: byte, b2: byte): string
  {
    [SextetChar(b0 as int / 4), SextetChar((b0 as int % 4) * 16 + b1 as int / 16),
     SextetChar((b1 as int % 16) * 4 + b2 as int / 64), SextetChar(b2 as int % 64)]
  }

  /** `base64.b64encode(raw).decode("ascii")`: every full group of three bytes
      becomes four characters; one or two trailing bytes become four
      characters ending in "==" or "=". */
  function Encode(raw: seq<byte>): (r: string)
    ensures |r| == 4 * ((|raw| + 2) / 3)
    decreases |raw|
  {
    if |raw| == 0 then ""
    else if |raw| == 1 then
      [SextetChar(raw[0] as int / 4), SextetChar((raw[0] as int % 4) * 16), '=', '=']
    else if |raw| == 2 then
      [SextetChar(raw[0] as int / 4), SextetChar((raw[0] as int % 4) * 16 + raw[1] as int / 16),
       SextetChar((raw[1] as int % 16) * 4), '=']
    else EncodeGroup(raw[0], raw[1], raw[2]) + Encode(raw[3..])
  }

  /** Decodes one four-character group that ends the input, padding allowed.
      Non-zero bits hidden by padding are rejected, so only canonical text
      decodes. */
  function DecodeLast(q: string): (r: Option<seq<byte>>)
    requires |q| == 4
  {
    var v0, v1 := SextetValue(q[0]), SextetValue(q[1]);
    if v0.None? || v1.None? then None
    else if q[2] == '=' && q[3] == '=' then
      if v1.value % 16 != 0 then None
      else Some([(v0.value * 4 + v1.value / 16) as byte])
    else
      var v2 := SextetValue(q[2]);
      if v2.None? then None
      else if q[3] == '=' then
        if v2.value % 4 != 0 then None
        else Some([(v0.value * 4 + v1.value / 16) as byte,
                   ((v1.value % 16) * 16 + v2.value / 4) as byte])
      else
        var v3 := SextetValue(q[3]);
        if v3.None? then None
        else Some(DecodeFull(v0.value, v1.value, v2.value, v3.value))
  }

  function DecodeFull(v0: int, v1: int, v2: int, v3: int): seq<byte>
    requires 0 <= v0 < 64 && 0 <= v1 < 64 && 0 <= v2 < 64 && 0 <= v3 < 64
  {
    [(v0 * 4 + v1 / 16) as byte, ((v1 % 16) * 16 + v2 / 4) as byte, ((v2 % 4) * 64 + v3) as byte]
  }

  /** Strict decoder: the length is a multiple of four, only the last group may
      carry padding, and every other character is in the alphabet. */
  function Decode(s: string): (r: Option<seq<byte>>)
    decreases |s|
  {
    if s == [] then Some([])
    else if |s| < 4 then None
    else if |s| == 4 then DecodeLast(s)
    else
      var v0, v1, v2, v3 := SextetValue(s[0]), SextetValue(s[1]), SextetValue(s[2]), SextetValue(s[3]);
      if v0.None? || v1.None? || v2.None? || v3.None? then None
      else
        match Decode(s[4..])
        case None => None
        case Some(rest) => Some(DecodeFull(v0.value, v1.value, v2.value, v3.value) + rest)
  }

  lemma GroupRoundTrip(b0: byte, b1: byte, b2: byte)
    ensures var q := EncodeGroup(b0, b1, b2);
            && SextetValue(q[0]) == Some(b0 as int / 4)
            && SextetValue(q[1]) == Some((b0 as int % 4) * 16 + b1 as int / 16)
            && SextetValue(q[2]) == Some((b1 as int % 16) * 4 + b2 as int / 64)
            && SextetValue(q[3]) == Some(b2 as int % 64)
            && DecodeFull(b0 as int / 4, (b0 as int % 4) * 16 + b1 as int / 16,
                          (b1 as int % 16) * 4 + b2 as int / 64, b2 as int % 64) == [b0, b1, b2]
  {
    SextetRoundTrip(b0 as int / 4);
    SextetRoundTrip((b0 as int % 4) * 16 + b1 as int / 16);
    SextetRoundTrip((b1 as int % 16) * 4 + b2 as int / 64);
    SextetRoundTrip(b2 as int % 64);
    DecodeFullOfGroup(b0, b1, b2);
  }

  /** The 24 bits of three bytes, cut into four sextets and put back. */
  lemma DecodeFullOfGroup(b0: byte, b1: byte, b2: byte)
    ensures DecodeFull(b0 as int / 4, (b0 as int % 4) * 16 + b1 as int / 16,
                       (b1 as int % 16) * 4 + b2 as int / 64, b2 as int % 64) == [b0, b1, b2]
  {
    var x, y, z := b0 as int, b1 as int, b2 as int;
    var v1, v2 := (x % 4) * 16 + y / 16, (y % 16) * 4 + z / 64;
    assert v1 / 16 == x % 4 && v1 % 16 == y / 16;
    assert v2 / 4 == y % 16 && v2 % 4 == z / 64;
    assert (x / 4) * 4 + v1 / 16 == x;
    assert (v1 % 16) * 16 + v2 / 4 == y;
    assert (v2 % 4) * 64 + z % 64 == z;
  }

  lemma DecodeEncodeOne(b0: byte)
    ensures Decode(Encode([b0])) == Some([b0])
  {
    SextetRoundTrip(b0 as int / 4);
    SextetRoundTrip((b0 as int % 4) * 16);
  }

  lemma DecodeEncodeTwo(b0: byte, b1: byte)
    ensures Decode(Encode([b0, b1])) == Some([b0, b1])
  {
    var x, y := b0 as int, b1 as int;
    var v0, v1, v2 := x / 4, (x % 4) * 16 + y / 16, (y % 16) * 4;
    SextetRoundTrip(v0);
    SextetRoundTrip(v1);
    SextetRoundTrip(v2);
    var q := Encode([b0, b1]);
    assert q == [SextetChar(v0), SextetChar(v1), SextetChar(v2), '='];
    assert v1 % 16 == y / 16 && v1 / 16 == x % 4;
    assert v2 % 4 == 0 && v2 / 4 == y % 16;
    assert DecodeLast(q) == Some([b0, b1]);
  }

  lemma {:induction false} DecodeGroupThen(b0: byte, b1: byte, b2: byte, t: string, rest: seq<byte>)
    requires t == [] ==> rest == []
    requires t != [] ==> Decode(t) == Some(rest)
    ensures Decode(EncodeGroup(b0, b1, b2) + t) == Some([b0, b1, b2] + rest)
  {
    GroupRoundTrip(b0, b1, b2);
    var q := EncodeGroup(b0, b1, b2);
    var s := q + t;
    assert s[..4] == q && s[4..] == t;
    if t == [] {
      assert s == q;
      assert q[2] != '=' && q[3] != '=';
      assert [b0, b1, b2] + rest == [b0, b1, b2];
    }
  }

  lemma {:induction false} DecodeEncodeStep(raw: seq<byte>)
    requires |raw| >= 3
    requires Decode(Encode(raw[3..])) == Some(raw[3..])
    ensures Decode(Encode(raw)) == Some(raw)
  {
    assert raw == [raw[0], raw[1], raw[2]] + raw[3..];
    var rest := raw[3..];
    var q, t := EncodeGroup(raw[0], raw[1], raw[2]), Encode(rest);
    assert Encode(raw) == q + t;
    assert t == [] ==> rest == [] by {
      assert |t| == 4 * ((|rest| + 2) / 3);
    }
    DecodeGroupThen(raw[0], raw[1], raw[2], t, rest);
  }

  /** Decoding the encoding gives back exactly the bytes: the text sent
      upstream determines the audio chunk. */
  lemma {:induction false} DecodeEncode(raw: seq<byte>)
    ensures Decode(Encode(raw)) == Some(raw)
    decreases |raw|
  {
    if |raw| == 0 {
    } else if |raw| == 1 {
      DecodeEncodeOne(raw[0]);
      assert raw == [raw[0]];
    } else if |raw| == 2 {
      DecodeEncodeTwo(raw[0], raw[1]);
      assert raw == [raw[0], raw[1]];
    } else {
      DecodeEncode(raw[3..]);
      DecodeEncodeStep(raw);
    }
  }

  /** Different chunks are never sent as the same text. */
  lemma EncodeInjective(a: seq<byte>, b: seq<byte>)
    requires Encode(a) == Encode(b)
    ensures a == b
  {
    DecodeEncode(a);
    DecodeEncode(b);
  }
}
