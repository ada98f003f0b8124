/**
 * Go's `base64.StdEncoding.DecodeString`: the padded standard alphabet of
 * section 4 of RFC 4648, decoded leniently (the unused low bits of the last
 * quantum are not checked) and with carriage returns and line feeds skipped
 * wherever they occur.  `Encode` is the matching encoder, the reference the
 * decoder is proved against.
 */
module Base64 {

  import opened Wrappers

  type Byte = x: int | 0 <= x < 256
  type Sextet = x: int | 0 <= x < 64

  /** The value of one character of the standard alphabet, or None. */
  function SextetOf(c: char): Option<Sextet>
  {
    if 'A' <= c <= 'Z' then Some(c as int - 'A' as int)
    else if 'a' <= c <= 'z' then Some(c as int - 'a' as int + 26)
    else if '0' <= c <= '9' then Some(c as int - '0' as int + 52)
    else if c == '+' then Some(62)
    else if c == '/' then Some(63)
    else None
  }

  function AlphabetChar(v: Sextet): char
  {
    if v < 26 then ('A' as int + v) as char
    else if v < 52 then ('a' as int + v - 26) as char
    else if v < 62 then ('0' as int + v - 52) as char
    else if v == 62 then '+'
    else '/'
  }

  lemma SextetOfAlphabetChar(v: Sextet)
    ensures SextetOf(AlphabetChar(v)) == Some(v)
  {
  }

  predicate IsNewline(c: char)
  {
    c == '\r' || c == '\n'
  }

  /** The input with every carriage return and line feed removed. */
  function StripNewlines(s: string): (r: string)
    ensures |r| <= |s|
    ensures forall i :: 0 <= i < |r| ==> !IsNewline(r[i])
  {
    if |s| == 0 then []
    else (if IsNewline(s[0]) then [] else [s[0]]) + StripNewlines(s[1..])
  }

  /** Three bytes from four sextets (the 24-bit group, most significant first). */
  function Bytes3(a: Sextet, b: Sextet, c: Sextet, d: Sextet): seq<Byte>
  {
    [a * 4 + b / 16, (b % 16) * 16 + c / 4, (c % 4) * 64 + d]
  }

  /** A quantum of four alphabet characters. */
  function DecodeFull(q: string): Option<seq<Byte>>
    requires |q| == 4
  {
    match (SextetOf(q[0]), SextetOf(q[1]), SextetOf(q[2]), SextetOf(q[3]))
    case (Some(a), Some(b), Some(c), Some(d)) => Some(Bytes3(a, b, c, d))
    case _ => None
  }

  /**
   * The final quantum: four alphabet characters, or "xx==" (one byte), or
   * "xxx=" (two bytes).  The low bits that padding discards are ignored.
   */
  function DecodeLast(q: string): Option<seq<Byte>>
    requires |q| == 4
  {
    if q[2] == '=' && q[3] == '=' then
      match (SextetOf(q[0]), SextetOf(q[1]))
      case (Some(a), Some(b)) => Some(Bytes3(a, b, 0, 0)[..1])
      case _ => None
    else if q[3] == '=' then
      match (SextetOf(q[0]), SextetOf(q[1]), SextetOf(q[2]))
      case (Some(a), Some(b), Some(c)) => Some(Bytes3(a, b, c, 0)[..2])
      case _ => None
    else DecodeFull(q)
  }

  /** Whole quanta of a newline-free input; only the last may carry padding. */
  function DecodeQuanta(s: string): Option<seq<Byte>>
    decreases |s|
  {
    if |s| == 0 then Some([])
    else if |s| < 4 then None
    else if |s| == 4 then DecodeLast(s)
    else match DecodeFull(s[..4])
      case None => None
      case Some(head) =>
        match DecodeQuanta(s[4..])
        case None => None
        case Some(tail) => Some(head + tail)
  }

  /** Go's byte string as a sequence of characters, one per byte. */
  function BytesToString(bs: seq<Byte>): (s: string)
    ensures |s| == |bs|
    ensures forall i :: 0 <= i < |bs| ==> s[i] as int == bs[i]
  {
    seq(|bs|, i requires 0 <= i < |bs| => bs[i] as char)
  }

  predicate IsByteString(s: string)
  {
    forall i :: 0 <= i < |s| ==> s[i] as int < 256
  }

  function StringToBytes(s: string): (bs: seq<Byte>)
    requires IsByteString(s)
    ensures BytesToString(bs) == s
  {
    seq(|s|, i requires 0 <= i < |s| => s[i] as int)
  }

  /** `base64.StdEncoding.DecodeString(s)`, with the bytes read as a string; None on CorruptInputError. */
  function Decode(s: string): Option<string>
  {
    match DecodeQuanta(StripNewlines(s))
    case None => None
    case Some(bs) => Some(BytesToString(bs))
  }

  /** The padded standard encoding of a byte sequence (the reference encoder). */
  function Encode(bs: seq<Byte>): (s: string)
    ensures |s| % 4 == 0
    ensures forall i :: 0 <= i < |s| ==> !IsNewline(s[i])
    decreases |bs|
  {
    if |bs| == 0 then ""
    else if |bs| == 1 then
      [AlphabetChar(bs[0] / 4), AlphabetChar((bs[0] % 4) * 16), '=', '=']
    else if |bs| == 2 then
      [AlphabetChar(bs[0] / 4), AlphabetChar((bs[0] % 4) * 16 + bs[1] / 16),
       AlphabetChar((bs[1] % 16) * 4), '=']
    else Group(bs[0], bs[1], bs[2]) + Encode(bs[3..])
  }

  /** Four characters for three bytes. */
  function Group(x: Byte, y: Byte, z: Byte): string
  {
    [AlphabetChar(x / 4), AlphabetChar((x % 4) * 16 + y / 16),
     AlphabetChar((y % 16) * 4 + z / 64), AlphabetChar(z % 64)]
  }

  lemma DecodeGroup(x: Byte, y: Byte, z: Byte)
    ensures DecodeFull(Group(x, y, z)) == Some([x, y, z])
    ensures DecodeLast(Group(x, y, z)) == Some([x, y, z])
  {
    SextetOfAlphabetChar(x / 4);
    SextetOfAlphabetChar((x % 4) * 16 + y / 16);
    SextetOfAlphabetChar((y % 16) * 4 + z / 64);
    SextetOfAlphabetChar(z % 64);
    Bytes3Inverts(x, y, z);
  }

  lemma DecodeOneByte(x: Byte)
    ensures DecodeLast(Encode([x])) == Some([x])
  {
    var q := Encode([x]);
    assert q == [AlphabetChar(x / 4), AlphabetChar((x % 4) * 16), '=', '='];
    SextetOfAlphabetChar(x / 4);
    SextetOfAlphabetChar((x % 4) * 16);
    Bytes3Inverts(x, 0, 0);
    assert Bytes3(x / 4, (x % 4) * 16, 0, 0)[..1] == [x];
  }

  lemma DecodeTwoBytes(x: Byte, y: Byte)
    ensures DecodeLast(Encode([x, y])) == Some([x, y])
  {
    var q := Encode([x, y]);
    assert q == [AlphabetChar(x / 4), AlphabetChar((x % 4) * 16 + y / 16), AlphabetChar((y % 16) * 4), '='];
    SextetOfAlphabetChar(x / 4);
    SextetOfAlphabetChar((x % 4) * 16 + y / 16);
    SextetOfAlphabetChar((y % 16) * 4);
    Bytes3Inverts(x, y, 0);
    assert Bytes3(x / 4, (x % 4) * 16 + y / 16, (y % 16) * 4, 0)[..2] == [x, y];
  }

  lemma Bytes3Inverts(x: Byte, y: Byte, z: Byte)
    ensures Bytes3(x / 4, (x % 4) * 16 + y / 16, (y % 16) * 4 + z / 64, z % 64) == [x, y, z]
  {
  }

  lemma StripNewlinesIdentity(s: string)
    requires forall i :: 0 <= i < |s| ==> !IsNewline(s[i])
    ensures StripNewlines(s) == s
  {
    if |s| > 0 {
      StripNewlinesIdentity(s[1..]);
    }
  }

  /** Decoding undoes encoding: every byte sequence survives the round trip. */
  lemma {:induction false} DecodeQuantaEncode(bs: seq<Byte>)
    ensures DecodeQuanta(Encode(bs)) == Some(bs)
    decreases |bs|
  {
    if |bs| == 1 {
      DecodeOneByte(bs[0]);
      assert [bs[0]] == bs;
    } else if |bs| == 2 {
      DecodeTwoBytes(bs[0], bs[1]);
      assert [bs[0], bs[1]] == bs;
    } else if |bs| == 3 {
      DecodeGroup(bs[0], bs[1], bs[2]);
      assert Encode(bs) == Group(bs[0], bs[1], bs[2]) + "";
      assert [bs[0], bs[1], bs[2]] == bs;
    } else if |bs| > 3 {
      var s := Encode(bs);
      DecodeGroup(bs[0], bs[1], bs[2]);
      assert s[..4] == Group(bs[0], bs[1], bs[2]);
      assert s[4..] == Encode(bs[3..]);
      DecodeQuantaEncode(bs[3..]);
      assert bs == [bs[0], bs[1], bs[2]] + bs[3..];
    }
  }

  /** Every byte string the server encodes comes back unchanged ("YmFy" is "bar"). */
  lemma DecodeEncode(s: string)
    requires IsByteString(s)
    ensures Decode(Encode(StringToBytes(s))) == Some(s)
  {
    var e := Encode(StringToBytes(s));
    StripNewlinesIdentity(e);
    DecodeQuantaEncode(StringToBytes(s));
  }

  lemma {:induction false} DecodeQuantaLength(s: string)
    requires DecodeQuanta(s).Some?
    ensures |s| % 4 == 0
    decreases |s|
  {
    if |s| > 4 {
      DecodeQuantaLength(s[4..]);
    }
  }

  /**
   * Text whose length, newlines aside, is not a multiple of four never
   * decodes: Go's StdEncoding rejects unpadded input.
   */
  lemma RejectsPartialQuantum(s: string)
    requires |StripNewlines(s)| % 4 != 0
    ensures Decode(s) == None
  {
    if DecodeQuanta(StripNewlines(s)).Some? {
      DecodeQuantaLength(StripNewlines(s));
    }
  }

  /** The status token "OK" is not valid base64 on its own. */
  lemma OkDoesNotDecode()
    ensures Decode("OK") == None
  {
    assert StripNewlines("OK") == "OK" by {
      StripNewlinesIdentity("OK");
    }
  }

  lemma DecodeBar()
    ensures Decode("YmFy") == Some("bar")
  {
    StripNewlinesIdentity("YmFy");
    assert SextetOf('Y') == Some(24) && SextetOf('m') == Some(38);
    assert SextetOf('F') == Some(5) && SextetOf('y') == Some(50);
    assert DecodeQuanta("YmFy") == Some([98, 97, 114]);
    assert BytesToString([98, 97, 114]) == "bar";
  }
}
