/** Base 64 encoding as defined in section 4 of RFC 4648 (the standard alphabet, with `=` padding),
    which `base64.b64encode` implements, and a strict decoder for it. */
module Base64 {
  import opened Wrappers

  type byte = x: int | 0 <= x < 256
  type sextet = x: int | 0 <= x < 64

  /** The symbol for a 6-bit value (Table 1 of RFC 4648). */
  function Symbol(v: sextet): char {
    if v < 26 then ('A' as int + v) as char
    else if v < 52 then ('a' as int + (v - 26)) as char
    else if v < 62 then ('0' as int + (v - 52)) as char
    else if v == 62 then '+'
    else '/'
  }

  /** The 6-bit value of a symbol; None for characters outside the alphabet (padding included). */
  function SymbolValue(c: char): Option<sextet> {
    if 'A' <= c <= 'Z' then Some(c as int - 'A' as int)
    else if 'a' <= c <= 'z' then Some(c as int - 'a' as int + 26)
    else if '0' <= c <= '9' then Some(c as int - '0' as int + 52)
    else if c == '+' then Some(62)
    else if c == '/' then Some(63)
    else None
  }

  /** Every symbol reads back as the value it stands for. */
  lemma SymbolRoundTrip(v: sextet)
    ensures SymbolValue(Symbol(v)) == Some(v)
  {
  }

  /** Base 64 encoding: each 3-byte group becomes 4 symbols; a final group of 1 or 2 bytes is
      padded with zero bits and completed with `==` or `=`. */
  function Encode(b: seq<byte>): (r: string)
    ensures |r| == 4 * ((|b| + 2) / 3)
    decreases |b|
  {
    if |b| == 0 then ""
    else if |b| == 1 then
      [Symbol(b[0] / 4), Symbol((b[0] % 4) * 16), '=', '=']
    else if |b| == 2 then
      [Symbol(b[0] / 4), Symbol((b[0] % 4) * 16 + b[1] / 16), Symbol((b[1] % 16) * 4), '=']
    else Group(b[0], b[1], b[2]) + Encode(b[3..])
  }

  /** The four symbols of a full group of three bytes: its 24 bits, six at a time. */
  function Group(b0: byte, b1: byte, b2: byte): string {
    [Symbol(b0 / 4), Symbol((b0 % 4) * 16 + b1 / 16), Symbol((b1 % 16) * 4 + b2 / 64), Symbol(b2 % 64)]
  }

  /** Decoding of a complete (unpadded) quartet of symbols into its three bytes. */
  function Quartet(v0: sextet, v1: sextet, v2: sextet, v3: sextet): seq<byte> {
    [v0 * 4 + v1 / 16, (v1 % 16) * 16 + v2 / 4, (v2 % 4) * 64 + v3]
  }

  /** Strict base 64 decoding: the length is a multiple of 4, padding only ends the text, and
      the pad bits are zero. None for anything else. */
  function Decode(s: string): (r: Option<seq<byte>>)
    decreases |s|
  {
    if s == [] then Some([])
    else if |s| < 4 then None
    else
      var (c0, c1, c2, c3) := (SymbolValue(s[0]), SymbolValue(s[1]), SymbolValue(s[2]), SymbolValue(s[3]));
      if |s| == 4 && s[2] == '=' && s[3] == '=' then
        if c0.Some? && c1.Some? && c1.value % 16 == 0 then Some([c0.value as int * 4 + c1.value as int / 16]) else None
      else if |s| == 4 && s[3] == '=' then
        if c0.Some? && c1.Some? && c2.Some? && c2.value % 4 == 0
        then Some([c0.value as int * 4 + c1.value as int / 16, (c1.value as int % 16) * 16 + c2.value as int / 4])
        else None
      else if c0.Some? && c1.Some? && c2.Some? && c3.Some? then
        match Decode(s[4..])
        case Some(tail) => Some(Quartet(c0.value, c1.value, c2.value, c3.value) + tail)
        case None => None
      else None
  }

  /** A full group of three bytes survives encoding and decoding. */
  lemma GroupRoundTrip(b0: byte, b1: byte, b2: byte)
    ensures Quartet(b0 / 4, (b0 % 4) * 16 + b1 / 16, (b1 % 16) * 4 + b2 / 64, b2 % 64) == [b0, b1, b2]
  {
    var v1 := (b0 % 4) * 16 + b1 / 16;
    var v2 := (b1 % 16) * 4 + b2 / 64;
    assert v1 / 16 == b0 % 4 && v1 % 16 == b1 / 16;
    assert v2 / 4 == b1 % 16 && v2 % 4 == b2 / 64;
  }

  /** A final single byte survives encoding and decoding. */
  lemma SingleRoundTrip(b0: byte)
    ensures Decode(Encode([b0])) == Some([b0])
  {
    SymbolRoundTrip(b0 / 4);
    SymbolRoundTrip((b0 % 4) * 16);
  }

  /** A final pair of bytes survives encoding and decoding. */
  lemma PairRoundTrip(b0: byte, b1: byte)
    ensures Decode(Encode([b0, b1])) == Some([b0, b1])
  {
    var v0, v1, v2 := b0 / 4, (b0 % 4) * 16 + b1 / 16, (b1 % 16) * 4;
    SymbolRoundTrip(v0);
    SymbolRoundTrip(v1);
    SymbolRoundTrip(v2);
    var s := Encode([b0, b1]);
    assert s == [Symbol(v0), Symbol(v1), Symbol(v2), '='];
    assert s[2] != '=';
    assert v0 * 4 + v1 / 16 == b0;
    assert (v1 % 16) * 16 + v2 / 4 == b1;
  }

  /** A quartet of symbols without padding followed by a text that decodes. */
  lemma DecodeGroup(s: string, tail: seq<byte>)
    requires |s| >= 4 && s[3] != '='
    requires SymbolValue(s[0]).Some? && SymbolValue(s[1]).Some?
    requires SymbolValue(s[2]).Some? && SymbolValue(s[3]).Some?
    requires Decode(s[4..]) == Some(tail)
    ensures Decode(s) == Some(Quartet(SymbolValue(s[0]).value, SymbolValue(s[1]).value,
                                      SymbolValue(s[2]).value, SymbolValue(s[3]).value) + tail)
  {
  }

  /** A full group in front of a text that decodes survives encoding and decoding. */
  lemma GroupDecodes(b0: byte, b1: byte, b2: byte, rest: string, tail: seq<byte>)
    requires Decode(rest) == Some(tail)
    ensures Decode(Group(b0, b1, b2) + rest) == Some([b0, b1, b2] + tail)
  {
    var v0, v1, v2, v3 := b0 / 4, (b0 % 4) * 16 + b1 / 16, (b1 % 16) * 4 + b2 / 64, b2 % 64;
    SymbolRoundTrip(v0);
    SymbolRoundTrip(v1);
    SymbolRoundTrip(v2);
    SymbolRoundTrip(v3);
    var s := Group(b0, b1, b2) + rest;
    assert s[4..] == rest;
    DecodeGroup(s, tail);
    GroupRoundTrip(b0, b1, b2);
  }

  /** Decoding inverts encoding, one group at a time. */
  lemma {:induction false} GroupStep(b: seq<byte>)
    requires |b| >= 3 && Decode(Encode(b[3..])) == Some(b[3..])
    ensures Decode(Encode(b)) == Some(b)
  {
    assert Encode(b) == Group(b[0], b[1], b[2]) + Encode(b[3..]);
    GroupDecodes(b[0], b[1], b[2], Encode(b[3..]), b[3..]);
    assert b == [b[0], b[1], b[2]] + b[3..];
  }

  /** Decoding inverts encoding: the bytes a base 64 text is made from can be read back from it. */
  lemma {:induction false} DecodeEncode(b: seq<byte>)
    ensures Decode(Encode(b)) == Some(b)
    decreases |b|
  {
    if |b| == 1 {
      assert b == [b[0]];
      SingleRoundTrip(b[0]);
    } else if |b| == 2 {
      assert b == [b[0], b[1]];
      PairRoundTrip(b[0], b[1]);
    } else if |b| >= 3 {
      DecodeEncode(b[3..]);
      GroupStep(b);
    }
  }
}
