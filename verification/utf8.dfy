/** UTF-8, the byte form of a Rust `String`: `as_bytes` hands the payload to the
    encryptor as the UTF-8 encoding of its characters (RFC 3629 section 3).
    A Dafny `char` is a Unicode scalar value, exactly like a Rust `char`. */
module Utf8 {
  import opened Wrappers

  newtype byte = x: int | 0 <= x < 256

  /** A continuation byte `10xxxxxx`. */
  predicate IsContinuation(b: byte) {
    0x80 <= b < 0xC0
  }

  /** The six payload bits of a continuation byte. */
  function Low(b: byte): int
    requires IsContinuation(b)
  {
    b as int - 0x80
  }

  /** Code points that are Unicode scalar values (no surrogates). */
  predicate IsScalar(n: int) {
    0 <= n < 0xD800 || 0xE000 <= n < 0x11_0000
  }

  /** The shortest encoding of one scalar value: one to four bytes by range. */
  function EncodeChar(c: char): (bs: seq<byte>)
    ensures 1 <= |bs| <= 4
    ensures |bs| == 1 <==> c as int < 0x80
    ensures |bs| == 1 ==> bs[0] as int == c as int
    ensures forall i :: 1 <= i < |bs| ==> IsContinuation(bs[i])
  {
    var n := c as int;
    if n < 0x80 then [n as byte]
    else if n < 0x800 then [(0xC0 + n / 64) as byte, (0x80 + n % 64) as byte]
    else if n < 0x1_0000 then
      [(0xE0 + n / 4096) as byte, (0x80 + n / 64 % 64) as byte, (0x80 + n % 64) as byte]
    else
      [(0xF0 + n / 262144) as byte, (0x80 + n / 4096 % 64) as byte,
       (0x80 + n / 64 % 64) as byte, (0x80 + n % 64) as byte]
  }

  /** `str::as_bytes`: the encodings of the characters, one after the other. */
  function Encode(s: string): (bs: seq<byte>)
    ensures |s| <= |bs| <= 4 * |s|
  {
    if |s| == 0 then [] else EncodeChar(s[0]) + Encode(s[1..])
  }

  /** Decodes the first character of `bs` and says how many bytes it took;
      `None` for a stray continuation byte, a truncated sequence, an overlong
      form, a surrogate or a value beyond U+10FFFF. */
  function DecodeFirst(bs: seq<byte>): (r: Option<(char, nat)>)
    requires |bs| > 0
    ensures r.Some? ==> 1 <= r.value.1 <= 4 && r.value.1 <= |bs|
  {
    var b0 := bs[0] as int;
    if b0 < 0x80 then Some((b0 as char, 1))
    else if b0 < 0xC2 then None
    else if b0 < 0xE0 then
      if |bs| < 2 || !IsContinuation(bs[1]) then None
      else Some((((b0 - 0xC0) * 64 + Low(bs[1])) as char, 2))
    else if b0 < 0xF0 then
      if |bs| < 3 || !IsContinuation(bs[1]) || !IsContinuation(bs[2]) then None
      else
        var n := (b0 - 0xE0) * 4096 + Low(bs[1]) * 64 + Low(bs[2]);
        if n < 0x800 || !IsScalar(n) then None else Some((n as char, 3))
    else if b0 < 0xF5 then
      if |bs| < 4 || !IsContinuation(bs[1]) || !IsContinuation(bs[2]) || !IsContinuation(bs[3]) then None
      else
        var n := (b0 - 0xF0) * 262144 + Low(bs[1]) * 4096 + Low(bs[2]) * 64 + Low(bs[3]);
        if n < 0x1_0000 || !IsScalar(n) then None else Some((n as char, 4))
    else None
  }

  /** `String::from_utf8`: the characters of well-formed UTF-8, or `None`. */
  function Decode(bs: seq<byte>): Option<string>
    decreases |bs|
  {
    if |bs| == 0 then Some([])
    else
      var (c, k) :- DecodeFirst(bs);
      var rest :- Decode(bs[k..]);
      Some([c] + rest)
  }

  /** Decoding the encoding of a character, whatever follows it, gives the
      character back and consumes exactly its encoding. */
  lemma DecodeFirstOfEncodeChar(c: char, tail: seq<byte>)
    ensures DecodeFirst(EncodeChar(c) + tail) == Some((c, |EncodeChar(c)|))
  {
    var n := c as int;
    var bs := EncodeChar(c) + tail;
    if n < 0x80 {
    } else if n < 0x800 {
      assert bs[0] as int == 0xC0 + n / 64;
      assert Low(bs[1]) == n % 64;
    } else if n < 0x1_0000 {
      assert bs[0] as int == 0xE0 + n / 4096;
      assert Low(bs[1]) == n / 64 % 64;
      assert Low(bs[2]) == n % 64;
      assert n == (n / 4096) * 4096 + (n / 64 % 64) * 64 + n % 64;
    } else {
      assert bs[0] as int == 0xF0 + n / 262144;
      assert Low(bs[1]) == n / 4096 % 64;
      assert Low(bs[2]) == n / 64 % 64;
      assert Low(bs[3]) == n % 64;
      assert n == (n / 262144) * 262144 + (n / 4096 % 64) * 4096 + (n / 64 % 64) * 64 + n % 64;
    }
  }

  /** A decoded first character re-encodes to exactly the bytes it was read from. */
  lemma EncodeCharOfDecodeFirst(bs: seq<byte>)
    requires |bs| > 0 && DecodeFirst(bs).Some?
    ensures EncodeChar(DecodeFirst(bs).value.0) == bs[..DecodeFirst(bs).value.1]
  {
    var b0 := bs[0] as int;
    var (c, k) := DecodeFirst(bs).value;
    var n := c as int;
    if b0 < 0x80 {
    } else if b0 < 0xE0 {
      assert n == (b0 - 0xC0) * 64 + Low(bs[1]);
      assert n / 64 == b0 - 0xC0 && n % 64 == Low(bs[1]);
    } else if b0 < 0xF0 {
      assert n == (b0 - 0xE0) * 4096 + Low(bs[1]) * 64 + Low(bs[2]);
      assert n / 4096 == b0 - 0xE0;
      assert n / 64 == (b0 - 0xE0) * 64 + Low(bs[1]);
      assert n / 64 % 64 == Low(bs[1]) && n % 64 == Low(bs[2]);
    } else {
      assert n == (b0 - 0xF0) * 262144 + Low(bs[1]) * 4096 + Low(bs[2]) * 64 + Low(bs[3]);
      assert n / 262144 == b0 - 0xF0;
      assert n / 4096 == (b0 - 0xF0) * 64 + Low(bs[1]);
      assert n / 64 == ((b0 - 0xF0) * 64 + Low(bs[1])) * 64 + Low(bs[2]);
      assert n / 4096 % 64 == Low(bs[1]) && n / 64 % 64 == Low(bs[2]) && n % 64 == Low(bs[3]);
    }
  }

  /** Every string survives the round trip through its bytes. */
  lemma {:induction false} DecodeEncode(s: string)
    ensures Decode(Encode(s)) == Some(s)
  {
    if |s| > 0 {
      var head := EncodeChar(s[0]);
      var bs := Encode(s);
      assert bs == head + Encode(s[1..]);
      DecodeFirstOfEncodeChar(s[0], Encode(s[1..]));
      assert bs[|head|..] == Encode(s[1..]);
      DecodeEncode(s[1..]);
      assert [s[0]] + s[1..] == s;
    }
  }

  /** Every byte sequence that decodes is the encoding of what it decodes to,
      so `Encode` reaches exactly the well-formed UTF-8 sequences. */
  lemma {:induction false} EncodeDecode(bs: seq<byte>)
    requires Decode(bs).Some?
    ensures Encode(Decode(bs).value) == bs
    decreases |bs|
  {
    if |bs| > 0 {
      var (c, k) := DecodeFirst(bs).value;
      var rest := Decode(bs[k..]);
      assert rest.Some?;
      var s := Decode(bs).value;
      assert s == [c] + rest.value;
      EncodeCharOfDecodeFirst(bs);
      EncodeDecode(bs[k..]);
      assert s[0] == c && s[1..] == rest.value;
      calc {
        Encode(s);
        EncodeChar(c) + Encode(rest.value);
        bs[..k] + bs[k..];
        bs;
      }
    }
  }
}
