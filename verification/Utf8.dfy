/** UTF-8, section 3 of RFC 3629, and the line ends of text files. */
module Utf8 {
  import opened Prelude

  type Byte = b: int | 0 <= b < 256

  function EncodeChar(c: char): (bytes: seq<Byte>)
    ensures 1 <= |bytes| <= 4
  {
    var n := c as int;
    if n < 0x80 then [n]
    else if n < 0x800 then [0xC0 + n / 64, 0x80 + n % 64]
    else if n < 0x10000 then [0xE0 + n / 4096, 0x80 + n / 64 % 64, 0x80 + n % 64]
    else [0xF0 + n / 262144, 0x80 + n / 4096 % 64, 0x80 + n / 64 % 64, 0x80 + n % 64]
  }

  function Encode(text: string): seq<Byte> {
    if text == "" then [] else EncodeChar(text[0]) + Encode(text[1..])
  }

  predicate Continues(b: Byte) { 0x80 <= b < 0xC0 }

  /** How many bytes a sequence with this first byte has; 0 when no sequence starts so. */
  function SequenceLength(b: Byte): nat {
    if b < 0x80 then 1
    else if 0xC2 <= b < 0xE0 then 2
    else if 0xE0 <= b < 0xF0 then 3
    else if 0xF0 <= b < 0xF5 then 4
    else 0
  }

  function Payload(bytes: seq<Byte>): int
    requires bytes != []
  {
    var n := SequenceLength(bytes[0]);
    if n == 2 && |bytes| >= 2 then Above(bytes[0], 0xC0) * 64 + Above(bytes[1], 0x80)
    else if n == 3 && |bytes| >= 3 then
      Above(bytes[0], 0xE0) * 4096 + Above(bytes[1], 0x80) * 64 + Above(bytes[2], 0x80)
    else if n == 4 && |bytes| >= 4 then
      Above(bytes[0], 0xF0) * 262144 + Above(bytes[1], 0x80) * 4096 + Above(bytes[2], 0x80) * 64
      + Above(bytes[3], 0x80)
    else bytes[0]
  }

  function Above(b: Byte, base: int): int { b - base }

  /** The strict decoder: no overlong form, no surrogate, nothing above 10FFFF, no cut-off sequence. */
  function DecodeChar(bytes: seq<Byte>): Option<char>
    requires bytes != []
  {
    var n := SequenceLength(bytes[0]);
    if n == 0 || |bytes| < n || exists i :: 1 <= i < n && !Continues(bytes[i]) then None
    else
      var code := Payload(bytes);
      if (n == 3 && code < 0x800) || (n == 4 && code < 0x10000) || 0xD800 <= code < 0xE000 || code > 0x10FFFF then None
      else Some(code as char)
  }

  function Decode(bytes: seq<Byte>): Option<string> {
    if bytes == [] then Some("")
    else
      var c := DecodeChar(bytes);
      if c.None? then None
      else
        var rest := Decode(bytes[SequenceLength(bytes[0])..]);
        if rest.None? then None else Some([c.value] + rest.value)
  }

  /** The payload bits of an encoding put together again. */
  lemma PayloadOwn(c: char, rest: seq<Byte>)
    ensures var bytes := EncodeChar(c) + rest;
      SequenceLength(bytes[0]) == |EncodeChar(c)| && Payload(bytes) == c as int
  {
    var n := c as int;
    assert n / 64 * 64 + n % 64 == n;
    assert n / 4096 == n / 64 / 64 && n / 262144 == n / 4096 / 64;
    assert n / 4096 * 64 + n / 64 % 64 == n / 64;
    assert n / 262144 * 64 + n / 4096 % 64 == n / 4096;
  }

  lemma TailContinues(c: char)
    ensures forall i :: 1 <= i < |EncodeChar(c)| ==> Continues(EncodeChar(c)[i])
  {
  }

  lemma DecodesOwn(c: char, rest: seq<Byte>)
    ensures var bytes := EncodeChar(c) + rest;
      DecodeChar(bytes) == Some(c) && SequenceLength(bytes[0]) == |EncodeChar(c)|
  {
    var n, own := c as int, EncodeChar(c);
    assert (|own| == 3 ==> 0x800 <= n) && (|own| == 4 ==> 0x10000 <= n);
    assert n < 0xD800 || 0xE000 <= n <= 0x10FFFF;
    PayloadOwn(c, rest);
    TailContinues(c);
    hide EncodeChar, SequenceLength, Payload, Continues;
    assert forall i :: 1 <= i < |own| ==> (own + rest)[i] == own[i];
  }

  lemma RejectsCut(c: char, length: nat)
    requires 0 < length < |EncodeChar(c)|
    ensures DecodeChar(EncodeChar(c)[..length]).None?
  {
    DecodesOwn(c, []);
    assert EncodeChar(c) + [] == EncodeChar(c);
  }

  lemma EncodeStep(c: char, rest: string)
    ensures Encode([c] + rest) == EncodeChar(c) + Encode(rest)
  {
    assert ([c] + rest)[1..] == rest;
  }

  lemma {:induction false} EncodeConcat(a: string, b: string)
    ensures Encode(a + b) == Encode(a) + Encode(b)
  {
    if a == "" {
      assert a + b == b;
    } else {
      EncodeConcat(a[1..], b);
      EncodeStep(a[0], a[1..]);
      EncodeStep(a[0], a[1..] + b);
      hide *;
      assert a == [a[0]] + a[1..] && a + b == [a[0]] + (a[1..] + b);
      ConcatAssociative(EncodeChar(a[0]), Encode(a[1..]), Encode(b));
    }
  }

  /** Six bits at a time. */
  lemma Digits(a: int, b: int, c: int, d: int)
    requires 0 <= b < 64 && 0 <= c < 64 && 0 <= d < 64 && 0 <= a
    ensures var n := ((a * 64 + b) * 64 + c) * 64 + d;
      n / 64 == (a * 64 + b) * 64 + c && n % 64 == d && n / 64 / 64 == a * 64 + b && n / 64 % 64 == c
      && n / 4096 == a * 64 + b && n / 4096 % 64 == b && n / 262144 == a
  {
    var n := ((a * 64 + b) * 64 + c) * 64 + d;
    assert n / 64 == (a * 64 + b) * 64 + c;
    assert n / 4096 == n / 64 / 64 && n / 262144 == n / 64 / 64 / 64;
  }

  /** The code a byte sequence of this length stands for, and the bytes it is written with. */
  lemma EncodesOwn(bytes: seq<Byte>)
    requires bytes != [] && DecodeChar(bytes).Some?
    ensures SequenceLength(bytes[0]) <= |bytes|
    ensures EncodeChar(DecodeChar(bytes).value) == bytes[..SequenceLength(bytes[0])]
  {
    var n := SequenceLength(bytes[0]);
    assert forall i :: 1 <= i < n ==> Continues(bytes[i]);
    if n == 2 {
      TwoBytes(bytes);
    } else if n == 3 {
      ThreeBytes(bytes);
    } else if n == 4 {
      FourBytes(bytes);
    }
    hide Payload;
  }

  lemma TwoBytes(bytes: seq<Byte>)
    requires |bytes| >= 2 && SequenceLength(bytes[0]) == 2 && Continues(bytes[1])
    ensures
      var n := Payload(bytes);
      && 0x80 <= n < 0x800
      && bytes[..2] == [0xC0 + n / 64, 0x80 + n % 64]
  {
    Digits(0, 0, bytes[0] - 0xC0, bytes[1] - 0x80);
  }

  lemma ThreeBytes(bytes: seq<Byte>)
    requires |bytes| >= 3 && SequenceLength(bytes[0]) == 3 && Continues(bytes[1]) && Continues(bytes[2])
    ensures
      var n := Payload(bytes);
      && 0 <= n < 0x10000
      && bytes[..3] == [0xE0 + n / 4096, 0x80 + n / 64 % 64, 0x80 + n % 64]
  {
    Digits(0, bytes[0] - 0xE0, bytes[1] - 0x80, bytes[2] - 0x80);
  }

  lemma FourBytes(bytes: seq<Byte>)
    requires |bytes| >= 4 && SequenceLength(bytes[0]) == 4
    requires Continues(bytes[1]) && Continues(bytes[2]) && Continues(bytes[3])
    ensures
      var n := Payload(bytes);
      && 0 <= n
      && bytes[..4] == [0xF0 + n / 262144, 0x80 + n / 4096 % 64, 0x80 + n / 64 % 64, 0x80 + n % 64]
  {
    Digits(bytes[0] - 0xF0, bytes[1] - 0x80, bytes[2] - 0x80, bytes[3] - 0x80);
  }

  /** The strict decoder loses nothing. */
  lemma {:induction false} EncodeDecode(bytes: seq<Byte>)
    requires Decode(bytes).Some?
    ensures Encode(Decode(bytes).value) == bytes
  {
    if bytes != [] {
      EncodesOwn(bytes);
      hide DecodeChar, EncodeChar, SequenceLength;
      var c, n := DecodeChar(bytes).value, SequenceLength(bytes[0]);
      EncodeDecode(bytes[n..]);
      EncodeStep(c, Decode(bytes[n..]).value);
      assert bytes == bytes[..n] + bytes[n..];
    }
  }

  /** An ASCII byte is its own character. */
  lemma DecodeAscii(b: Byte, rest: seq<Byte>)
    requires b < 0x80 && Decode(rest).Some?
    ensures Decode([b] + rest) == Some([b as char] + Decode(rest).value)
  {
    assert ([b] + rest)[1..] == rest;
  }

  // ---------------------------------------------------------------- text mode

  /** Reading in text mode: a carriage return, with the line feed after it if there is one, becomes a line feed. */
  function Universal(text: string): string {
    if text == "" then ""
    else if text[0] != '\r' then [text[0]] + Universal(text[1..])
    else if |text| > 1 && text[1] == '\n' then "\n" + Universal(text[2..])
    else "\n" + Universal(text[1..])
  }

  lemma {:induction false} NoReturnLeft(text: string)
    ensures '\r' !in Universal(text)
  {
    if text != "" {
      NoReturnLeft(text[1..]);
      if |text| > 1 { NoReturnLeft(text[2..]); }
    }
  }

  /** Text is read as it is exactly when it has no carriage return. */
  lemma {:induction false} UniversalIff(text: string)
    ensures Universal(text) == text <==> '\r' !in text
  {
    if '\r' in text {
      NoReturnLeft(text);
    } else if text != "" {
      UniversalIff(text[1..]);
      assert text == [text[0]] + text[1..];
    }
  }

  const RETURN: Byte := 13

  lemma ReturnEncoded(c: char)
    ensures RETURN in EncodeChar(c) <==> c == '\r'
  {
  }

  lemma {:induction false} ReturnsEncoded(text: string)
    ensures RETURN in Encode(text) <==> '\r' in text
  {
    if text != "" {
      ReturnEncoded(text[0]);
      ReturnsEncoded(text[1..]);
      hide EncodeChar;
    }
  }

  /** `read_text`: None when the bytes are not UTF-8. */
  function ReadText(bytes: seq<Byte>): Option<string> {
    var text := Decode(bytes);
    if text.None? then None else Some(Universal(text.value))
  }

  /** Bytes read as text and written as text again are the same bytes exactly when they hold no carriage return. */
  lemma RewrittenIff(bytes: seq<Byte>)
    requires ReadText(bytes).Some?
    ensures Encode(ReadText(bytes).value) == bytes <==> RETURN !in bytes
  {
    var text := Decode(bytes).value;
    EncodeDecode(bytes);
    UniversalIff(text);
    ReturnsEncoded(text);
    if RETURN in bytes {
      NoReturnLeft(text);
      ReturnsEncoded(Universal(text));
    }
    hide Encode, Decode, Universal;
  }
}
