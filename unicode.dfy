/** The two text decoders of Rust's standard library that the program
    calls: `String::from_utf8` (validating UTF-8, as in section 3 of
    RFC 3629) and `String::from_utf16` (UTF-16 with surrogate pairs, as in
    section 2.1 of RFC 2781), with the UTF-16 encoder as its partner. */
module Unicode {

  import opened Wrappers
  import opened Primitives

  type u16 = x: int | 0 <= x < 0x1_0000

  predicate IsContinuation(b: byte) {
    0x80 <= b <= 0xBF
  }

  /** Bytes `b[i..]` decoded, or the position of the first invalid byte. */
  function DecodeUtf8From(b: seq<byte>, i: nat): (r: Result<string, nat>)
    requires i <= |b|
    decreases |b| - i
  {
    if i == |b| then Success([])
    else
      var b0: int := b[i];
      var b1: int := if i + 1 < |b| then b[i + 1] else 0;
      var b2: int := if i + 2 < |b| then b[i + 2] else 0;
      var b3: int := if i + 3 < |b| then b[i + 3] else 0;
      if b0 < 0x80 then
        var rest :- DecodeUtf8From(b, i + 1);
        Success([b0 as char] + rest)
      else if 0xC2 <= b0 <= 0xDF then
        if i + 1 < |b| && IsContinuation(b[i + 1]) then
          var c: int := (b0 - 0xC0) * 64 + (b1 - 0x80);
          var rest :- DecodeUtf8From(b, i + 2);
          Success([c as char] + rest)
        else Failure(i)
      else if 0xE0 <= b0 <= 0xEF then
        var lo := if b0 == 0xE0 then 0xA0 else 0x80;
        var hi := if b0 == 0xED then 0x9F else 0xBF;
        if i + 2 < |b| && lo <= b[i + 1] <= hi && IsContinuation(b[i + 2]) then
          var c: int := (b0 - 0xE0) * 4096 + (b1 - 0x80) * 64 + (b2 - 0x80);
          var rest :- DecodeUtf8From(b, i + 3);
          Success([c as char] + rest)
        else Failure(i)
      else if 0xF0 <= b0 <= 0xF4 then
        var lo := if b0 == 0xF0 then 0x90 else 0x80;
        var hi := if b0 == 0xF4 then 0x8F else 0xBF;
        if i + 3 < |b| && lo <= b[i + 1] <= hi && IsContinuation(b[i + 2]) && IsContinuation(b[i + 3]) then
          var c: int := (b0 - 0xF0) * 262144 + (b1 - 0x80) * 4096 + (b2 - 0x80) * 64 + (b3 - 0x80);
          var rest :- DecodeUtf8From(b, i + 4);
          Success([c as char] + rest)
        else Failure(i)
      else Failure(i)
  }

  /** `String::from_utf8`: the decoded text, or the offset of the first
      byte that is not part of a valid sequence. */
  function FromUtf8(b: seq<byte>): Result<string, nat> {
    DecodeUtf8From(b, 0)
  }

  /** The characters whose code points are the given bytes (all below 0x80). */
  function AsciiChars(b: seq<byte>): (s: string)
    requires forall i :: 0 <= i < |b| ==> b[i] < 0x80
    ensures |s| == |b| && forall i :: 0 <= i < |b| ==> s[i] as int == b[i]
  {
    if b == [] then [] else [b[0] as char] + AsciiChars(b[1..])
  }

  /** Bytes below 0x80 are always valid UTF-8 and decode to themselves. */
  lemma {:induction false} AsciiIsUtf8From(b: seq<byte>, i: nat)
    requires i <= |b|
    requires forall k :: 0 <= k < |b| ==> b[k] < 0x80
    ensures DecodeUtf8From(b, i) == Success(AsciiChars(b[i..]))
    decreases |b| - i
  {
    if i < |b| {
      AsciiIsUtf8From(b, i + 1);
      assert b[i..][1..] == b[i + 1..];
    }
  }

  lemma AsciiIsUtf8(b: seq<byte>)
    requires forall k :: 0 <= k < |b| ==> b[k] < 0x80
    ensures FromUtf8(b) == Success(AsciiChars(b))
  {
    AsciiIsUtf8From(b, 0);
    assert b[0..] == b;
  }

  predicate IsHighSurrogate(u: u16) {
    0xD800 <= u < 0xDC00
  }

  predicate IsLowSurrogate(u: u16) {
    0xDC00 <= u < 0xE000
  }

  /** `String::from_utf16`: `None` on an unpaired surrogate. */
  function FromUtf16(units: seq<u16>): Option<string> {
    if units == [] then Some([])
    else
      var u: int := units[0];
      if IsLowSurrogate(u) then None
      else if IsHighSurrogate(u) then
        if |units| >= 2 && IsLowSurrogate(units[1]) then
          var c: int := 0x10000 + (u - 0xD800) * 1024 + (units[1] - 0xDC00);
          match FromUtf16(units[2..])
          case None => None
          case Some(rest) => Some([c as char] + rest)
        else None
      else
        match FromUtf16(units[1..])
        case None => None
        case Some(rest) => Some([u as char] + rest)
  }

  /** The UTF-16 encoding of one character. */
  function EncodeChar(c: char): (units: seq<u16>)
    ensures 1 <= |units| <= 2
  {
    if (c as int) < 0x10000 then [c as int as u16]
    else
      var v := c as int - 0x10000;
      [0xD800 + v / 1024, 0xDC00 + v % 1024]
  }

  function ToUtf16(s: string): seq<u16> {
    if s == [] then [] else EncodeChar(s[0]) + ToUtf16(s[1..])
  }

  /** Every text survives a round trip through UTF-16. */
  lemma {:induction false} Utf16RoundTrip(s: string)
    ensures FromUtf16(ToUtf16(s)) == Some(s)
  {
    if s != [] {
      Utf16RoundTrip(s[1..]);
      var units := ToUtf16(s);
      var c := s[0];
      assert s == [c] + s[1..];
      if (c as int) < 0x10000 {
        assert units[0] == c as int && units[1..] == ToUtf16(s[1..]);
        assert !IsLowSurrogate(units[0]) && !IsHighSurrogate(units[0]);
        assert (units[0] as char) == c;
      } else {
        var v := c as int - 0x10000;
        assert units[0] == 0xD800 + v / 1024 && units[1] == 0xDC00 + v % 1024;
        assert units[2..] == ToUtf16(s[1..]);
        assert 0x10000 + (v / 1024) * 1024 + v % 1024 == c as int;
      }
    }
  }
}
