/** The string display of the object viewer (`display_string` in
    src/gui/views/object_view.rs), without the widget it draws into: a
    string that starts with the UTF-16BE byte order mark is decoded as
    UTF-16, any other string is shown as raw bytes. */
module ObjectView {

  import opened Wrappers
  import opened Primitives
  import Unicode

  /** `field_to_insert`. */
  function FieldPrefix(field: string): (p: string)
    ensures field == "" ==> p == ""
    ensures field != "" ==> |p| == |field| + 2 && p[..|field|] == field && p[|field|..] == ": "
  {
    match field
    case "" => ""
    case _ => field + ": "
  }

  /** `u16::from_be_bytes([hi, lo])`. */
  function BeUnit(hi: byte, lo: byte): Unicode.u16 {
    hi as int * 256 + lo as int
  }

  /** The code units `(1..len/2).map(|i| from_be_bytes([b[2i], b[2i+1]]))`:
      the first pair (the byte order mark) is skipped and an odd trailing
      byte is dropped. */
  function Units(buffer: seq<byte>): (units: seq<Unicode.u16>)
    ensures |units| == if |buffer| / 2 >= 1 then |buffer| / 2 - 1 else 0
    ensures forall i :: 0 <= i < |units| ==> units[i] == buffer[2 * i + 2] as int * 256 + buffer[2 * i + 3] as int
  {
    if |buffer| / 2 >= 1 then
      seq(|buffer| / 2 - 1, i requires 0 <= i < |buffer| / 2 - 1 => BeUnit(buffer[2 * (i + 1)], buffer[2 * (i + 1) + 1]))
    else []
  }

  /** What the label shows after the prefix: the decoded text, or the raw
      PDF string (rendered by its `Debug` form, which is not modelled). */
  datatype Shown = Decoded(text: string) | Raw(pdf_string: PdfString)

  predicate HasBom(buffer: seq<byte>) {
    |buffer| > 2 && buffer[0] == 0xFE && buffer[1] == 0xFF
  }

  /** `display_string`: the prefix and what follows it, or `None` where
      `String::from_utf16(..).unwrap()` panics. */
  function DisplayString(field: string, pdf_string: PdfString): (r: Option<(string, Shown)>)
    ensures r.None? <==> HasBom(pdf_string.data) && Unicode.FromUtf16(Units(pdf_string.data)).None?
    ensures r.Some? ==> r.value.0 == FieldPrefix(field)
    ensures r.Some? && HasBom(pdf_string.data) ==>
              r.value.1 == Decoded(Unicode.FromUtf16(Units(pdf_string.data)).value)
    ensures !HasBom(pdf_string.data) ==> r == Some((FieldPrefix(field), Raw(pdf_string)))
  {
    var buffer := pdf_string.data;
    var field_to_insert := FieldPrefix(field);
    if |buffer| > 2 then
      if buffer[0] == 0xFE && buffer[1] == 0xFF then
        match Unicode.FromUtf16(Units(buffer))
        case None => None
        case Some(t) => Some((field_to_insert, Decoded(t)))
      else
        Some((field_to_insert, Raw(pdf_string)))
    else
      Some((field_to_insert, Raw(pdf_string)))
  }

  /** The big-endian bytes of code units; the partner of `Units`. */
  function BeBytes(units: seq<Unicode.u16>): (b: seq<byte>)
    ensures |b| == 2 * |units|
  {
    if units == [] then [] else [units[0] / 256, units[0] % 256] + BeBytes(units[1..])
  }

  lemma {:induction false} BeBytesAt(units: seq<Unicode.u16>, i: nat)
    requires i < |units|
    ensures BeBytes(units)[2 * i] as int * 256 + BeBytes(units)[2 * i + 1] as int == units[i]
  {
    if i > 0 {
      BeBytesAt(units[1..], i - 1);
      assert BeBytes(units)[2 * i] == BeBytes(units[1..])[2 * (i - 1)];
      assert BeBytes(units)[2 * i + 1] == BeBytes(units[1..])[2 * (i - 1) + 1];
    }
  }

  /** Decoding the units after a byte order mark gives back the units. */
  lemma {:induction false} UnitsRoundTrip(units: seq<Unicode.u16>)
    ensures Units([0xFE, 0xFF] + BeBytes(units)) == units
  {
    var b := [0xFE, 0xFF] + BeBytes(units);
    var r := Units(b);
    assert |r| == |units|;
    forall i | 0 <= i < |units| ensures r[i] == units[i] {
      BeBytesAt(units, i);
      assert b[2 * i + 2] == BeBytes(units)[2 * i];
      assert b[2 * i + 3] == BeBytes(units)[2 * i + 1];
    }
  }

  /** An odd trailing byte does not change the code units. */
  lemma {:induction false} OddByteIgnored(buffer: seq<byte>, x: byte)
    requires |buffer| % 2 == 0
    ensures Units(buffer + [x]) == Units(buffer)
  {
    var a := Units(buffer + [x]);
    var b := Units(buffer);
    assert |a| == |b|;
    forall i | 0 <= i < |a| ensures a[i] == b[i] {
      assert (buffer + [x])[2 * i + 2] == buffer[2 * i + 2];
      assert (buffer + [x])[2 * i + 3] == buffer[2 * i + 3];
    }
  }

  /** Any non-empty text, written as UTF-16BE with a byte order mark, is
      displayed as that text. */
  lemma {:induction false} DisplayUtf16RoundTrip(field: string, s: string)
    requires s != []
    ensures DisplayString(field, PdfString([0xFE, 0xFF] + BeBytes(Unicode.ToUtf16(s))))
            == Some((FieldPrefix(field), Decoded(s)))
  {
    var units := Unicode.ToUtf16(s);
    assert units == Unicode.EncodeChar(s[0]) + Unicode.ToUtf16(s[1..]);
    UnitsRoundTrip(units);
    Unicode.Utf16RoundTrip(s);
  }

  /** A lone low surrogate after the byte order mark makes the decoder panic. */
  lemma UnpairedSurrogatePanics(field: string)
    ensures DisplayString(field, PdfString([0xFE, 0xFF, 0xDC, 0x00])) == None
  {
    assert Units([0xFE, 0xFF, 0xDC, 0x00]) == [0xDC00];
  }
}
