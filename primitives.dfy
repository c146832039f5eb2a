/** The values that the PDF library (pdf-rs) hands to the analysed program:
    the primitive object tree, object references and the items of a file
    scan.  Numbers are floating point in the library and carry no payload
    here; a stream's bytes live in the file and are reached through a
    resolver, so a stream only carries the handle the resolver needs. */
module Primitives {

  import opened Wrappers

  type byte = x: int | 0 <= x < 256

  /** A 64-bit object number; identifiers are never computed with, so no
      wrap-around arises. */
  type ObjectId = nat

  datatype PlainRef = PlainRef(id: ObjectId, gen: nat)

  datatype PdfString = PdfString(data: seq<byte>)

  /** A stream: its dictionary and an opaque handle to its bytes in the file. */
  datatype PdfStream = PdfStream(info: seq<(string, Primitive)>, handle: nat)

  datatype Primitive =
    | Null
    | Integer(int_value: int)
    | Number
    | Boolean(bool_value: bool)
    | String(string_value: PdfString)
    | Stream(stream: PdfStream)
    | Dictionary(entries: seq<(string, Primitive)>)
    | Array(elements: seq<Primitive>)
    | Reference(reference: PlainRef)
    | Name(name: string)

  /** `Primitive::get_debug_name` */
  function DebugName(p: Primitive): string {
    match p
    case Null => "Null"
    case Integer(_) => "Integer"
    case Number => "Number"
    case Boolean(_) => "Boolean"
    case String(_) => "String"
    case Stream(_) => "Stream"
    case Dictionary(_) => "Dictionary"
    case Array(_) => "Array"
    case Reference(_) => "Reference"
    case Name(_) => "Name"
  }

  /** `Dictionary::get`: the value stored under `key`, if any. */
  function Get(entries: seq<(string, Primitive)>, key: string): (r: Option<Primitive>)
    ensures r.Some? <==> exists i :: 0 <= i < |entries| && entries[i].0 == key
    ensures r.Some? ==> exists i :: 0 <= i < |entries| && entries[i] == (key, r.value)
  {
    if entries == [] then None
    else if entries[0].0 == key then Some(entries[0].1)
    else
      var r := Get(entries[1..], key);
      assert forall i :: 0 < i < |entries| ==> entries[i] == entries[1..][i - 1];
      r
  }

  /** An item of `File::scan`: the trailer dictionary or one numbered object. */
  datatype ScanItem =
    | Trailer(dict: seq<(string, Primitive)>)
    | Object(plain_ref: PlainRef, content: Primitive)
}
