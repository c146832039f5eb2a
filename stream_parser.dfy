/** The stream classifier (src/core/objects/stream_parser.rs): fetches the
    bytes of every stream object, inflates `FlateDecode` streams that carry
    a zlib header, and tags the result as graphics state, ASCII text or
    unknown.  The PDF library's `raw_data` and the zlib decoder are outside
    the program and arrive as the function parameters `rawData` and
    `inflate`. */
module StreamParser {

  import opened Wrappers
  import opened Primitives
  import opened Errors
  import opened Collector
  import Unicode

  /** `is_ascii`: `buffer.iter().all(|u| u.is_ascii())`. */
  function IsAscii(buffer: seq<byte>): (r: bool)
    ensures r <==> forall i :: 0 <= i < |buffer| ==> buffer[i] < 0x80
  {
    if buffer == [] then true
    else
      assert forall i :: 0 < i < |buffer| ==> buffer[i] == buffer[1..][i - 1];
      buffer[0] < 0x80 && IsAscii(buffer[1..])
  }

  /** The bytes every classification carries. */
  function Payload(content: FileContent): seq<byte> {
    match content
    case Unknown(b) => b
    case GraphicState(b) => b
    case TextASCII(b, _) => b
  }

  /** `identify_data_on_buffer`.  The `?` on `String::from_utf8` is kept,
      and the contract shows it is never taken. */
  function IdentifyDataOnBuffer(buffer: seq<byte>): (r: Result<FileContent, Error>)
    ensures r.Success? && Payload(r.value) == buffer
    ensures |buffer| <= 1 ==> r.value == Unknown(buffer)
    ensures |buffer| > 1 && buffer[0] == 113 ==> r.value == GraphicState(buffer)
    ensures |buffer| > 1 && buffer[0] != 113 && IsAscii(buffer) ==>
              r.value.TextASCII? && |r.value.text| == |buffer|
              && forall i :: 0 <= i < |buffer| ==> r.value.text[i] as int == buffer[i]
    ensures |buffer| > 1 && buffer[0] != 113 && !IsAscii(buffer) ==> r.value == Unknown(buffer)
  {
    if |buffer| > 1 then
      if buffer[0] == 113 then
        Success(GraphicState(buffer))
      else if IsAscii(buffer) then
        Unicode.AsciiIsUtf8(buffer);
        match Unicode.FromUtf8(buffer)
        case Failure(position) => Failure(Utf8(position))
        case Success(str) => Success(TextASCII(buffer, str))
      else
        Success(Unknown(buffer))
    else
      Success(Unknown(buffer))
  }

  /** The two zlib headers that are recognised (CMF 0x78 with FLG 0xDA or 0x9C). */
  predicate HasZlibHeader(buffer: seq<byte>) {
    |buffer| >= 2 && buffer[0] == 0x78 && (buffer[1] == 0xDA || buffer[1] == 0x9C)
  }

  /** `decompress_buffer`: only a `FlateDecode` name filter on a buffer with
      a zlib header goes through the decoder; anything else passes through. */
  function DecompressBuffer(filter: Primitive, buffer: seq<byte>,
                            inflate: seq<byte> -> Result<seq<byte>, Error>): (r: Result<seq<byte>, Error>)
    ensures filter == Name("FlateDecode") && HasZlibHeader(buffer) ==> r == inflate(buffer)
    ensures !(filter == Name("FlateDecode") && HasZlibHeader(buffer)) ==> r == Success(buffer)
  {
    match filter
    case Name(filter_name) =>
      if filter_name == "FlateDecode" then
        if |buffer| >= 2 && buffer[0] == 0x78 && (buffer[1] == 0xDA || buffer[1] == 0x9C) then
          inflate(buffer)
        else
          Success(buffer)
      else
        Success(buffer)
    case _ => Success(buffer)
  }

  /** The classification of a buffer; `IdentifyDataOnBuffer` never fails. */
  function Classify(buffer: seq<byte>): FileContent {
    IdentifyDataOnBuffer(buffer).value
  }

  /** What one pass of the loop in `parse` makes of one object.  Non-stream
      objects are left alone; a stream object gains exactly its raw bytes
      and the classification of its decoded bytes; it fails only when its
      bytes cannot be fetched or inflated. */
  function Enrich(obj: SingleObjectExtended,
                  rawData: PdfStream -> Result<seq<byte>, Error>,
                  inflate: seq<byte> -> Result<seq<byte>, Error>): (r: Result<SingleObjectExtended, Error>)
    ensures !obj.object_content.Stream? ==> r == Success(obj)
    ensures obj.object_content.Stream? ==>
              var str := obj.object_content.stream;
              && (r.Failure? <==> rawData(str).Failure? || DecodedBytes(str, rawData(str).value, inflate).Failure?)
              && (r.Success? ==>
                    && r.value.raw_buffer == Some(rawData(str).value)
                    && r.value.file_content == Some(Classify(DecodedBytes(str, rawData(str).value, inflate).value))
                    && r.value.(raw_buffer := obj.raw_buffer, file_content := obj.file_content) == obj)
  {
    match obj.object_content
    case Stream(str) =>
      var buffer :- rawData(str);
      var with_buffer := obj.InsertRawBuffer(buffer);
      (match Get(str.info, "Filter")
       case Some(filter_name) =>
         var decompressed :- DecompressBuffer(filter_name, buffer, inflate);
         Success(with_buffer.(file_content := Some(Classify(decompressed))))
       case None =>
         Success(with_buffer.(file_content := Some(Classify(buffer)))))
    case _ => Success(obj)
  }

  /** The bytes that get classified: the raw bytes, inflated when the stream
      names a filter that `DecompressBuffer` acts on. */
  function DecodedBytes(str: PdfStream, raw: seq<byte>,
                        inflate: seq<byte> -> Result<seq<byte>, Error>): Result<seq<byte>, Error> {
    match Get(str.info, "Filter")
    case Some(filter_name) => DecompressBuffer(filter_name, raw, inflate)
    case None => Success(raw)
  }

  /** `parse`: one output object per input, in order, or the first error. */
  method Parse(objects: seq<SingleObjectExtended>,
               rawData: PdfStream -> Result<seq<byte>, Error>,
               inflate: seq<byte> -> Result<seq<byte>, Error>)
    returns (r: Result<seq<SingleObjectExtended>, Error>)
    ensures r.Success? <==> forall i :: 0 <= i < |objects| ==> Enrich(objects[i], rawData, inflate).Success?
    ensures r.Success? ==>
              |r.value| == |objects|
              && forall i :: 0 <= i < |objects| ==> r.value[i] == Enrich(objects[i], rawData, inflate).value
    ensures r.Failure? ==>
              exists i :: 0 <= i < |objects|
                && (forall j :: 0 <= j < i ==> Enrich(objects[j], rawData, inflate).Success?)
                && Enrich(objects[i], rawData, inflate) == Failure(r.error)
  {
    var new_objects: seq<SingleObjectExtended> := [];
    for i := 0 to |objects|
      invariant |new_objects| == i
      invariant forall j :: 0 <= j < i ==>
                  Enrich(objects[j], rawData, inflate).Success?
                  && new_objects[j] == Enrich(objects[j], rawData, inflate).value
    {
      var obj := objects[i];
      match objects[i].object_content {
        case Stream(str) =>
          var fetched := rawData(str);
          if fetched.Failure? {
            return Failure(fetched.error);
          }
          var buffer := fetched.value;
          obj := obj.InsertRawBuffer(buffer);
          match Get(str.info, "Filter") {
            case Some(filter_name) =>
              var decompressed := DecompressBuffer(filter_name, buffer, inflate);
              if decompressed.Failure? {
                return Failure(decompressed.error);
              }
              var identified := IdentifyDataOnBuffer(decompressed.value);
              obj := obj.(file_content := Some(identified.value));
            case None =>
              var identified := IdentifyDataOnBuffer(buffer);
              obj := obj.(file_content := Some(identified.value));
          }
        case _ =>
      }
      new_objects := new_objects + [obj];
    }
    r := Success(new_objects);
  }

  /** Raw, unfiltered `Hello` is ASCII text. */
  lemma HelloIsText()
    ensures IdentifyDataOnBuffer([72, 101, 108, 108, 111])
            == Success(TextASCII([72, 101, 108, 108, 111], "Hello"))
  {
    var b: seq<byte> := [72, 101, 108, 108, 111];
    var r := IdentifyDataOnBuffer(b);
    assert r.value.TextASCII?;
    assert r.value.text == "Hello";
  }

  /** A stream that inflates to the single byte `q` is too short for the
      graphics-state tag and is classified `Unknown`. */
  lemma InflatedSingleQIsUnknown(str: PdfStream, raw: seq<byte>,
                                 inflate: seq<byte> -> Result<seq<byte>, Error>)
    requires Get(str.info, "Filter") == Some(Name("FlateDecode"))
    requires HasZlibHeader(raw) && inflate(raw) == Success([113])
    ensures DecodedBytes(str, raw, inflate) == Success([113])
    ensures Classify(DecodedBytes(str, raw, inflate).value) == Unknown([113])
  {
  }
}
