# IPA structural-analysis core in Dafny

IPA is a viewer for the internal structure of PDF files. This project models
its analysis core and proves properties of that model:

- the signature check that opens a file;
- the object indexer, which builds a summary list, an extended list and an
  id-to-position map from a file scan;
- the stream classifier, which fetches and inflates stream bytes and tags
  them as graphics state, ASCII text or unknown;
- the reference linker, which collects references by a recursive walk over
  the primitive tree and builds the forward and backward reference maps;
- the recovery scanner, a PDFiD-style count of 20 keywords over maximal runs
  of printable ASCII;
- the heuristic analyzer, as written;
- page text extraction and operator naming;
- the navigation state of the application;
- the UTF-16BE string display of the object viewer.

Modules follow the source files:

| module | file | source file |
|---|---|---|
| `InputFile` | input_file.dfy | src/core/input_file.rs |
| `Collector` | collector.dfy | src/core/objects/collector.rs |
| `StreamParser` | stream_parser.dfy | src/core/objects/stream_parser.rs |
| `ObjectLinker` | object_linker.dfy | src/core/objects/object_linker.rs |
| `RecoveryMode` | recovery_mode.dfy | src/core/recovery_mode.rs |
| `Analyzer` | analyzer.dfy | src/core/heuristics/analyzer.rs |
| `Pages` | pages.dfy | src/core/pages.rs |
| `Context` | context.dfy | src/core/context.rs |
| `ObjectView` | object_view.dfy | `display_string` of src/gui/views/object_view.rs |

The remaining modules stand in for what the program gets from its
libraries:

- `Primitives` is the PDF library's `Primitive` tree, `PlainRef` and `ScanItem`.
- `Sequences` is `Iterator::map` and the stable `sort_by`.
- `Formatting` is the `{}` and `{:x}` integer formats.
- `Unicode` is `String::from_utf8`, following section 3 of RFC 3629, and
  `String::from_utf16`, following section 2.1 of RFC 2781.
- `Wrappers` and `Errors` hold `Option`, `Result` and the error kinds.

The model takes the form of the code:

- Loops are methods with loop invariants, each proved against a
  specification function. `ExtractStrings` is proved equal to `Runs`,
  `Scan` to `AppendNew` of `References`, and `ExtractText` to `TextOf`.
- The in-place updates of `CoreGui` are methods of a class.
- Values the program clones and moves, such as `SingleObjectExtended`, are
  datatypes.
- Functions from the outside world are parameters:
  - `rawData` is the PDF library's stream fetch;
  - `inflate` is the zlib decoder;
  - `operations` is the library's content-operator resolution.
- The file system is left out. A file's contents arrive as a byte sequence.

The model follows the code as written, including these behaviours that the
code's own comments and names do not suggest:

- `RecoveryMode::parse` opens the file through `InputFile::new`, so it fails
  on a file that does not start with `%PDF` or is shorter than four bytes. It
  also scans only the bytes after the signature. It is not an
  infallible scan of the whole buffer.
- `startxref` contains `xref`, so a file whose only keyword is `startxref`
  also counts 1 for `xref` (`RecoveryMode.NestedKeywords`).
- A stream that inflates to the single byte `q` is classified `Unknown`.
  The length test is `> 1` (`StreamParser.InflatedSingleQIsUnknown`).
- A failure to fetch or inflate one stream aborts the whole of
  `StreamParser::parse` through `?`.
- The analyzer's last-object check looks up position `len`, which never
  exists, so it never reports anything (`Analyzer.Start`).
- `objects` and `objects_extended` keep duplicate ids: two identical object
  items give lists of length 2 (`Collector.DuplicateIdsKept`). The id map is
  then a bijection onto the positions only when the ids are distinct
  (`Collector.IndexMapOfDistinct`).
- `from_objects` has keys only for the indexed ids. An id that is
  referenced but not indexed gets no backward entry.

## Model

| member | source | states |
|---|---|---|
| InputFile.New | src/core/input_file.rs:19-43 | success exactly when the first four bytes are `%PDF`; an I/O error for a file shorter than four bytes; otherwise the "Not a PDF file" error naming the four bytes; on success the path is unchanged and the buffer is the file after its first four bytes |
| InputFile.SignatureMessage | src/core/input_file.rs:30-36 | the mismatch message is the fixed prefix `Not a PDF file, obtained ` followed only by spaces and digits |
| InputFile.HexBytes | src/core/input_file.rs:30-36 | the four `{:x}` renderings joined by spaces use only spaces and digits and are at least seven characters long |
| InputFile.SignatureMessageDeterminesBytes | src/core/input_file.rs:30-36 | the mismatch message determines the four bytes it reports: different bytes give different messages |
| InputFile.HexBytesInjective | src/core/input_file.rs:30-36 | the four space-separated `{:x}` renderings determine the four bytes |
| InputFile.LowerHexInjective | src/core/input_file.rs:30-36 | `{:x}` of two numbers is equal only when the numbers are |
| InputFile.JoinInjective | src/core/input_file.rs:30-36 | four words joined by spaces split back uniquely when the first three contain no space |
| InputFile.SignatureOnly | src/core/input_file.rs:19-43 | a file that is exactly `%PDF` is accepted with an empty buffer |
| Formatting.Radix | src/core/input_file.rs:30-36 | the rendering is non-empty, uses only digits of the base and has no leading zero |
| Formatting.RadixRoundTrip | src/core/pages.rs:21 | reading a rendered number back gives the number |
| Collector.NewSingleObjectExtended | src/core/objects/collector.rs:114-129 | a fresh extended object has the given id, name, reference and content, no raw buffer, no classification and no references |
| Collector.SingleObjectExtended.InsertRawBuffer | src/core/objects/collector.rs:132-134 | sets the raw buffer to the given bytes and leaves every other field unchanged |
| Collector.SingleObjectExtended.InsertFileContent | src/core/objects/collector.rs:137-139 | sets the classification and leaves every other field unchanged |
| Collector.Summary | src/core/objects/collector.rs:76-80 | the summary entry of an object item carries its id and the debug name of its content |
| Collector.Extended | src/core/objects/collector.rs:81-84 | the extended entry carries the id, the `"{id} – {debug name}"` name, the reference and the content, and nothing else |
| Collector.CompleteName | src/core/objects/collector.rs:81 | `"{id} – {name}"`: the decimal id, a space, an en dash, a space and the debug name (no contract; `CompleteNameInjective` states its property) |
| Collector.CompleteNameInjective | src/core/objects/collector.rs:81 | the id and the debug name can be read back from the complete name: equal names come from equal ids and equal debug names |
| Collector.IndexMap | src/core/objects/collector.rs:91-95 | the map's keys are the ids of the list; each id maps to a position holding that id, and no later position holds it (the last one wins) |
| Collector.IndexMapOfDistinct | src/core/objects/collector.rs:91-95 | with distinct ids every position `i` is the image of the id at `i`, so the map is a bijection onto the positions |
| Collector.ObjectItemsAppend | src/core/objects/collector.rs:70-87 | the object items of a concatenated scan are the concatenation of the object items |
| Collector.TrailerIgnored | src/core/objects/collector.rs:72-74 | a trailer item anywhere in the scan contributes no object item |
| Collector.TrailerNotIndexed | src/core/objects/collector.rs:67-101 | removing a trailer item from a scan leaves the whole index unchanged |
| Collector.BuildEmpty | src/core/objects/collector.rs:67-101 | an empty scan gives empty lists and an empty map |
| Collector.DuplicateIdsKept | src/core/objects/collector.rs:89-95 | two identical object items give both lists length 2, and the map has the one key, sent to the last position |
| Collector.SortedItems | src/core/objects/collector.rs:89-90 | both lists are the one stably sorted item sequence, seen as summaries and as extended entries |
| Collector.BuildShape | src/core/objects/collector.rs:70-90 | the lists have one entry per object item; each is sorted by id and is a permutation of the entries built in scan order; the lists agree position by position on id, and on name up to the `"{id} – "` prefix |
| Collector.NewStep | src/core/objects/collector.rs:70-87 | one pass of the loop extends both lists by nothing for a trailer and by one entry for an object |
| Collector.Build | src/core/objects/collector.rs:67-101 | both lists have one entry per object item of the scan, are sorted by id, and are permutations of the summary and extended entries of those items |
| Collector.New | src/core/objects/collector.rs:67-101 | the result is the index built from the scan; parallel lists of the object-item count, sorted by id, agreeing on ids; the map sends each key to a position with that id and each id to its last position |
| Sequences.Sort | src/core/objects/collector.rs:89-90 | `sort_by` on a key gives a sorted permutation of its input |
| Sequences.SortIsStable | src/core/objects/collector.rs:89-90 | elements that share a key keep their relative order |
| Sequences.InsertWithKey | src/core/objects/collector.rs:89-90 | inserting puts the new element before the elements that share its key |
| Sequences.SortMap | src/core/objects/collector.rs:89-90 | sorting commutes with a map that preserves the key, so lists built in parallel and sorted separately stay parallel |
| Sequences.InsertMap | src/core/objects/collector.rs:89-90 | one insertion step commutes with a key-preserving map |
| Sequences.MapSorted | src/core/objects/collector.rs:89-90 | a key-preserving map keeps a sorted list sorted |
| Sequences.FlatMapAppend | src/core/pages.rs:166-200 | a fold that concatenates per-element text distributes over concatenation |
| StreamParser.IsAscii | src/core/objects/stream_parser.rs:14-16 | true exactly when every byte is below 0x80, control bytes included |
| StreamParser.IdentifyDataOnBuffer | src/core/objects/stream_parser.rs:19-34 | never fails and always carries the input bytes; `Unknown` for length at most 1; `GraphicState` for first byte `q`; `TextASCII` with one character per byte for other all-ASCII buffers; `Unknown` otherwise |
| Unicode.AsciiIsUtf8 | src/core/objects/stream_parser.rs:26 | bytes below 0x80 are valid UTF-8 and decode to the characters with those code points |
| StreamParser.DecompressBuffer | src/core/objects/stream_parser.rs:37-63 | the decoder runs only for the name `FlateDecode` on a buffer starting 0x78 0xDA or 0x78 0x9C; every other filter or buffer passes through unchanged |
| StreamParser.Enrich | src/core/objects/stream_parser.rs:121-153 | a non-stream object is returned unchanged; a stream object fails exactly when its bytes cannot be fetched or inflated; otherwise it gains its raw bytes and the classification of its decoded bytes, and nothing else changes |
| StreamParser.Parse | src/core/objects/stream_parser.rs:113-156 | succeeds exactly when every object can be enriched; then one enriched object per input, in order; otherwise the error of the first object that fails |
| StreamParser.HelloIsText | src/core/objects/stream_parser.rs:25-28 | the unfiltered bytes of `Hello` are ASCII text `Hello` |
| StreamParser.InflatedSingleQIsUnknown | src/core/objects/stream_parser.rs:21-24 | a stream that inflates to the single byte `q` is classified `Unknown` |
| ObjectLinker.AppendNewConcat | src/core/objects/object_linker.rs:17-42 | collecting two runs of references one after the other is collecting their concatenation |
| ObjectLinker.Push | src/core/objects/object_linker.rs:36-38 | `if !acc.contains(id) { acc.push(id) }` (no contract; `PushSpec` states its property) |
| ObjectLinker.PushSpec | src/core/objects/object_linker.rs:36-38 | one step only appends to the list, adds exactly the id, and keeps a duplicate-free list duplicate-free |
| ObjectLinker.AppendNewSpec | src/core/objects/object_linker.rs:36-38 | collecting only appends, so the old list is a prefix; keeps a duplicate-free list duplicate-free; adds exactly the collected ids |
| ObjectLinker.AppendNewFirstOccurrence | src/core/objects/object_linker.rs:29-39 | from an empty list the result lists each referenced id once, in order of first occurrence |
| ObjectLinker.DuplicateReferencesCollapse | src/core/objects/object_linker.rs:29-39 | references 3, 7, 3, 9 give [3, 7, 9] |
| ObjectLinker.Scan | src/core/objects/object_linker.rs:17-42 | the list after the walk is the old list extended by the new reference leaves of the tree, depth first; only references contribute; streams, dictionaries and arrays are walked into |
| ObjectLinker.ScanEntries | src/core/objects/object_linker.rs:19-28 | the loop over dictionary values collects the references of the values in order |
| ObjectLinker.ScanEntry | src/core/objects/object_linker.rs:20-21 | one dictionary entry contributes the references of its value |
| ObjectLinker.ForwardMap | src/core/objects/object_linker.rs:50-55 | the forward map has a key for every object id and no other |
| ObjectLinker.ForwardMapLastWins | src/core/objects/object_linker.rs:50-55 | each id maps to the collected references of the last object with that id |
| ObjectLinker.Parents | src/core/objects/object_linker.rs:59-66 | the parents found for an id are duplicate-free, and they are exactly the ids whose forward list contains it |
| ObjectLinker.Connect | src/core/objects/object_linker.rs:45-75 | the forward map is built as above; the backward map has the same keys; each backward list is duplicate-free and holds exactly the ids whose forward list contains the key |
| ObjectLinker.Bidirectional | src/core/objects/object_linker.rs:58-68 | for indexed ids a and b: a is in the backward list of b exactly when b is in the forward list of a |
| Unicode.AsciiChars | src/core/recovery_mode.rs:31 | `char::from` on bytes below 0x80 keeps each byte as the character with that code point |
| RecoveryMode.RunsFromWellFormed | src/core/recovery_mode.rs:30-40 | every extracted string is non-empty and contains only bytes 0x20 to 0x7E |
| RecoveryMode.RunsFromConcat | src/core/recovery_mode.rs:25-41 | joined back together, the extracted strings are exactly the printable bytes of the input, in order |
| RecoveryMode.RunsFromSeparator | src/core/recovery_mode.rs:32-35 | a non-printable byte ends the current string: what comes before it and what comes after it are split independently |
| RecoveryMode.RunsFromPrintable | src/core/recovery_mode.rs:30-31 | strings are maximal: a stretch of printable bytes becomes one string |
| RecoveryMode.ConcatAppend | src/core/recovery_mode.rs:25-41 | joining distributes over concatenation |
| RecoveryMode.RunsEmpty | src/core/recovery_mode.rs:25-41 | an empty buffer yields no strings |
| RecoveryMode.Runs | src/core/recovery_mode.rs:30-40 | every run is non-empty and printable, and the runs joined back are exactly the printable characters of the buffer, in order |
| RecoveryMode.ExtractStrings | src/core/recovery_mode.rs:21-41 | the byte loop and its final flush yield exactly the maximal printable runs of the buffer |
| RecoveryMode.ContainsAt | src/core/recovery_mode.rs:71 | `contains` holds exactly when the keyword occurs at some position |
| RecoveryMode.ContainsTransitive | src/core/recovery_mode.rs:71 | a string that contains `m` contains everything `m` contains |
| RecoveryMode.Contains | src/core/recovery_mode.rs:71 | `str::contains` as a recursive predicate (no contract; `ContainsAt` states it is an occurrence at some position) |
| RecoveryMode.CountContaining | src/core/recovery_mode.rs:68-75 | each string counts at most once, so a count is at most the number of strings |
| RecoveryMode.CountMonotone | src/core/recovery_mode.rs:68-75 | a keyword contained in another is counted at least as often |
| RecoveryMode.NestedKeywords | src/core/recovery_mode.rs:43-75 | `xref` counts at least as often as `startxref`, `obj` as `endobj`, and `stream` as `endstream` |
| RecoveryMode.KeywordFrequencies | src/core/recovery_mode.rs:43-76 | the keys are exactly the 20 keywords, and each value is the number of strings containing its keyword |
| RecoveryMode.Parse | src/core/recovery_mode.rs:18-82 | succeeds exactly when the signature check does, with its error otherwise; on success it keeps the opened file and counts the keywords over the runs of the bytes after the signature |
| RecoveryMode.SignatureOnlyCountsNothing | src/core/recovery_mode.rs:66-76 | a file holding only the signature gives every keyword the count 0 |
| Analyzer.Get | src/core/heuristics/analyzer.rs:31 | `Vec::get` finds an element exactly when the index is below the length, and then it is the element at that index |
| Analyzer.ApplyForPages | src/core/heuristics/analyzer.rs:21-23 | the page heuristics never fail and report nothing |
| Analyzer.ApplyForObjects | src/core/heuristics/analyzer.rs:26-43 | the lookup at position `len` always misses, so the object heuristics report nothing for every catalogue |
| Analyzer.Start | src/core/heuristics/analyzer.rs:13-18 | never fails, and its findings are empty for every input, the empty catalogue included |
| Pages.KindIndex | src/core/pages.rs:78-122 | each ignored operator variant gets a number below 42 |
| Pages.VariantIndex | src/core/pages.rs:77-123 | each of the 45 operator variants gets a number below 45 |
| Pages.GetNameTable | src/core/pages.rs:76-126 | the name of an operator is the name listed for its variant number |
| Pages.GetName | src/core/pages.rs:76-126 | the name of each of the 45 variants (no contract; `GetNameTable`, `NameIndexInverse` and `GetNameInjective` state its properties) |
| Pages.NameIndexInverse | src/core/pages.rs:76-126 | the variant number can be read back from the name |
| Pages.VariantIndexIsConstructor | src/core/pages.rs:76-126 | two operators get the same variant number exactly when they are built by the same constructor, with the same kind for the ignored operators |
| Pages.GetNameInjective | src/core/pages.rs:76-126 | two operators get the same name exactly when they have the same variant number, and exactly when they are built by the same constructor (with the same kind for the ignored operators) |
| Pages.TextOfAppend | src/core/pages.rs:164-202 | extracting the text of a concatenation concatenates the extracted texts |
| Pages.ItemsTextAppend | src/core/pages.rs:180-197 | the text of a `TJ` array distributes over concatenation of its elements |
| Pages.OpText | src/core/pages.rs:166-199 | the text of one operator: `\n`, the shown string, the `TJ` text, or nothing (no contract; `TextOfSingle` and `NonTextOpsAddNothing` state its properties) |
| Pages.TextOf | src/core/pages.rs:164-202 | the concatenated texts of the operators (no contract; `TextOfAppend` and `ExtractText` state its properties) |
| Pages.TextOfSingle | src/core/pages.rs:166-199 | a single operator contributes exactly its own text |
| Pages.NonTextOpsAddNothing | src/core/pages.rs:168-198 | operators other than the three text operators contribute nothing |
| Pages.ExtractText | src/core/pages.rs:164-202 | the loop yields the operators' texts in order: `\n` for a newline, the string for `Tj`, a space and the string for each `TJ` string, two spaces for a positive spacing |
| Pages.ExtendedPage | src/core/pages.rs:131-161 | the id and page are kept and the object list is empty; with no contents or unresolvable operations there are no operations and no text; otherwise one named operation per resolved operator, in order, and the extracted text |
| Pages.NewSinglePagesExtended | src/core/pages.rs:131-161 | builds the page that `ExtendedPage` describes |
| Pages.PageNameInjective | src/core/pages.rs:21 | `"Page {i}"` names are distinct for distinct `i` |
| Pages.PagesListNew | src/core/pages.rs:17-30 | parallel lists of the input's length; page `i` has id `i` and name `"Page i"`, and its extended page is built from the `i`-th input page |
| Pages.PageName | src/core/pages.rs:21 | `"Page {i}"` (no contract; `PageNameInjective` states its property) |
| Context.CoreGui.constructor | src/core/context.rs:133-140 | stores the given id, view and object subview, and sets the page subview to its default |
| Context.ViewFor | src/core/context.rs:113-119 | a button id never selects the page view |
| Context.CoreApp.constructor | src/core/context.rs:84-93 | stores the parts of the application state |
| Context.CoreApp.SwitchObject | src/core/context.rs:97-102 | shows object `i` exactly when the summary list has a position `i`, and otherwise changes nothing; the subviews are untouched |
| Context.CoreApp.SwitchPage | src/core/context.rs:105-108 | shows page `i`, unconditionally; the subviews are untouched |
| Context.CoreApp.ChangeView | src/core/context.rs:111-122 | nothing changes without a click; a click selects Summary, Heuristics, Trailer or ObjectView for 0 to 3 and Welcome otherwise; the id and the subviews are untouched |
| Context.CoreApp.SwitchId | src/core/context.rs:126-128 | changes the id and nothing else |
| ObjectView.FieldPrefix | src/gui/views/object_view.rs:206-209 | empty for the empty field, and the field followed by `": "` otherwise |
| ObjectView.Units | src/gui/views/object_view.rs:215-217 | `len/2 - 1` code units, unit `i` being bytes `2i+2` and `2i+3` read big-endian; the byte order mark is skipped |
| ObjectView.DisplayString | src/gui/views/object_view.rs:203-226 | panics exactly when the string has a byte order mark and its units are not valid UTF-16; decodes when there is a mark; otherwise shows the raw string; the prefix is always `FieldPrefix` |
| ObjectView.UnitsRoundTrip | src/gui/views/object_view.rs:215-217 | the units read after a byte order mark are the units that were written |
| ObjectView.OddByteIgnored | src/gui/views/object_view.rs:215 | an odd trailing byte does not change the units |
| ObjectView.DisplayUtf16RoundTrip | src/gui/views/object_view.rs:211-219 | any non-empty text, written as UTF-16BE after a byte order mark, is displayed as that text |
| Unicode.Utf16RoundTrip | src/gui/views/object_view.rs:219 | every text survives a round trip through UTF-16 |
| ObjectView.UnpairedSurrogatePanics | src/gui/views/object_view.rs:219 | a lone low surrogate after the byte order mark makes the decoder panic |

## Left out

- File I/O: `File::open`, `read_exact` and `read_to_end` are outside the model. A file is its byte sequence, and every I/O failure except a short read is left out.
- The PDF library: parsing of `Primitive`, `raw_data`, `File::scan`, `pages`
  and `content.operations` are parameters or inputs. A stream carries only a
  handle to its bytes.
- zlib inflation is the parameter `inflate`. Whatever it returns is taken as given.
- Floating point: `Primitive::Number` has no payload, operator operands are
  not modelled, and a `TJ` spacing is reduced to whether it is positive.
- `CoreApp::new` (src/core/context.rs:52-94) only sequences library calls.
  Its order is recovery and signature check first, then the object index,
  the stream classifier, the page list, the linker over the classified
  objects, and the heuristics last. The model has the resulting
  `CoreApp.constructor` only.
- The object graph (src/core/objects/graph.rs) holds no behaviour, and `graph.rs` is not part of this model.
- Logging (`println!`, `warn!`, `info!`) and the commented-out decoder code in src/core/objects/stream_parser.rs.
- The user interface: everything in src/gui except the string logic of `display_string`, and src/main.rs.
- Collector.New: the `Result` of `ObjectsList::new` is dropped, because both constructors it calls return `Ok`.
- Pages.PagesListNew: the `Result` of `PagesList::new` is dropped, because nothing in it can fail.
- ObjectLinker.Connect: the `Result` of `ObjectLinker::connect` is dropped, because it always returns `Ok`.
- ObjectLinker.Connect: the order of each backward list follows `HashMap` iteration, so it is specified by its members only.
- ObjectView.DisplayString: the `{:?}` rendering of the label is not modelled. The result names what is shown instead: the decoded text or the raw string.
- Pages.ExtractText: the `{:?}` rendering of a string that cannot be decoded is an input of the model (`PdfText.debug`).
- Context.CoreApp.constructor: the parsed file of the PDF library and the object graph are not fields of the model.
- Integer widths: ids are `u64` and positions `usize` in the source. They are unbounded here, because no arithmetic is done on them.
