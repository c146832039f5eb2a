/** The recovery scanner (src/core/recovery_mode.rs), the PDFiD-style
    fallback: the file's bytes are split into maximal runs of printable
    ASCII, and for each of twenty keywords the runs containing it are
    counted. */
module RecoveryMode {

  import opened Wrappers
  import opened Primitives
  import opened Errors
  import InputFile
  import Unicode

  datatype RecoveryMode = RecoveryMode(input_file: InputFile.InputFile, frequencies: map<string, nat>)

  /** `byt.is_ascii() && !byt.is_ascii_control()`: 0x20 through 0x7E. */
  predicate Printable(b: byte) {
    b < 0x80 && !(b < 0x20 || b == 0x7F)
  }

  predicate PrintableText(s: string) {
    forall i :: 0 <= i < |s| ==> 0x20 <= s[i] as int <= 0x7E
  }

  /** The printable bytes of `b`, in order, as characters. */
  function PrintableChars(b: seq<byte>): string {
    if b == [] then []
    else (if Printable(b[0]) then [b[0] as char] else []) + PrintableChars(b[1..])
  }

  /** The runs still to come when `current` is the run being collected and
      `rest` the bytes not yet read. */
  function RunsFrom(current: string, rest: seq<byte>): seq<string>
    decreases |rest|
  {
    if rest == [] then
      if current == [] then [] else [current]
    else if Printable(rest[0]) then
      RunsFrom(current + [rest[0] as char], rest[1..])
    else if current != [] then
      [current] + RunsFrom([], rest[1..])
    else
      RunsFrom([], rest[1..])
  }

  /** The maximal runs of printable bytes of `buffer`: non-empty printable
      strings that, joined, are the printable bytes in order. */
  function Runs(buffer: seq<byte>): (runs: seq<string>)
    ensures forall i :: 0 <= i < |runs| ==> runs[i] != [] && PrintableText(runs[i])
    ensures Concat(runs) == PrintableChars(buffer)
  {
    RunsFromWellFormed([], buffer);
    RunsFromConcat([], buffer);
    RunsFrom([], buffer)
  }

  function Concat(ss: seq<string>): string {
    if ss == [] then [] else ss[0] + Concat(ss[1..])
  }

  lemma ConcatAppend(a: seq<string>, b: seq<string>)
    ensures Concat(a + b) == Concat(a) + Concat(b)
  {
    if a == [] {
      assert a + b == b;
    } else {
      assert (a + b)[0] == a[0] && (a + b)[1..] == a[1..] + b;
      ConcatAppend(a[1..], b);
    }
  }

  /** Every run is non-empty and printable. */
  lemma {:induction false} RunsFromWellFormed(current: string, rest: seq<byte>)
    requires PrintableText(current)
    ensures forall i :: 0 <= i < |RunsFrom(current, rest)| ==>
              RunsFrom(current, rest)[i] != [] && PrintableText(RunsFrom(current, rest)[i])
    decreases |rest|
  {
    if rest != [] {
      if Printable(rest[0]) {
        RunsFromWellFormed(current + [rest[0] as char], rest[1..]);
      } else {
        RunsFromWellFormed([], rest[1..]);
      }
    }
  }

  /** Joined back together the runs are exactly the printable bytes. */
  lemma {:induction false} RunsFromConcat(current: string, rest: seq<byte>)
    ensures Concat(RunsFrom(current, rest)) == current + PrintableChars(rest)
    decreases |rest|
  {
    if rest == [] {
      assert Concat([current]) == current + Concat([]);
    } else if Printable(rest[0]) {
      RunsFromConcat(current + [rest[0] as char], rest[1..]);
    } else {
      RunsFromConcat([], rest[1..]);
      if current != [] {
        ConcatAppend([current], RunsFrom([], rest[1..]));
        assert Concat([current]) == current + Concat([]);
      }
    }
  }

  /** A non-printable byte ends the run: what comes before and after it is
      split independently. */
  lemma {:induction false} RunsFromSeparator(current: string, a: seq<byte>, sep: byte, b: seq<byte>)
    requires !Printable(sep)
    ensures RunsFrom(current, a + [sep] + b) == RunsFrom(current, a) + Runs(b)
    decreases |a|
  {
    var l := a + [sep] + b;
    if a == [] {
      assert l[0] == sep && l[1..] == b;
    } else {
      assert l[0] == a[0] && l[1..] == a[1..] + [sep] + b;
      if Printable(a[0]) {
        RunsFromSeparator(current + [a[0] as char], a[1..], sep, b);
      } else {
        RunsFromSeparator([], a[1..], sep, b);
      }
    }
  }

  /** Runs are maximal: bytes that are all printable form one run. */
  lemma {:induction false} RunsFromPrintable(current: string, p: seq<byte>)
    requires forall i :: 0 <= i < |p| ==> Printable(p[i]) && p[i] < 0x80
    requires current + Unicode.AsciiChars(p) != []
    ensures RunsFrom(current, p) == [current + Unicode.AsciiChars(p)]
    decreases |p|
  {
    if p == [] {
      assert current + Unicode.AsciiChars(p) == current;
    } else {
      assert Unicode.AsciiChars(p) == [p[0] as char] + Unicode.AsciiChars(p[1..]);
      assert current + Unicode.AsciiChars(p) == current + [p[0] as char] + Unicode.AsciiChars(p[1..]);
      RunsFromPrintable(current + [p[0] as char], p[1..]);
    }
  }

  lemma RunsEmpty()
    ensures Runs([]) == []
  {
  }

  /** The byte loop of `parse`, with its final flush. */
  method ExtractStrings(buffer: seq<byte>) returns (strings: seq<string>)
    ensures strings == Runs(buffer)
  {
    strings := [];
    var stringa: string := "";
    for i := 0 to |buffer|
      invariant strings + RunsFrom(stringa, buffer[i..]) == Runs(buffer)
    {
      var byt := buffer[i];
      assert buffer[i..][0] == byt && buffer[i..][1..] == buffer[i + 1..];
      if byt < 0x80 && !(byt < 0x20 || byt == 0x7F) {
        stringa := stringa + [byt as char];
      } else if stringa != [] {
        strings := strings + [stringa];
        stringa := "";
      }
    }
    if stringa != [] {
      strings := strings + [stringa];
    }
  }

  /** The twenty PDFiD keywords, in the order `parse` lists them. */
  const KEYWORDS: seq<string> := [
    "obj", "endobj", "stream", "endstream", "xref", "trailer", "startxref",
    "/Page", "/Encrypt", "/ObjStm", "/JS", "/JavaScript", "/AA",
    "/OpenAction", "/AcroForm", "/JBIG2Decode", "/RichMedia", "/Launch",
    "/EmbeddedFile", "/XFA"]

  /** `str::contains`: `k` occurs in `s` as a contiguous substring. */
  predicate Contains(s: string, k: string)
    decreases |s|
  {
    (|k| <= |s| && s[..|k|] == k) || (s != [] && Contains(s[1..], k))
  }

  /** `k` occurs in `s` at position `i`. */
  predicate OccursAt(s: string, k: string, i: nat) {
    i + |k| <= |s| && s[i..i + |k|] == k
  }

  lemma {:induction false} ContainsAt(s: string, k: string)
    ensures Contains(s, k) <==> exists i: nat :: OccursAt(s, k, i)
    decreases |s|
  {
    if s != [] {
      ContainsAt(s[1..], k);
      if exists i: nat :: OccursAt(s, k, i) {
        var i: nat :| OccursAt(s, k, i);
        if 0 < i {
          assert s[1..][i - 1..i - 1 + |k|] == s[i..i + |k|];
          assert OccursAt(s[1..], k, i - 1);
        }
      }
      if Contains(s[1..], k) {
        var i: nat :| OccursAt(s[1..], k, i);
        assert s[i + 1..i + 1 + |k|] == s[1..][i..i + |k|];
        assert OccursAt(s, k, i + 1);
      }
      if |k| <= |s| && s[..|k|] == k {
        assert OccursAt(s, k, 0);
      }
    } else {
      if exists i: nat :: OccursAt(s, k, i) {
        var i: nat :| OccursAt(s, k, i);
        assert |k| == 0;
      }
      if |k| == 0 {
        assert OccursAt(s, k, 0);
      }
    }
  }

  /** A string containing `m` contains everything `m` contains. */
  lemma ContainsTransitive(s: string, m: string, k: string)
    requires Contains(s, m) && Contains(m, k)
    ensures Contains(s, k)
  {
    ContainsAt(s, m);
    ContainsAt(m, k);
    ContainsAt(s, k);
    var i: nat :| OccursAt(s, m, i);
    var j: nat :| OccursAt(m, k, j);
    assert m == s[i..i + |m|];
    forall t | 0 <= t < |k| ensures s[i + j + t] == k[t] {
      assert k[t] == m[j + t] == s[i..i + |m|][j + t];
    }
    assert s[i + j..i + j + |k|] == k;
    assert OccursAt(s, k, i + j);
  }

  /** The number of strings that contain `keyword`. */
  function CountContaining(strings: seq<string>, keyword: string): (n: nat)
    ensures n <= |strings|
  {
    if strings == [] then 0
    else CountContaining(strings[..|strings| - 1], keyword)
         + (if Contains(strings[|strings| - 1], keyword) then 1 else 0)
  }

  /** A keyword contained in another is counted at least as often. */
  lemma {:induction false} CountMonotone(strings: seq<string>, inner: string, outer: string)
    requires Contains(outer, inner)
    ensures CountContaining(strings, inner) >= CountContaining(strings, outer)
  {
    if strings != [] {
      CountMonotone(strings[..|strings| - 1], inner, outer);
      if Contains(strings[|strings| - 1], outer) {
        ContainsTransitive(strings[|strings| - 1], outer, inner);
      }
    }
  }

  /** `startxref` counts toward `xref`, `endobj` toward `obj`, `endstream`
      toward `stream`. */
  lemma NestedKeywords(strings: seq<string>)
    ensures CountContaining(strings, "xref") >= CountContaining(strings, "startxref")
    ensures CountContaining(strings, "obj") >= CountContaining(strings, "endobj")
    ensures CountContaining(strings, "stream") >= CountContaining(strings, "endstream")
  {
    OccursContains("startxref", "xref", 5);
    CountMonotone(strings, "xref", "startxref");
    OccursContains("endobj", "obj", 3);
    CountMonotone(strings, "obj", "endobj");
    OccursContains("endstream", "stream", 3);
    CountMonotone(strings, "stream", "endstream");
  }

  lemma OccursContains(s: string, k: string, i: nat)
    requires i + |k| <= |s| && s[i..i + |k|] == k
    ensures Contains(s, k)
  {
    assert OccursAt(s, k, i);
    ContainsAt(s, k);
  }

  /** The keyword loop of `parse`. */
  method KeywordFrequencies(strings: seq<string>) returns (frequencies: map<string, nat>)
    ensures frequencies.Keys == set k | k in KEYWORDS
    ensures forall k :: k in frequencies ==> frequencies[k] == CountContaining(strings, k)
  {
    frequencies := map[];
    for n := 0 to |KEYWORDS|
      invariant frequencies.Keys == set k | k in KEYWORDS[..n]
      invariant forall k :: k in frequencies ==> frequencies[k] == CountContaining(strings, k)
    {
      var keyword := KEYWORDS[n];
      var frequencies_count := 0;
      for m := 0 to |strings|
        invariant frequencies_count == CountContaining(strings[..m], keyword)
      {
        assert strings[..m + 1][..m] == strings[..m];
        if Contains(strings[m], keyword) {
          frequencies_count := frequencies_count + 1;
        }
      }
      assert strings[..|strings|] == strings;
      assert KEYWORDS[..n + 1] == KEYWORDS[..n] + [keyword];
      frequencies := frequencies[keyword := frequencies_count];
    }
    assert KEYWORDS[..|KEYWORDS|] == KEYWORDS;
  }

  /** `RecoveryMode::parse`, with the file's contents as `file`.  It opens
      the file through `InputFile::new`, so it fails exactly when that does
      and scans the bytes after the signature. */
  method Parse(path: string, file: seq<byte>) returns (r: Result<RecoveryMode, Error>)
    ensures r.Success? <==> InputFile.New(path, file).Success?
    ensures r.Failure? ==> r == Failure(InputFile.New(path, file).error)
    ensures r.Success? ==>
              && r.value.input_file == InputFile.New(path, file).value
              && r.value.frequencies.Keys == set k | k in KEYWORDS
              && forall k :: k in r.value.frequencies ==>
                   r.value.frequencies[k] == CountContaining(Runs(file[4..]), k)
  {
    var input_file :- InputFile.New(path, file);
    var strings := ExtractStrings(input_file.buffer);
    var frequencies := KeywordFrequencies(strings);
    r := Success(RecoveryMode(input_file, frequencies));
  }

  /** A file holding only the signature gives every keyword the count 0. */
  lemma SignatureOnlyCountsNothing(k: string)
    ensures CountContaining(Runs(InputFile.New("", InputFile.PDF_FILE_SIGNATURE).value.buffer), k) == 0
  {
    InputFile.SignatureOnly("");
  }
}
