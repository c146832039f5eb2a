/** The signature check (src/core/input_file.rs).  The file system is
    outside the model: the contents of the file at `path` arrive as the
    byte sequence `file`. */
module InputFile {

  import opened Wrappers
  import opened Primitives
  import opened Errors
  import Formatting

  /** The path as given and the file's bytes after the signature. */
  datatype InputFile = InputFile(path: string, buffer: seq<byte>)

  /** `%PDF` */
  const PDF_FILE_SIGNATURE: seq<byte> := [0x25, 0x50, 0x44, 0x46]

  /** The message of `read_exact` when the file ends before four bytes. */
  const SHORT_READ: string := "failed to fill whole buffer"

  /** The fixed start of the signature mismatch message. */
  const MISMATCH: string := "Not a PDF file, obtained "

  /** The four bytes in `{:x}`, separated by single spaces: only lower-case
      hex digits and spaces, at least one digit per byte. */
  function HexBytes(b: seq<byte>): (h: string)
    requires |b| == 4
    ensures forall i :: 0 <= i < |h| ==> h[i] == ' ' || Formatting.IsDigitChar(h[i])
    ensures |h| >= 7
  {
    Formatting.LowerHex(b[0]) + " " + Formatting.LowerHex(b[1]) + " "
    + Formatting.LowerHex(b[2]) + " " + Formatting.LowerHex(b[3])
  }

  /** The error raised when the first four bytes are not the signature: a
      fixed text followed by the bytes in hexadecimal. */
  function SignatureMessage(b: seq<byte>): (m: string)
    requires |b| == 4
    ensures |m| > |MISMATCH| && m[..|MISMATCH|] == MISMATCH
    ensures forall i :: |MISMATCH| <= i < |m| ==> m[i] == ' ' || Formatting.IsDigitChar(m[i])
  {
    MISMATCH + HexBytes(b)
  }

  /** `InputFile::new`. */
  function New(path: string, file: seq<byte>): (r: Result<InputFile, Error>)
    ensures r.Success? <==> |file| >= 4 && file[..4] == PDF_FILE_SIGNATURE
    ensures |file| < 4 ==> r == Failure(Io(SHORT_READ))
    ensures |file| >= 4 && file[..4] != PDF_FILE_SIGNATURE ==>
              r == Failure(NotPdf(SignatureMessage(file[..4])))
    ensures r.Success? ==> r.value.path == path && r.value.buffer == file[4..]
                           && |r.value.buffer| == |file| - 4
  {
    if |file| < 4 then
      Failure(Io(SHORT_READ))
    else
      match (file[0], file[1], file[2], file[3])
      case (0x25, 0x50, 0x44, 0x46) =>
        assert file[..4] == PDF_FILE_SIGNATURE;
        Success(InputFile(path, file[4..]))
      case _ =>
        Failure(NotPdf(SignatureMessage(file[..4])))
  }

  predicate NoSpace(s: string) {
    forall i :: 0 <= i < |s| ==> s[i] != ' '
  }

  lemma HexHasNoSpace(n: nat)
    ensures NoSpace(Formatting.LowerHex(n))
  {
  }

  /** Two space-separated words split the same way only if they are equal. */
  lemma SplitAtSpace(x1: string, x2: string, y1: string, y2: string)
    requires NoSpace(x1) && NoSpace(y1)
    requires x1 + " " + x2 == y1 + " " + y2
    ensures x1 == y1 && x2 == y2
  {
    var l := x1 + " " + x2;
    assert l[|x1|] == ' ';
    assert (y1 + " " + y2)[|y1|] == ' ';
    assert |x1| == |y1|;
    assert x1 == l[..|x1|];
    assert x2 == l[|x1| + 1..];
  }

  lemma LowerHexInjective(m: nat, n: nat)
    requires Formatting.LowerHex(m) == Formatting.LowerHex(n)
    ensures m == n
  {
    Formatting.RadixRoundTrip(m, 16);
    Formatting.RadixRoundTrip(n, 16);
  }

  /** Four words joined by single spaces can be split back uniquely when
      the first three contain no space. */
  lemma JoinInjective(x0: string, x1: string, x2: string, x3: string,
                      y0: string, y1: string, y2: string, y3: string)
    requires NoSpace(x0) && NoSpace(x1) && NoSpace(x2)
    requires NoSpace(y0) && NoSpace(y1) && NoSpace(y2)
    requires x0 + " " + x1 + " " + x2 + " " + x3 == y0 + " " + y1 + " " + y2 + " " + y3
    ensures x0 == y0 && x1 == y1 && x2 == y2 && x3 == y3
  {
    assert x0 + " " + x1 + " " + x2 + " " + x3 == x0 + " " + (x1 + " " + (x2 + " " + x3));
    assert y0 + " " + y1 + " " + y2 + " " + y3 == y0 + " " + (y1 + " " + (y2 + " " + y3));
    SplitAtSpace(x0, x1 + " " + (x2 + " " + x3), y0, y1 + " " + (y2 + " " + y3));
    SplitAtSpace(x1, x2 + " " + x3, y1, y2 + " " + y3);
    SplitAtSpace(x2, x3, y2, y3);
  }

  lemma HexBytesInjective(a: seq<byte>, b: seq<byte>)
    requires |a| == 4 && |b| == 4
    requires HexBytes(a) == HexBytes(b)
    ensures a == b
  {
    HexHasNoSpace(a[0]); HexHasNoSpace(a[1]); HexHasNoSpace(a[2]);
    HexHasNoSpace(b[0]); HexHasNoSpace(b[1]); HexHasNoSpace(b[2]);
    JoinInjective(Formatting.LowerHex(a[0]), Formatting.LowerHex(a[1]),
                  Formatting.LowerHex(a[2]), Formatting.LowerHex(a[3]),
                  Formatting.LowerHex(b[0]), Formatting.LowerHex(b[1]),
                  Formatting.LowerHex(b[2]), Formatting.LowerHex(b[3]));
    LowerHexInjective(a[0], b[0]);
    LowerHexInjective(a[1], b[1]);
    LowerHexInjective(a[2], b[2]);
    LowerHexInjective(a[3], b[3]);
  }

  /** The error message reports the four observed bytes without loss: two
      files whose first four bytes differ get different messages. */
  lemma SignatureMessageDeterminesBytes(a: seq<byte>, b: seq<byte>)
    requires |a| == 4 && |b| == 4
    requires SignatureMessage(a) == SignatureMessage(b)
    ensures a == b
  {
    assert HexBytes(a) == SignatureMessage(a)[|MISMATCH|..];
    assert HexBytes(b) == SignatureMessage(b)[|MISMATCH|..];
    HexBytesInjective(a, b);
  }

  /** A file that is exactly the signature is accepted with an empty buffer. */
  lemma SignatureOnly(path: string)
    ensures New(path, PDF_FILE_SIGNATURE) == Success(InputFile(path, []))
  {
  }
}
