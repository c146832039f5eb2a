/** Pages (src/core/pages.rs): the page list, the per-page operator list
    with each operator's variant name, and the text gathered from the text
    operators.  The content operators of the PDF library are abstracted to
    the datatype `Op`: only the payloads that `extract_text` reads are
    kept. */
module Pages {

  import opened Wrappers
  import opened Errors
  import Sequences
  import Formatting

  /** A PDF string operand: what its `to_string` yields when it succeeds,
      and its `{:?}` rendering. */
  datatype PdfText = PdfText(decoded: Option<string>, debug: string)

  /** The text that `extract_text` writes for a string operand. */
  function Shown(t: PdfText): string {
    match t.decoded
    case Some(text_decoded) => text_decoded
    case None => t.debug
  }

  /** An element of a `TJ` array (`TextDrawAdjusted` in the PDF library);
      the spacing amount is reduced to whether it is positive. */
  datatype TextDrawItem = Text(text: PdfText) | Spacing(positive: bool)

  /** The variants of the library's `Op` that `extract_text` ignores, one
      constructor each; their operands are not modelled. */
  datatype OpKind =
    | BeginMarkedContent
    | EndMarkedContent
    | MarkedContentPoint
    | Close
    | MoveTo
    | LineTo
    | CurveTo
    | Rect
    | EndPath
    | Stroke
    | FillAndStroke
    | Fill
    | Shade
    | Clip
    | Save
    | Restore
    | Transform
    | LineWidth
    | Dash
    | LineJoin
    | LineCap
    | MiterLimit
    | Flatness
    | GraphicsState
    | StrokeColor
    | FillColor
    | FillColorSpace
    | StrokeColorSpace
    | RenderingIntent
    | BeginText
    | EndText
    | CharSpacing
    | WordSpacing
    | TextScaling
    | Leading
    | TextFont
    | TextRenderMode
    | TextRise
    | MoveTextPosition
    | SetTextMatrix
    | XObject
    | InlineImage

  /** The content operators: the three that carry text, and all others. */
  datatype Op =
    | Other(kind: OpKind)
    | TextNewline
    | TextDraw(text: PdfText)
    | TextDrawAdjusted(items: seq<TextDrawItem>)

  function KindName(kind: OpKind): string {
    match kind
    case BeginMarkedContent => "BeginMarkedContent"
    case EndMarkedContent => "EndMarkedContent"
    case MarkedContentPoint => "MarkedContentPoint"
    case Close => "Close"
    case MoveTo => "MoveTo"
    case LineTo => "LineTo"
    case CurveTo => "CurveTo"
    case Rect => "Rect"
    case EndPath => "EndPath"
    case Stroke => "Stroke"
    case FillAndStroke => "FillAndStroke"
    case Fill => "Fill"
    case Shade => "Shade"
    case Clip => "Clip"
    case Save => "Save"
    case Restore => "Restore"
    case Transform => "Transform"
    case LineWidth => "LineWidth"
    case Dash => "Dash"
    case LineJoin => "LineJoin"
    case LineCap => "LineCap"
    case MiterLimit => "MiterLimit"
    case Flatness => "Flatness"
    case GraphicsState => "GraphicsState"
    case StrokeColor => "StrokeColor"
    case FillColor => "FillColor"
    case FillColorSpace => "FillColorSpace"
    case StrokeColorSpace => "StrokeColorSpace"
    case RenderingIntent => "RenderingIntent"
    case BeginText => "BeginText"
    case EndText => "EndText"
    case CharSpacing => "CharSpacing"
    case WordSpacing => "WordSpacing"
    case TextScaling => "TextScaling"
    case Leading => "Leading"
    case TextFont => "TextFont"
    case TextRenderMode => "TextRenderMode"
    case TextRise => "TextRise"
    case MoveTextPosition => "MoveTextPosition"
    case SetTextMatrix => "SetTextMatrix"
    case XObject => "XObject"
    case InlineImage => "InlineImage"
  }

  /** `SingleOp::get_name`: the variant's name. */
  function GetName(operation: Op): string {
    match operation
    case Other(kind) => KindName(kind)
    case TextNewline => "TextNewline"
    case TextDraw(_) => "TextDraw"
    case TextDrawAdjusted(_) => "TextDrawAdjusted"
  }

  function KindIndex(kind: OpKind): (i: nat)
    ensures i < 42
  {
    match kind
    case BeginMarkedContent => 0
    case EndMarkedContent => 1
    case MarkedContentPoint => 2
    case Close => 3
    case MoveTo => 4
    case LineTo => 5
    case CurveTo => 6
    case Rect => 7
    case EndPath => 8
    case Stroke => 9
    case FillAndStroke => 10
    case Fill => 11
    case Shade => 12
    case Clip => 13
    case Save => 14
    case Restore => 15
    case Transform => 16
    case LineWidth => 17
    case Dash => 18
    case LineJoin => 19
    case LineCap => 20
    case MiterLimit => 21
    case Flatness => 22
    case GraphicsState => 23
    case StrokeColor => 24
    case FillColor => 25
    case FillColorSpace => 26
    case StrokeColorSpace => 27
    case RenderingIntent => 28
    case BeginText => 29
    case EndText => 30
    case CharSpacing => 31
    case WordSpacing => 32
    case TextScaling => 33
    case Leading => 34
    case TextFont => 35
    case TextRenderMode => 36
    case TextRise => 37
    case MoveTextPosition => 38
    case SetTextMatrix => 39
    case XObject => 40
    case InlineImage => 41
  }

  /** A number for each of the 45 variants. */
  function VariantIndex(operation: Op): (i: nat)
    ensures i < 45
  {
    match operation
    case Other(kind) => KindIndex(kind)
    case TextNewline => 42
    case TextDraw(_) => 43
    case TextDrawAdjusted(_) => 44
  }

  /** The variant names, numbered as `VariantIndex` numbers them. */
  function NameOfIndex(i: nat): string {
    match i
    case 0 => "BeginMarkedContent"
    case 1 => "EndMarkedContent"
    case 2 => "MarkedContentPoint"
    case 3 => "Close"
    case 4 => "MoveTo"
    case 5 => "LineTo"
    case 6 => "CurveTo"
    case 7 => "Rect"
    case 8 => "EndPath"
    case 9 => "Stroke"
    case 10 => "FillAndStroke"
    case 11 => "Fill"
    case 12 => "Shade"
    case 13 => "Clip"
    case 14 => "Save"
    case 15 => "Restore"
    case 16 => "Transform"
    case 17 => "LineWidth"
    case 18 => "Dash"
    case 19 => "LineJoin"
    case 20 => "LineCap"
    case 21 => "MiterLimit"
    case 22 => "Flatness"
    case 23 => "GraphicsState"
    case 24 => "StrokeColor"
    case 25 => "FillColor"
    case 26 => "FillColorSpace"
    case 27 => "StrokeColorSpace"
    case 28 => "RenderingIntent"
    case 29 => "BeginText"
    case 30 => "EndText"
    case 31 => "CharSpacing"
    case 32 => "WordSpacing"
    case 33 => "TextScaling"
    case 34 => "Leading"
    case 35 => "TextFont"
    case 36 => "TextRenderMode"
    case 37 => "TextRise"
    case 38 => "MoveTextPosition"
    case 39 => "SetTextMatrix"
    case 40 => "XObject"
    case 41 => "InlineImage"
    case 42 => "TextNewline"
    case 43 => "TextDraw"
    case 44 => "TextDrawAdjusted"
    case _ => ""
  }

  /** The inverse of `GetName`: the variant a name belongs to. */
  function NameIndex(name: string): Option<nat> {
    match name
    case "BeginMarkedContent" => Some(0)
    case "EndMarkedContent" => Some(1)
    case "MarkedContentPoint" => Some(2)
    case "Close" => Some(3)
    case "MoveTo" => Some(4)
    case "LineTo" => Some(5)
    case "CurveTo" => Some(6)
    case "Rect" => Some(7)
    case "EndPath" => Some(8)
    case "Stroke" => Some(9)
    case "FillAndStroke" => Some(10)
    case "Fill" => Some(11)
    case "Shade" => Some(12)
    case "Clip" => Some(13)
    case "Save" => Some(14)
    case "Restore" => Some(15)
    case "Transform" => Some(16)
    case "LineWidth" => Some(17)
    case "Dash" => Some(18)
    case "LineJoin" => Some(19)
    case "LineCap" => Some(20)
    case "MiterLimit" => Some(21)
    case "Flatness" => Some(22)
    case "GraphicsState" => Some(23)
    case "StrokeColor" => Some(24)
    case "FillColor" => Some(25)
    case "FillColorSpace" => Some(26)
    case "StrokeColorSpace" => Some(27)
    case "RenderingIntent" => Some(28)
    case "BeginText" => Some(29)
    case "EndText" => Some(30)
    case "CharSpacing" => Some(31)
    case "WordSpacing" => Some(32)
    case "TextScaling" => Some(33)
    case "Leading" => Some(34)
    case "TextFont" => Some(35)
    case "TextRenderMode" => Some(36)
    case "TextRise" => Some(37)
    case "MoveTextPosition" => Some(38)
    case "SetTextMatrix" => Some(39)
    case "XObject" => Some(40)
    case "InlineImage" => Some(41)
    case "TextNewline" => Some(42)
    case "TextDraw" => Some(43)
    case "TextDrawAdjusted" => Some(44)
    case _ => None
  }

  lemma GetNameTable(operation: Op)
    ensures GetName(operation) == NameOfIndex(VariantIndex(operation))
  {
  }

  lemma NameIndexInverse(operation: Op)
    ensures NameIndex(GetName(operation)) == Some(VariantIndex(operation))
  {
  }

  /** Two operators are the same variant of `Op`, whatever their operands. */
  predicate SameVariant(a: Op, b: Op) {
    || (a.Other? && b.Other? && a.kind == b.kind)
    || (a.TextNewline? && b.TextNewline?)
    || (a.TextDraw? && b.TextDraw?)
    || (a.TextDrawAdjusted? && b.TextDrawAdjusted?)
  }

  /** The numbering tells variants apart and nothing else. */
  lemma VariantIndexIsConstructor(a: Op, b: Op)
    ensures VariantIndex(a) == VariantIndex(b) <==> SameVariant(a, b)
  {
  }

  /** Names tell variants apart: two operators get the same name exactly
      when they are the same variant. */
  lemma GetNameInjective(a: Op, b: Op)
    ensures GetName(a) == GetName(b) <==> VariantIndex(a) == VariantIndex(b)
    ensures GetName(a) == GetName(b) <==> SameVariant(a, b)
  {
    VariantIndexIsConstructor(a, b);
    if GetName(a) == GetName(b) {
      NameIndexInverse(a);
      NameIndexInverse(b);
      var na, nb := GetName(a), GetName(b);
      assert NameIndex(na) == NameIndex(nb);
    }
    if VariantIndex(a) == VariantIndex(b) {
      GetNameTable(a);
      GetNameTable(b);
    }
  }

  /** What one element of a `TJ` array adds: a space and the string, or two
      spaces for a positive spacing. */
  function ItemText(item: TextDrawItem): string {
    match item
    case Text(text) => " " + Shown(text)
    case Spacing(positive) => if positive then "  " else ""
  }

  function ItemsText(items: seq<TextDrawItem>): string {
    Sequences.FlatMap(ItemText, items)
  }

  /** What one operator adds to the extracted text. */
  function OpText(o: Op): string {
    if o.TextNewline? then "\n"
    else if o.TextDraw? then Shown(o.text)
    else if o.TextDrawAdjusted? then ItemsText(o.items)
    else ""
  }

  /** The text of an operator list: the operators' contributions in order. */
  function TextOf(ops: seq<Op>): string {
    Sequences.FlatMap(OpText, ops)
  }

  /** Extraction distributes over concatenation of operator lists. */
  lemma TextOfAppend(a: seq<Op>, b: seq<Op>)
    ensures TextOf(a + b) == TextOf(a) + TextOf(b)
  {
    Sequences.FlatMapAppend(OpText, a, b);
  }

  lemma ItemsTextAppend(a: seq<TextDrawItem>, b: seq<TextDrawItem>)
    ensures ItemsText(a + b) == ItemsText(a) + ItemsText(b)
  {
    Sequences.FlatMapAppend(ItemText, a, b);
  }

  /** A single operator contributes exactly its own text. */
  lemma TextOfSingle(o: Op)
    ensures TextOf([o]) == OpText(o)
  {
    assert [o][..0] == [];
    assert TextOf([o]) == TextOf([]) + OpText(o);
  }

  /** Operators other than the three text operators contribute nothing. */
  lemma {:induction false} NonTextOpsAddNothing(ops: seq<Op>)
    requires forall i :: 0 <= i < |ops| ==> ops[i].Other?
    ensures TextOf(ops) == ""
  {
    if ops != [] {
      NonTextOpsAddNothing(ops[..|ops| - 1]);
    }
  }

  /** `extract_text`. */
  method ExtractText(op: seq<Op>) returns (result: string)
    ensures result == TextOf(op)
  {
    result := "";
    for k := 0 to |op|
      invariant result == TextOf(op[..k])
    {
      assert op[..k + 1][..k] == op[..k];
      var o := op[k];
      assert TextOf(op[..k + 1]) == TextOf(op[..k]) + OpText(o);
      if o.TextNewline? {
        result := result + "\n";
      } else if o.TextDraw? {
        match o.text.decoded {
          case Some(text_decoded) => result := result + text_decoded;
          case None => result := result + o.text.debug;
        }
      } else if o.TextDrawAdjusted? {
        ghost var before := result;
        for m := 0 to |o.items|
          invariant result == before + ItemsText(o.items[..m])
        {
          assert o.items[..m + 1][..m] == o.items[..m];
          assert ItemsText(o.items[..m + 1]) == ItemsText(o.items[..m]) + ItemText(o.items[m]);
          match o.items[m] {
            case Text(text) =>
              match text.decoded {
                case Some(text_decoded) => result := result + " " + text_decoded;
                case None => result := result + " " + text.debug;
              }
            case Spacing(positive) =>
              if positive {
                result := result + "  ";
              }
          }
        }
        assert o.items[..|o.items|] == o.items;
      }
    }
    assert op[..|op|] == op;
  }

  /** A page of the library; only whether it has contents matters here. */
  datatype Content = Content(handle: nat)
  datatype PageRc = PageRc(contents: Option<Content>, handle: nat)

  datatype SingleOp = SingleOp(name: string, operation: Op)
  datatype SinglePages = SinglePages(id: nat, name: string)
  datatype SinglePagesExtended = SinglePagesExtended(
    id: nat,
    page_rc: PageRc,
    objects: seq<nat>,
    operations: seq<SingleOp>,
    text: string)
  datatype PagesList = PagesList(pages: seq<SinglePages>, extended_pages: seq<SinglePagesExtended>)

  function Named(o: Op): SingleOp {
    SingleOp(GetName(o), o)
  }

  /** The page `SinglePagesExtended::new` builds.  `operations` stands for
      the library's `content.operations(resolver)`. */
  function ExtendedPage(id: nat, page_rc: PageRc,
                        operations: Content -> Result<seq<Op>, Error>): (p: SinglePagesExtended)
    ensures p.id == id && p.page_rc == page_rc && p.objects == []
    ensures page_rc.contents.None? || operations(page_rc.contents.value).Failure? ==>
              p.operations == [] && p.text == ""
    ensures page_rc.contents.Some? && operations(page_rc.contents.value).Success? ==>
              var op := operations(page_rc.contents.value).value;
              && |p.operations| == |op|
              && (forall i :: 0 <= i < |op| ==>
                    p.operations[i].name == GetName(op[i]) && p.operations[i].operation == op[i])
              && p.text == TextOf(op)
  {
    match page_rc.contents
    case Some(content) =>
      (match operations(content)
       case Success(op) => SinglePagesExtended(id, page_rc, [], Sequences.Map(Named, op), TextOf(op))
       case Failure(_) => SinglePagesExtended(id, page_rc, [], [], ""))
    case None => SinglePagesExtended(id, page_rc, [], [], "")
  }

  /** `SinglePagesExtended::new`. */
  method NewSinglePagesExtended(id: nat, page_rc: PageRc,
                                operations: Content -> Result<seq<Op>, Error>)
    returns (p: SinglePagesExtended)
    ensures p == ExtendedPage(id, page_rc, operations)
  {
    if page_rc.contents.Some? {
      var op := operations(page_rc.contents.value);
      if op.Success? {
        var text := ExtractText(op.value);
        return SinglePagesExtended(id, page_rc, [], Sequences.Map(Named, op.value), text);
      }
    }
    p := SinglePagesExtended(id, page_rc, [], [], "");
  }

  /** `format!("Page {}", i)` */
  function PageName(i: nat): string {
    "Page " + Formatting.Decimal(i)
  }

  /** Page names are distinct. */
  lemma PageNameInjective(i: nat, j: nat)
    requires PageName(i) == PageName(j)
    ensures i == j
  {
    var p := "Page ";
    assert Formatting.Decimal(i) == PageName(i)[|p|..];
    assert Formatting.Decimal(j) == PageName(j)[|p|..];
    Formatting.RadixRoundTrip(i, 10);
    Formatting.RadixRoundTrip(j, 10);
  }

  /** `PagesList::new`.  It never fails, so the `Result` is dropped. */
  method PagesListNew(pages_scan: seq<PageRc>, operations: Content -> Result<seq<Op>, Error>)
    returns (list: PagesList)
    ensures |list.pages| == |list.extended_pages| == |pages_scan|
    ensures forall i :: 0 <= i < |pages_scan| ==>
              && list.pages[i] == SinglePages(i, PageName(i))
              && list.extended_pages[i] == ExtendedPage(i, pages_scan[i], operations)
  {
    var extended_pages: seq<SinglePagesExtended> := [];
    var pages: seq<SinglePages> := [];
    for i := 0 to |pages_scan|
      invariant |pages| == |extended_pages| == i
      invariant forall j :: 0 <= j < i ==>
                  && pages[j] == SinglePages(j, PageName(j))
                  && extended_pages[j] == ExtendedPage(j, pages_scan[j], operations)
    {
      var b := SinglePages(i, PageName(i));
      var a := NewSinglePagesExtended(i, pages_scan[i], operations);
      pages := pages + [b];
      extended_pages := extended_pages + [a];
    }
    list := PagesList(pages, extended_pages);
  }
}
