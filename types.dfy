/**
 * The element data model of the document composer: the page formats, the
 * geometry records and the five element variants. A template holds full
 * elements, so an element is a tree of any depth.
 */
module Types {

  datatype Option<T> = None | Some(value: T)

  /** The four page formats, with the string each stands for. */
  datatype PaperFormat = A4 | A3 | Letter | Legal

  function PaperFormatValue(f: PaperFormat): (s: string)
    ensures ParsePaperFormat(s) == Some(f)
  {
    match f
    case A4 => "a4"
    case A3 => "a3"
    case Letter => "letter"
    case Legal => "legal"
  }

  function ParsePaperFormat(s: string): (r: Option<PaperFormat>)
    ensures r.Some? <==> s in {"a4", "a3", "letter", "legal"}
  {
    if s == "a4" then Some(A4)
    else if s == "a3" then Some(A3)
    else if s == "letter" then Some(Letter)
    else if s == "legal" then Some(Legal)
    else None
  }

  /** Page-relative coordinates in render pixels. */
  datatype Position = Position(x: int, y: int)

  /** A width is a pixel count, except for templates, which span the page ('100%'). */
  datatype Width = Px(px: int) | Percent(percent: int)

  datatype Size = Size(width: Width, height: int)

  datatype TextAlign = Left | Center | Right

  datatype ShapeType = Rectangle | Circle | Triangle

  datatype TemplateType = Header | Content | Footer

  /** The styles each variant recognises; an absent key is None. */
  datatype TextStyles = TextStyles(
    color: Option<string>,
    fontSize: Option<string>,
    textAlign: Option<TextAlign>,
    bold: Option<bool>,
    italic: Option<bool>,
    underline: Option<bool>,
    backgroundColor: Option<string>,
    borderRadius: Option<string>)

  datatype ImageStyles = ImageStyles(
    borderRadius: Option<string>,
    border: Option<string>)

  datatype ShapeStyles = ShapeStyles(
    backgroundColor: Option<string>,
    borderRadius: Option<string>,
    border: Option<string>,
    opacity: Option<int>,
    rotate: Option<int>)

  datatype TableStyles = TableStyles(
    borderColor: Option<string>,
    headerBackgroundColor: Option<string>,
    cellPadding: Option<string>,
    fontSize: Option<string>,
    textAlign: Option<TextAlign>)

  datatype TemplateStyles = TemplateStyles(
    backgroundColor: Option<string>,
    padding: Option<string>)

  /** The tag that tells the variants apart. */
  datatype ElementKind = TextKind | ImageKind | ShapeKind | TableKind | TemplateKind

  /**
   * An element: every variant has an id, a position and an optional size;
   * the rest depends on the variant. The tag is the constructor itself.
   */
  datatype Element =
    | Text(id: string, position: Position, size: Option<Size>,
           content: string, textStyles: TextStyles)
    | Image(id: string, position: Position, size: Option<Size>,
            src: string, alt: Option<string>, imageStyles: ImageStyles)
    | Shape(id: string, position: Position, size: Option<Size>,
            shapeType: ShapeType, shapeStyles: ShapeStyles)
    | Table(id: string, position: Position, size: Option<Size>,
            rows: int, columns: int, data: seq<seq<string>>, tableStyles: TableStyles)
    | Template(id: string, position: Position, size: Option<Size>,
               templateType: TemplateType, elements: seq<Element>, templateStyles: TemplateStyles)
  {
    function Kind(): ElementKind
    {
      match this
      case Text(_, _, _, _, _) => TextKind
      case Image(_, _, _, _, _, _) => ImageKind
      case Shape(_, _, _, _, _) => ShapeKind
      case Table(_, _, _, _, _, _, _) => TableKind
      case Template(_, _, _, _, _, _) => TemplateKind
    }
  }

  /** The `type` string carried by an element of each kind. */
  function KindTag(k: ElementKind): (s: string)
    ensures ParseKind(s) == Some(k)
  {
    match k
    case TextKind => "text"
    case ImageKind => "image"
    case ShapeKind => "shape"
    case TableKind => "table"
    case TemplateKind => "template"
  }

  /** The kind a `type` string names, if it names one of the five. */
  function ParseKind(s: string): (r: Option<ElementKind>)
    ensures r.Some? <==> s in {"text", "image", "shape", "table", "template"}
  {
    if s == "text" then Some(TextKind)
    else if s == "image" then Some(ImageKind)
    else if s == "shape" then Some(ShapeKind)
    else if s == "table" then Some(TableKind)
    else if s == "template" then Some(TemplateKind)
    else None
  }

  /** Only the tag of a kind parses to that kind. */
  lemma ParseKindExact(s: string, k: ElementKind)
    ensures ParseKind(s) == Some(k) <==> s == KindTag(k)
  {
  }

  /** The tag of an element is one of the five `type` strings, and names its own variant. */
  function TypeTag(e: Element): (s: string)
    ensures s in {"text", "image", "shape", "table", "template"}
    ensures ParseKind(s) == Some(e.Kind())
  {
    KindTag(e.Kind())
  }

  /** The number of elements in a tree: the element itself and every descendant. */
  function Count(e: Element): (n: nat)
    decreases e
    ensures n >= 1
  {
    match e
    case Template(_, _, _, _, children, _) => 1 + CountAll(children)
    case _ => 1
  }

  /** The number of elements in a forest of trees. */
  function CountAll(s: seq<Element>): (n: nat)
    decreases s
    ensures n >= |s|
  {
    if s == [] then 0 else Count(s[0]) + CountAll(s[1..])
  }

  lemma {:induction false} CountAllAppend(a: seq<Element>, b: seq<Element>)
    ensures CountAll(a + b) == CountAll(a) + CountAll(b)
    decreases |a|
  {
    if a == [] {
      assert a + b == b;
    } else {
      assert (a + b)[1..] == a[1..] + b;
      CountAllAppend(a[1..], b);
    }
  }

  /** The rows x columns shape a table's grid is meant to have. */
  predicate WellFormedTable(e: Element)
    requires e.Table?
  {
    e.rows >= 1 && e.columns >= 1 && |e.data| == e.rows &&
    forall r :: 0 <= r < |e.data| ==> |e.data[r]| == e.columns
  }
}
