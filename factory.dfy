/**
 * The element factory: builds a new element of a named kind with that kind's
 * defaults, or reports that the kind is unknown. The fresh id is supplied by
 * the caller.
 */
module ElementFactory {
  import opened Types

  /**
   * The options a caller may pass; an option that was not passed is None.
   * `elements` is the template's initial children.
   */
  datatype ElementOptions = ElementOptions(
    shapeType: Option<ShapeType>,
    rows: Option<int>,
    columns: Option<int>,
    templateType: Option<TemplateType>,
    elements: Option<seq<Element>>)

  const NoOptions := ElementOptions(None, None, None, None, None)

  /**
   * What building an element yields: the element, no element for a kind the
   * factory does not know, or the RangeError that allocating a table grid
   * with an impossible row or column count raises.
   */
  datatype NewElement = Created(element: Element) | UnknownType | InvalidArrayLength

  /** Every new element starts here, whatever is already on the page. */
  const BasePosition := Position(100, 100)

  const DefaultTableDimension := 3
  const TableWidth := 400
  const TableRowHeight := 40
  const CellPlaceholder := "Click to edit"
  const TextPlaceholder := "Double-click to edit text"
  const ImagePlaceholder := "https://images.pexels.com/photos/326055/pexels-photo-326055.jpeg?auto=compress&cs=tinysrgb&w=1260&h=750&dpr=1"

  /** The largest length an array can be allocated with. */
  const MaxArrayLength := 0xFFFF_FFFF

  predicate IsArrayLength(n: int)
  {
    0 <= n <= MaxArrayLength
  }

  /**
   * A count option read with JavaScript's `||`: an absent option and the
   * falsy count 0 both fall back to the default.
   */
  function OrDefault(o: Option<int>, default: int): (n: int)
    ensures o.Some? && o.value != 0 ==> n == o.value
    ensures !(o.Some? && o.value != 0) ==> n == default
    ensures default != 0 ==> n != 0
  {
    if o.Some? && o.value != 0 then o.value else default
  }

  /** A rows x columns grid in which every cell is the placeholder text. */
  function Grid(rows: nat, columns: nat): (g: seq<seq<string>>)
    ensures |g| == rows
    ensures forall r :: 0 <= r < rows ==> |g[r]| == columns
    ensures forall r, c :: 0 <= r < rows && 0 <= c < |g[r]| ==> g[r][c] == CellPlaceholder
  {
    seq(rows, _ => seq(columns, _ => CellPlaceholder))
  }

  /** A table whose grid is rows x columns of the placeholder text. */
  predicate PlaceholderGrid(e: Element)
    requires e.Table?
  {
    WellFormedTable(e) &&
    forall r, c :: 0 <= r < |e.data| && 0 <= c < |e.data[r]| ==> e.data[r][c] == CellPlaceholder
  }

  /**
   * Builds an element of the kind named by `kind`. A known kind yields an
   * element with the given id, at the base position, with its kind's default
   * size and styles; a table whose row or column count cannot be an array
   * length raises instead; any other kind yields no element.
   */
  function CreateNewElement(kind: string, options: ElementOptions, id: string): (r: NewElement)
    ensures r.UnknownType? <==> ParseKind(kind).None?
    ensures r.InvalidArrayLength? <==>
      kind == "table" &&
      !(IsArrayLength(OrDefault(options.rows, DefaultTableDimension)) &&
        IsArrayLength(OrDefault(options.columns, DefaultTableDimension)))
    ensures r.Created? ==>
      r.element.id == id && r.element.position == BasePosition &&
      TypeTag(r.element) == kind && r.element.size.Some?
    ensures r.Created? && r.element.Table? ==>
      PlaceholderGrid(r.element) &&
      r.element.size == Some(Size(Px(TableWidth), r.element.rows * TableRowHeight))
  {
    match kind
    case "text" =>
      Created(Text(id, BasePosition, Some(Size(Px(200), 24)),
                   TextPlaceholder,
                   TextStyles(Some("#000000"), Some("16px"), Some(Left),
                              Some(false), Some(false), Some(false), None, None)))
    case "image" =>
      Created(Image(id, BasePosition, Some(Size(Px(200), 150)),
                    ImagePlaceholder, Some("Image"),
                    ImageStyles(Some("0px"), None)))
    case "shape" =>
      var shapeType := if options.shapeType.Some? then options.shapeType.value else Rectangle;
      Created(Shape(id, BasePosition, Some(Size(Px(100), 100)),
                    shapeType,
                    ShapeStyles(Some("#e2e8f0"), Some("0px"), None, Some(1), Some(0))))
    case "table" =>
      var rows := OrDefault(options.rows, DefaultTableDimension);
      var columns := OrDefault(options.columns, DefaultTableDimension);
      if !IsArrayLength(rows) || !IsArrayLength(columns) then InvalidArrayLength
      else
        Created(Table(id, BasePosition, Some(Size(Px(TableWidth), rows * TableRowHeight)),
                      rows, columns, Grid(rows, columns),
                      TableStyles(Some("#e2e8f0"), Some("#f8fafc"), Some("8px"), Some("14px"), Some(Left))))
    case "template" =>
      var templateType := if options.templateType.Some? then options.templateType.value else Content;
      var children := if options.elements.Some? then options.elements.value else [];
      Created(Template(id, BasePosition, Some(Size(Percent(100), 200)),
                       templateType, children,
                       TemplateStyles(Some("transparent"), Some("16px"))))
    case _ => UnknownType
  }

  /** The per-kind defaults that options can override, and how. */
  lemma CreateNewElementDefaults(kind: string, options: ElementOptions, id: string)
    requires CreateNewElement(kind, options, id).Created?
    ensures var e := CreateNewElement(kind, options, id).element;
      (e.Shape? ==> e.shapeType == (if options.shapeType == None then Rectangle else options.shapeType.value)) &&
      (e.Table? ==>
        e.rows == (if options.rows == None || options.rows == Some(0) then 3 else options.rows.value) &&
        e.columns == (if options.columns == None || options.columns == Some(0) then 3 else options.columns.value)) &&
      (e.Template? ==>
        e.templateType == (if options.templateType == None then Content else options.templateType.value) &&
        e.elements == (if options.elements == None then [] else options.elements.value))
  {
  }

  /** A 2 x 4 table: two rows of four placeholder cells, 80 pixels high. */
  lemma TwoByFourTable(id: string)
    ensures var r := CreateNewElement("table", NoOptions.(rows := Some(2), columns := Some(4)), id);
      r.Created? && r.element.Table? &&
      |r.element.data| == 2 && (forall i :: 0 <= i < 2 ==> r.element.data[i] == ["Click to edit", "Click to edit", "Click to edit", "Click to edit"]) &&
      r.element.size.value.height == 80
  {
    var r := CreateNewElement("table", NoOptions.(rows := Some(2), columns := Some(4)), id);
    forall i | 0 <= i < 2
      ensures r.element.data[i] == ["Click to edit", "Click to edit", "Click to edit", "Click to edit"]
    {
      assert |r.element.data[i]| == 4;
    }
  }

  /** A negative row count, as `Array(-1)` does, raises and builds nothing. */
  lemma NegativeRowsRaise(id: string)
    ensures CreateNewElement("table", NoOptions.(rows := Some(-1)), id) == InvalidArrayLength
  {
  }
}
