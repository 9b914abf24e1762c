/**
  * Resolution of a marker type to the symbol that draws it. Each symbol is
  * modelled by its fixed geometric template and the kind of fill its style
  * gives it (a `fill` in the style overrides a `fill` attribute); line caps,
  * joins and the rest of the SVG presentation are not modelled.
  */
module MarkerSymbols {
  import opened Wrappers
  import opened Edges
  import opened Store

  datatype Point = Point(x: int, y: int)

  datatype Geometry = Polyline(points: seq<Point>) | Dot(cx: int, cy: int, r: int)

  /** No fill, a white fill, or a fill in the marker's own color. */
  datatype FillKind = NoFill | WhiteFill | ColorFill

  datatype MarkerSymbol = MarkerSymbol(geometry: Geometry, fill: FillKind)

  const ArrowSymbol := MarkerSymbol(Polyline([Point(-5, -4), Point(0, 0), Point(-5, 4)]), NoFill)
  const ArrowClosedSymbol :=
    MarkerSymbol(Polyline([Point(-5, -4), Point(0, 0), Point(-5, 4), Point(-5, -4)]), ColorFill)
  const ArrowEmptySymbol :=
    MarkerSymbol(Polyline([Point(-5, -4), Point(0, 0), Point(-5, 4), Point(-5, -4)]), WhiteFill)
  const ArrowSingleSymbol := MarkerSymbol(Polyline([Point(-5, -4), Point(0, 0)]), NoFill)
  const DiagonalSymbol :=
    MarkerSymbol(Polyline([Point(-5, -4), Point(0, 0), Point(-5, 4), Point(-10, 0)]), WhiteFill)
  const DiagonalFilledSymbol :=
    MarkerSymbol(Polyline([Point(-5, -4), Point(0, 0), Point(-5, 4), Point(-10, 0)]), ColorFill)
  const CircleFilledSymbol := MarkerSymbol(Dot(5, 5, 5), ColorFill)
  const CircleSymbol := MarkerSymbol(Dot(5, 5, 5), WhiteFill)

  /** The symbol table, keyed by the marker types' wire strings. */
  const MarkerSymbolTable: map<string, MarkerSymbol> := map[
    MarkerTypeWire(Arrow) := ArrowSymbol,
    MarkerTypeWire(ArrowClosed) := ArrowClosedSymbol,
    MarkerTypeWire(ArrowSingle) := ArrowSingleSymbol,
    MarkerTypeWire(ArrowEmpty) := ArrowEmptySymbol,
    MarkerTypeWire(Diagonal) := DiagonalSymbol,
    MarkerTypeWire(DiagonalFilled) := DiagonalFilledSymbol,
    MarkerTypeWire(Circle) := CircleSymbol,
    MarkerTypeWire(CircleFilled) := CircleFilledSymbol
  ]

  /** The table's keys are exactly the wire strings of the eight marker types. */
  lemma MarkerSymbolTableKeys()
    ensures forall s :: s in MarkerSymbolTable <==> ParseMarkerType(s).Some?
  {
  }

  /** Distinct marker types are mapped to distinct symbols. */
  lemma MarkerSymbolTableInjective(a: MarkerType, b: MarkerType)
    requires a != b
    ensures MarkerSymbolTable[MarkerTypeWire(a)] != MarkerSymbolTable[MarkerTypeWire(b)]
  {
  }

  /**
    * The arrow templates: the closed and the empty arrow share an outline whose
    * last point is its first; the line arrow is that outline without the
    * closing point; the single arrow keeps its first two points.
    */
  lemma ArrowTemplates()
    ensures ArrowClosedSymbol.geometry == ArrowEmptySymbol.geometry
    ensures var outline := ArrowClosedSymbol.geometry.points;
      && |outline| == 4 && outline[3] == outline[0]
      && ArrowSymbol.geometry.points == outline[..3]
      && ArrowSingleSymbol.geometry.points == outline[..2]
  {
  }

  /** The props of a symbol component: an edge marker without its type. */
  datatype SymbolProps = SymbolProps(
    color: Option<string>,
    width: Option<real>,
    height: Option<real>,
    markerUnits: Option<string>,
    orient: Option<string>,
    strokeWidth: Option<real>)

  /** The props a marker record passes to its symbol: every field but the type. */
  function PropsOf(marker: EdgeMarker): (props: SymbolProps)
    ensures props.color == marker.color && props.strokeWidth == marker.strokeWidth
    ensures props.width == marker.width && props.height == marker.height
    ensures props.markerUnits == marker.markerUnits && props.orient == marker.orient
  {
    SymbolProps(marker.color, marker.width, marker.height, marker.markerUnits, marker.orient, marker.strokeWidth)
  }

  /** What a symbol paints: its template, stroke color, fill and stroke width. */
  datatype DrawnSymbol = DrawnSymbol(geometry: Geometry, stroke: string, fill: string, strokeWidth: real)

  /** A symbol drawn with `props`, color defaulting to "none" and stroke width to 1. */
  function Draw(symbol: MarkerSymbol, props: SymbolProps): (d: DrawnSymbol)
    ensures d.geometry == symbol.geometry
    ensures props.color.Some? ==> d.stroke == props.color.value
    ensures props.color == None ==> d.stroke == "none"
    ensures props.strokeWidth.Some? ==> d.strokeWidth == props.strokeWidth.value
    ensures props.strokeWidth == None ==> d.strokeWidth == 1.0
    ensures symbol.fill.NoFill? ==> d.fill == "none"
    ensures symbol.fill.ColorFill? ==> d.fill == d.stroke
    ensures symbol.fill.WhiteFill? ==> d.fill == "#fff"
  {
    var color := props.color.GetOr("none");
    var fill := match symbol.fill
      case NoFill => "none"
      case WhiteFill => "#fff"
      case ColorFill => color;
    DrawnSymbol(symbol.geometry, color, fill, props.strokeWidth.GetOr(1.0))
  }

  /** With color and stroke width omitted every symbol strokes "none" at width 1 and fills nothing or white. */
  lemma DrawDefaults(symbol: MarkerSymbol, props: SymbolProps)
    requires props.color == None && props.strokeWidth == None
    ensures var d := Draw(symbol, props);
      && d.stroke == "none" && d.strokeWidth == 1.0
      && (d.fill == "none" || d.fill == "#fff")
  {
  }

  /**
    * Drawing a marker record depends on its color and stroke width only: its
    * width, height, markerUnits and orient never change the symbol drawn.
    */
  lemma DrawIgnoresMarkerBox(symbol: MarkerSymbol, m1: EdgeMarker, m2: EdgeMarker)
    requires m1.color == m2.color && m1.strokeWidth == m2.strokeWidth
    ensures Draw(symbol, PropsOf(m1)) == Draw(symbol, PropsOf(m2))
  {
  }

  /** The error code reported for a marker type with no symbol. */
  const MarkerTypeNotFound: string := "009"

  /** A call of the store's `onError` handler with an error code and the offending type. */
  datatype ErrorCall = ErrorCall(handler: HandlerId, code: string, markerType: string)

  /** The resolved symbol (None for null) and the `onError` calls made while resolving. */
  datatype Resolution = Resolution(symbol: Option<MarkerSymbol>, errorCalls: seq<ErrorCall>)

  /**
    * Resolves `markerType` by an own-key lookup in the table. A miss reports code
    * "009" to the store's `onError` when one is registered, and yields no symbol.
    * Callers pass the store's `onError` field (`FlowStore.onError`) as `onError`.
    */
  function UseMarkerSymbol(markerType: string, onError: Option<HandlerId>): (r: Resolution)
    ensures markerType in MarkerSymbolTable ==>
      r.symbol == Some(MarkerSymbolTable[markerType]) && r.errorCalls == []
    ensures markerType !in MarkerSymbolTable ==> r.symbol == None
    ensures markerType !in MarkerSymbolTable && onError.Some? ==>
      r.errorCalls == [ErrorCall(onError.value, MarkerTypeNotFound, markerType)]
    ensures onError == None ==> r.errorCalls == []
  {
    if markerType in MarkerSymbolTable then
      Resolution(Some(MarkerSymbolTable[markerType]), [])
    else
      var calls := match onError
        case Some(handler) => [ErrorCall(handler, MarkerTypeNotFound, markerType)]
        case None => [];
      Resolution(None, calls)
  }

  /** Resolution succeeds exactly for the wire strings of the eight marker types. */
  lemma UseMarkerSymbolAgreesWithParse(markerType: string, onError: Option<HandlerId>)
    ensures UseMarkerSymbol(markerType, onError).symbol.Some? <==> ParseMarkerType(markerType).Some?
    ensures |UseMarkerSymbol(markerType, onError).errorCalls|
         == if ParseMarkerType(markerType) == None && onError.Some? then 1 else 0
  {
  }

  /** Every marker type resolves, without an error call, to its own symbol, distinct from every other type's. */
  lemma ResolvesEveryMarkerType(m: MarkerType, other: MarkerType, onError: Option<HandlerId>)
    ensures UseMarkerSymbol(MarkerTypeWire(m), onError).symbol.Some?
    ensures UseMarkerSymbol(MarkerTypeWire(m), onError).errorCalls == []
    ensures m != other ==>
      UseMarkerSymbol(MarkerTypeWire(m), onError).symbol != UseMarkerSymbol(MarkerTypeWire(other), onError).symbol
  {
  }

  /** Names inherited from Object.prototype are not own keys of the table, so they do not resolve. */
  lemma InheritedNamesDoNotResolve(onError: Option<HandlerId>)
    ensures forall name :: name in ["toString", "constructor", "hasOwnProperty", "valueOf"] ==>
      UseMarkerSymbol(name, onError).symbol == None
  {
  }

  /** The symbol depends on the type alone, not on which error handler is registered. */
  lemma SymbolIndependentOfErrorHandler(markerType: string, h1: Option<HandlerId>, h2: Option<HandlerId>)
    ensures UseMarkerSymbol(markerType, h1).symbol == UseMarkerSymbol(markerType, h2).symbol
  {
  }
}
