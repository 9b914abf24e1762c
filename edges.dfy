/**
  * The edge data model of the diagram editor: marker types and their
  * wire-stable strings, edge markers, the edge record with its three variants,
  * the default-edge options, and connection line types.
  *
  * JavaScript numbers are modelled as `real`; CSS style objects, React nodes
  * used as labels and mouse handlers are not part of this model.
  */
module Edges {
  import opened Wrappers

  /** The eight edge-end decorations. */
  datatype MarkerType =
    | Arrow           // line arrow
    | ArrowClosed     // filled arrow
    | ArrowSingle     // single-sided arrow
    | ArrowEmpty      // hollow arrow
    | Diagonal        // hollow diamond
    | DiagonalFilled  // filled diamond
    | Circle          // hollow dot
    | CircleFilled    // filled dot

  const AllMarkerTypes: seq<MarkerType> :=
    [Arrow, ArrowClosed, ArrowSingle, ArrowEmpty, Diagonal, DiagonalFilled, Circle, CircleFilled]

  /** The wire-stable string of each marker type (the enum's string value). */
  function MarkerTypeWire(m: MarkerType): string {
    match m
    case Arrow => "arrow"
    case ArrowClosed => "arrowclosed"
    case ArrowSingle => "arrow-single"
    case ArrowEmpty => "arrow-empty"
    case Diagonal => "diagonal"
    case DiagonalFilled => "diagonal-filled"
    case Circle => "circle"
    case CircleFilled => "circle-filled"
  }

  /** The member whose wire string is `s`, if there is one. */
  function ParseMarkerType(s: string): (r: Option<MarkerType>)
    ensures forall m :: r == Some(m) <==> MarkerTypeWire(m) == s
  {
    if s == "arrow" then Some(Arrow)
    else if s == "arrowclosed" then Some(ArrowClosed)
    else if s == "arrow-single" then Some(ArrowSingle)
    else if s == "arrow-empty" then Some(ArrowEmpty)
    else if s == "diagonal" then Some(Diagonal)
    else if s == "diagonal-filled" then Some(DiagonalFilled)
    else if s == "circle" then Some(Circle)
    else if s == "circle-filled" then Some(CircleFilled)
    else None
  }

  /** The enumeration lists every member once, and the eight wire strings are pairwise distinct. */
  lemma MarkerTypeEnumeration()
    ensures |AllMarkerTypes| == 8
    ensures forall m :: m in AllMarkerTypes
    ensures forall i, j :: 0 <= i < j < |AllMarkerTypes| ==>
      MarkerTypeWire(AllMarkerTypes[i]) != MarkerTypeWire(AllMarkerTypes[j])
  {
    forall m ensures m in AllMarkerTypes {
      match m
      case Arrow => assert AllMarkerTypes[0] == m;
      case ArrowClosed => assert AllMarkerTypes[1] == m;
      case ArrowSingle => assert AllMarkerTypes[2] == m;
      case ArrowEmpty => assert AllMarkerTypes[3] == m;
      case Diagonal => assert AllMarkerTypes[4] == m;
      case DiagonalFilled => assert AllMarkerTypes[5] == m;
      case Circle => assert AllMarkerTypes[6] == m;
      case CircleFilled => assert AllMarkerTypes[7] == m;
    }
  }

  /** Printing then parsing gives the member back. */
  lemma MarkerTypeRoundTrip(m: MarkerType)
    ensures ParseMarkerType(MarkerTypeWire(m)) == Some(m)
  {
  }

  /** The kind of line drawn while a connection is being dragged. */
  datatype ConnectionLineType = Bezier | Straight | Step | SmoothStep | SimpleBezier

  const AllConnectionLineTypes: seq<ConnectionLineType> :=
    [Bezier, Straight, Step, SmoothStep, SimpleBezier]

  function ConnectionLineTypeWire(c: ConnectionLineType): string {
    match c
    case Bezier => "default"
    case Straight => "straight"
    case Step => "step"
    case SmoothStep => "smoothstep"
    case SimpleBezier => "simplebezier"
  }

  function ParseConnectionLineType(s: string): (r: Option<ConnectionLineType>)
    ensures forall c :: r == Some(c) <==> ConnectionLineTypeWire(c) == s
  {
    if s == "default" then Some(Bezier)
    else if s == "straight" then Some(Straight)
    else if s == "step" then Some(Step)
    else if s == "smoothstep" then Some(SmoothStep)
    else if s == "simplebezier" then Some(SimpleBezier)
    else None
  }

  lemma ConnectionLineTypeEnumeration()
    ensures |AllConnectionLineTypes| == 5
    ensures forall c :: c in AllConnectionLineTypes
    ensures forall i, j :: 0 <= i < j < |AllConnectionLineTypes| ==>
      ConnectionLineTypeWire(AllConnectionLineTypes[i]) != ConnectionLineTypeWire(AllConnectionLineTypes[j])
  {
    forall c ensures c in AllConnectionLineTypes {
      match c
      case Bezier => assert AllConnectionLineTypes[0] == c;
      case Straight => assert AllConnectionLineTypes[1] == c;
      case Step => assert AllConnectionLineTypes[2] == c;
      case SmoothStep => assert AllConnectionLineTypes[3] == c;
      case SimpleBezier => assert AllConnectionLineTypes[4] == c;
    }
  }

  /** A marker given as a record: its type is required, everything else optional. */
  datatype EdgeMarker = EdgeMarker(
    markerType: MarkerType,
    color: Option<string>,
    width: Option<real>,
    height: Option<real>,
    markerUnits: Option<string>,
    orient: Option<string>,
    strokeWidth: Option<real>)

  /** An edge end decoration: either a bare string or a marker record. */
  datatype EdgeMarkerType = MarkerName(name: string) | MarkerRecord(marker: EdgeMarker)

  /** A node, as far as edges and selection see it. */
  datatype Node = Node(id: string, selected: Option<bool>)

  /** Which end of an edge a handle sits on. */
  datatype HandleType = SourceEnd | TargetEnd

  /** `updatable`: a flag for both ends, or the one end that may be reconnected. */
  datatype EdgeUpdatable = UpdatableFlag(enabled: bool) | UpdatableEnd(end: HandleType)

  datatype SmoothStepPathOptions = SmoothStepPathOptions(offset: Option<real>, borderRadius: Option<real>)

  datatype BezierPathOptions = BezierPathOptions(curvature: Option<real>)

  /**
    * The three members of the edge union: a default edge with an optional free
    * `type` string, a smoothstep edge whose `type` is "smoothstep", and a bezier
    * edge whose `type` is "default"; the last two carry their own path options.
    */
  datatype EdgeVariant =
    | DefaultEdge(edgeType: Option<string>)
    | SmoothStepEdge(smoothStepOptions: Option<SmoothStepPathOptions>)
    | BezierEdge(bezierOptions: Option<BezierPathOptions>)

  /** The label fields every edge may carry (a React node label is not modelled). */
  datatype EdgeLabelOptions = EdgeLabelOptions(
    labelText: Option<string>,
    labelShowBg: Option<bool>,
    labelBgPadding: Option<(real, real)>,
    labelBgBorderRadius: Option<real>)

  /**
    * A user edge. `sourceHandle` and `targetHandle` are optional and nullable:
    * `None` is an absent property, `Some(None)` an explicit null.
    */
  datatype Edge<T> = Edge(
    id: string,
    source: string,
    target: string,
    variant: EdgeVariant,
    sourceHandle: Option<Option<string>>,
    targetHandle: Option<Option<string>>,
    animated: Option<bool>,
    hidden: Option<bool>,
    deletable: Option<bool>,
    data: Option<T>,
    className: Option<string>,
    sourceNode: Option<Node>,
    targetNode: Option<Node>,
    selected: Option<bool>,
    markerStart: Option<EdgeMarkerType>,
    markerEnd: Option<EdgeMarkerType>,
    zIndex: Option<real>,
    ariaLabel: Option<string>,
    interactionWidth: Option<real>,
    focusable: Option<bool>,
    updatable: Option<EdgeUpdatable>,
    labelOptions: EdgeLabelOptions)

  /** The edge's `type` property, whichever member of the union it is. */
  function EdgeType<T>(e: Edge<T>): (t: Option<string>)
    ensures e.variant.SmoothStepEdge? ==> t == Some(ConnectionLineTypeWire(SmoothStep))
    ensures e.variant.BezierEdge? ==> t == Some(ConnectionLineTypeWire(Bezier))
    ensures e.variant.DefaultEdge? ==> t == e.variant.edgeType
  {
    match e.variant
    case DefaultEdge(t) => t
    case SmoothStepEdge(_) => Some("smoothstep")
    case BezierEdge(_) => Some("default")
  }

  /**
    * The options applied to every new edge: an edge without its identity and
    * endpoints. `pathOptions` is not a property of every member of the union,
    * so it is not an option either; `type` is.
    */
  datatype DefaultEdgeOptions<T> = DefaultEdgeOptions(
    edgeType: Option<string>,
    animated: Option<bool>,
    hidden: Option<bool>,
    deletable: Option<bool>,
    data: Option<T>,
    className: Option<string>,
    selected: Option<bool>,
    markerStart: Option<EdgeMarkerType>,
    markerEnd: Option<EdgeMarkerType>,
    zIndex: Option<real>,
    ariaLabel: Option<string>,
    interactionWidth: Option<real>,
    focusable: Option<bool>,
    updatable: Option<EdgeUpdatable>,
    labelOptions: EdgeLabelOptions)

  /** The options part of an edge: everything but id, source, target, the handles and the nodes. */
  function OmitIdentity<T>(e: Edge<T>): (o: DefaultEdgeOptions<T>)
    ensures o.edgeType == EdgeType(e)
    ensures o.selected == e.selected && o.markerStart == e.markerStart && o.markerEnd == e.markerEnd
    ensures o.data == e.data && o.labelOptions == e.labelOptions && o.updatable == e.updatable
    ensures o.animated == e.animated && o.hidden == e.hidden && o.deletable == e.deletable
    ensures o.className == e.className && o.zIndex == e.zIndex && o.ariaLabel == e.ariaLabel
    ensures o.interactionWidth == e.interactionWidth && o.focusable == e.focusable
  {
    DefaultEdgeOptions(
      EdgeType(e), e.animated, e.hidden, e.deletable, e.data, e.className, e.selected,
      e.markerStart, e.markerEnd, e.zIndex, e.ariaLabel, e.interactionWidth, e.focusable,
      e.updatable, e.labelOptions)
  }

  /** The options never depend on the omitted identity fields. */
  lemma OmitIdentityIgnoresIdentity<T>(
    e: Edge<T>, id: string, source: string, target: string,
    sourceHandle: Option<Option<string>>, targetHandle: Option<Option<string>>,
    sourceNode: Option<Node>, targetNode: Option<Node>)
    ensures OmitIdentity(e.(id := id, source := source, target := target,
                            sourceHandle := sourceHandle, targetHandle := targetHandle,
                            sourceNode := sourceNode, targetNode := targetNode))
         == OmitIdentity(e)
  {
  }

  /** Conversely, equal options mean equal type and equal values in every field that is not identity. */
  lemma OmitIdentityDeterminesOptions<T>(e1: Edge<T>, e2: Edge<T>)
    requires OmitIdentity(e1) == OmitIdentity(e2)
    ensures EdgeType(e1) == EdgeType(e2)
    ensures e1.animated == e2.animated && e1.hidden == e2.hidden && e1.deletable == e2.deletable
    ensures e1.data == e2.data && e1.className == e2.className && e1.selected == e2.selected
    ensures e1.markerStart == e2.markerStart && e1.markerEnd == e2.markerEnd
    ensures e1.zIndex == e2.zIndex && e1.ariaLabel == e2.ariaLabel
    ensures e1.interactionWidth == e2.interactionWidth && e1.focusable == e2.focusable
    ensures e1.updatable == e2.updatable && e1.labelOptions == e2.labelOptions
  {
  }

  /** Path options do not survive into the options: only the `type` string does. */
  lemma OmitIdentityDropsPathOptions<T>(e: Edge<T>)
    ensures OmitIdentity(e.(variant := DefaultEdge(EdgeType(e)))) == OmitIdentity(e)
  {
  }
}
