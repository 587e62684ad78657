/** The element trees the chart writer produces, as functions of the chart:
    what each `_write_*` method of openpyxl/writer/charts.py appends to the
    element it is given. The methods of module ChartWriters build the same
    trees in place and are proved equal to these functions. */
module ChartXml {
  import opened Results
  import opened Xml
  import opened NumberText
  import opened ChartModel

  const ChartNamespace := "http://schemas.openxmlformats.org/drawingml/2006/chart"
  const DrawingNamespace := "http://schemas.openxmlformats.org/drawingml/2006/main"
  const RelationshipsNamespace := "http://schemas.openxmlformats.org/officeDocument/2006/relationships"
  const PackageRelationshipsNamespace := "http://schemas.openxmlformats.org/package/2006/relationships"
  const ChartUserShapesType := "http://schemas.openxmlformats.org/officeDocument/2006/relationships/chartUserShapes"

  /** The writer classes: one variant per subclass of `BaseChartWriter`. */
  datatype Writer =
    | PieChartWriter(chart: Chart)
    | LineChartWriter(chart: Chart)
    | BarChartWriter(chart: Chart)
    | ScatterChartWriter(chart: Chart)

  /** The `ValueError` the dispatcher raises, with the chart's class name. */
  datatype ChartError = UnsupportedChart(className: string)

  /** The chart class each writer class is meant for. */
  function HandledClass(w: Writer): ChartClass
  {
    match w
    case PieChartWriter(_) => PieChart
    case LineChartWriter(_) => LineChart
    case BarChartWriter(_) => BarChart
    case ScatterChartWriter(_) => ScatterChart
  }

  /** `ChartWriter.__init__`: the first of Pie, Line, Bar and Scatter that
      the chart is an instance of selects the writer; any other chart raises
      `ValueError` before anything is written. */
  function NewChartWriter(chart: Chart): (r: Result<Writer, ChartError>)
    ensures r.Ok? <==> !chart.kind.OtherChart?
    ensures r.Ok? ==> r.value.chart == chart && HandledClass(r.value) == chart.kind
    ensures r.Err? ==> r.error == UnsupportedChart(chart.kind.className)
  {
    if chart.kind == PieChart then Ok(PieChartWriter(chart))
    else if chart.kind == LineChart then Ok(LineChartWriter(chart))
    else if chart.kind == BarChart then Ok(BarChartWriter(chart))
    else if chart.kind == ScatterChart then Ok(ScatterChartWriter(chart))
    else Err(UnsupportedChart(chart.kind.className))
  }

  /** The two axis tags `_write_axis` is called with. */
  datatype AxisLabel = CatAx | ValAx

  function LabelName(tag: AxisLabel): string
  {
    match tag
    case CatAx => "c:catAx"
    case ValAx => "c:valAx"
  }

  function Val(v: string): map<string, string>
  {
    map["val" := v]
  }

  // ---- _write_serial ----

  /** The `mapping` table: reference and cache tags per data type. */
  function RefName(t: DataType): string
  {
    match t
    case NumberData => "c:numRef"
    case StringData => "c:strRef"
  }

  function CacheName(t: DataType): string
  {
    match t
    case NumberData => "c:numCache"
    case StringData => "c:strCache"
  }

  /** The text of one point: strings as they are, numbers through `safe_string`. */
  function Render(v: Value): string
  {
    match v
    case Str(s) => s
    case Num(x) => SafeString(x)
  }

  function PointNode(j: nat, v: Value): Node
  {
    Node("c:pt", map["idx" := IntText(j)], "", [TextLeaf("c:v", Render(v))])
  }

  /** The `c:pt` elements for the first `n` values, in order. */
  function Points(values: seq<Value>, n: nat): seq<Node>
    requires n <= |values|
  {
    if n == 0 then [] else Points(values, n - 1) + [PointNode(n - 1, values[n - 1])]
  }

  /** The values an unbound reference is written with, whatever it holds. */
  const LiteralValues: seq<Value> := [Num(Int(1))]

  /** The values a reference is written with: a bound reference's own
      values, and the single value 1 for any other reference. */
  function WrittenValues(r: Reference): seq<Value>
  {
    if r.Bound? then r.values else LiteralValues
  }

  function FormatCodeNodes(t: DataType, numberFormat: string): seq<Node>
  {
    if t == NumberData then [TextLeaf("c:formatCode", if numberFormat == "" then "General" else numberFormat)]
    else []
  }

  /** A cache or literal block: format code, point count, points. */
  function DataNode(name: string, t: DataType, numberFormat: string, values: seq<Value>): Node
  {
    Parent(name, FormatCodeNodes(t, numberFormat)
                 + [Leaf("c:ptCount", Val(IntText(|values|)))]
                 + Points(values, |values|))
  }

  /** The single element `_write_serial` appends for a reference. */
  function SerialNode(r: Reference): Node
  {
    match r
    case Bound(address, t, values, numberFormat) =>
      Parent(RefName(t), [TextLeaf("c:f", address), DataNode(CacheName(t), t, numberFormat, values)])
    case Unbound(t, _, numberFormat) =>
      DataNode("c:numLit", t, numberFormat, LiteralValues)
  }

  // ---- _write_error_bar ----

  /** The `flag` table. */
  function ErrorBarFlag(k: ErrorBarType): string
  {
    match k
    case PlusMinus => "both"
    case Plus => "plus"
    case Minus => "minus"
  }

  function ErrorBarNode(eb: ErrorBar): Node
  {
    Parent("c:errBars", [
      Leaf("c:errBarType", Val(ErrorBarFlag(eb.kind))),
      Leaf("c:errValType", Val("cust")),
      Parent("c:plus", [SerialNode(eb.reference)]),
      Parent("c:minus", [SerialNode(eb.reference)])])
  }

  // ---- _write_series ----

  function ColorNodes(kind: ChartClass, color: string): seq<Node>
  {
    if color == "" then []
    else
      var rgb := Leaf("a:srgbClr", Val(color));
      [Parent("c:spPr",
         (if kind == BarChart then [Parent("a:solidFill", [rgb])] else [])
         + [Parent("a:ln", [Parent("a:solidFill", [rgb])])])]
  }

  function LegendLabelNodes(s: Series): seq<Node>
  {
    if s.legend.Some? then [Parent("c:tx", [SerialNode(s.legend.value)])] else []
  }

  function ErrorBarNodes(s: Series): seq<Node>
  {
    if s.errorBar.Some? then [ErrorBarNode(s.errorBar.value)] else []
  }

  function CategoryNodes(s: Series): seq<Node>
  {
    if s.labels.Some? then [Parent("c:cat", [SerialNode(s.labels.value)])] else []
  }

  function ValueNodes(kind: ChartClass, s: Series): seq<Node>
  {
    if kind == ScatterChart then
      (if s.xreference.Some? then [Parent("c:xVal", [SerialNode(s.xreference.value)])] else [])
      + [Parent("c:yVal", [SerialNode(s.reference)])]
    else [Parent("c:val", [SerialNode(s.reference)])]
  }

  /** The position of a series, written as both its index and its order. */
  function SeriesIdNodes(i: nat): seq<Node>
    requires i < Pow15
  {
    [Leaf("c:idx", Val(SafeString(Int(i)))), Leaf("c:order", Val(SafeString(Int(i))))]
  }

  /** The `c:ser` element of the series at position `i`. */
  function SeriesNode(kind: ChartClass, i: nat, s: Series): Node
    requires i < Pow15
  {
    Parent("c:ser",
      SeriesIdNodes(i) + LegendLabelNodes(s) + ColorNodes(kind, s.color) + ErrorBarNodes(s)
      + CategoryNodes(s) + ValueNodes(kind, s))
  }

  /** The `c:ser` elements of the chart's series, in list order. */
  function AllSeriesNodes(chart: Chart): seq<Node>
  {
    seq(|chart.series|, i requires 0 <= i < |chart.series| => SeriesNode(chart.kind, i, chart.series[i]))
  }

  // ---- _write_title and the axis title ----

  /** The rich text of a title: one paragraph with one run in `lang`. */
  function TitleRichNode(lang: string, title: string): Node
  {
    Parent("c:rich", [
      Leaf("a:bodyPr", map[]),
      Leaf("a:lstStyle", map[]),
      Parent("a:p", [
        Parent("a:pPr", [Leaf("a:defRPr", map[])]),
        Parent("a:r", [Leaf("a:rPr", map["lang" := lang]), TextLeaf("a:t", title)])])])
  }

  function TitleNode(lang: string, title: string): Node
  {
    Parent("c:title", [Parent("c:tx", [TitleRichNode(lang, title)]), Leaf("c:layout", map[])])
  }

  function TitleNodes(lang: string, title: string): seq<Node>
  {
    if title != "" then [TitleNode(lang, title)] else []
  }

  // ---- _write_axis ----

  /** The start of an axis: id, scaling, position and, for a value axis,
      gridlines and number format. */
  function AxisScaleNodes(axis: Axis, tag: AxisLabel): seq<Node>
  {
    var isVal := tag == ValAx;
    [Leaf("c:axId", Val(SafeString(axis.id))),
     Parent("c:scaling",
       [Leaf("c:orientation", Val(axis.orientation))]
       + (if isVal then [Leaf("c:max", Val(FloatText(axis.max))), Leaf("c:min", Val(FloatText(axis.min)))] else [])),
     Leaf("c:axPos", Val(axis.position))]
    + (if isVal then [Leaf("c:majorGridlines", map[]),
                      Leaf("c:numFmt", map["formatCode" := "General", "sourceLinked" := "1"])] else [])
  }

  /** The crossing settings of an axis; `c:auto`, `c:lblAlgn` and
      `c:lblOffset` only when their setting is truthy. */
  function AxisCrossNodes(axis: Axis): seq<Node>
  {
    [Leaf("c:tickLblPos", Val(axis.tickLabelPosition)),
     Leaf("c:crossAx", Val(IntText(axis.cross))),
     Leaf("c:crosses", Val(axis.crosses))]
    + (if axis.auto then [Leaf("c:auto", Val("1"))] else [])
    + (if axis.labelAlign != "" then [Leaf("c:lblAlgn", Val(axis.labelAlign))] else [])
    + (if axis.labelOffset != 0 then [Leaf("c:lblOffset", Val(IntText(axis.labelOffset)))] else [])
  }

  /** The end of a value axis: cross-between mode and major unit. */
  function ValueAxisTailNodes(axis: Axis, tag: AxisLabel, crossBetween: string): seq<Node>
  {
    if tag == ValAx then [Leaf("c:crossBetween", Val(crossBetween)), Leaf("c:majorUnit", Val(FloatText(axis.unit)))]
    else []
  }

  /** The body shared by `BaseChartWriter._write_axis` and
      `ScatterChartWriter._write_axis`; they differ only in `crossBetween`. */
  function AxisNode(lang: string, axis: Axis, tag: AxisLabel, crossBetween: string): Node
  {
    Parent(LabelName(tag),
      AxisScaleNodes(axis, tag) + TitleNodes(lang, axis.title) + AxisCrossNodes(axis)
      + ValueAxisTailNodes(axis, tag, crossBetween))
  }

  /** `BaseChartWriter._write_axis`. */
  function BaseAxisNodes(chart: Chart, axis: Axis, tag: AxisLabel): seq<Node>
  {
    if chart.kind == PieChart then []
    else [AxisNode(chart.lang, axis, tag, if chart.kind == ScatterChart then "midCat" else "between")]
  }

  /** `ScatterChartWriter._write_axis`. */
  function ScatterAxisNodes(chart: Chart, axis: Axis, tag: AxisLabel): seq<Node>
  {
    [AxisNode(chart.lang, axis, tag, "midCat")]
  }

  // ---- _write_legend, layout, print settings, shapes ----

  function LegendNodes(chart: Chart): seq<Node>
  {
    if chart.showLegend then [Parent("c:legend", [Leaf("c:legendPos", Val(chart.legendPosition)), Leaf("c:layout", map[])])]
    else []
  }

  /** The manual layout block each `_write_chart` starts its plot area with. */
  function LayoutNode(chart: Chart): Node
  {
    Parent("c:layout", [
      Parent("c:manualLayout", [
        Leaf("c:layoutTarget", Val("inner")),
        Leaf("c:xMode", Val("edge")),
        Leaf("c:yMode", Val("edge")),
        Leaf("c:x", Val(SafeString(chart.marginLeft))),
        Leaf("c:y", Val(SafeString(chart.marginTop))),
        Leaf("c:w", Val(SafeString(chart.width))),
        Leaf("c:h", Val(SafeString(chart.height)))])])
  }

  function PageMargins(chart: Chart): map<string, string>
  {
    map k | k in chart.printMargins :: SafeString(chart.printMargins[k])
  }

  function PrintSettingsNode(chart: Chart): Node
  {
    Parent("c:printSettings", [
      Leaf("c:headerFooter", map[]),
      Leaf("c:pageMargins", PageMargins(chart)),
      Leaf("c:pageSetup", map[])])
  }

  function ShapesNodes(chart: Chart): seq<Node>
  {
    if chart.hasShapes then [Leaf("c:userShapes", map["r:id" := "rId1"])] else []
  }

  // ---- the four _write_chart methods ----

  function AxisIdNodes(chart: Chart): seq<Node>
  {
    [Leaf("c:axId", Val(SafeString(chart.xAxis.id))), Leaf("c:axId", Val(SafeString(chart.yAxis.id)))]
  }

  /** The chart-type element inside the plot area. */
  function SubchartNode(w: Writer): Node
  {
    var chart := w.chart;
    match w
    case PieChartWriter(_) =>
      Parent("c:pieChart", [Leaf("c:varyColors", Val("1"))] + AllSeriesNodes(chart))
    case LineChartWriter(_) =>
      Parent("c:lineChart", [Leaf("c:grouping", Val(chart.grouping))] + AllSeriesNodes(chart) + AxisIdNodes(chart))
    case BarChartWriter(_) =>
      Parent("c:barChart", [Leaf("c:barDir", Val("col")), Leaf("c:grouping", Val(chart.grouping))]
                           + AllSeriesNodes(chart) + AxisIdNodes(chart))
    case ScatterChartWriter(_) =>
      Parent("c:scatterChart", [Leaf("c:scatterStyle", Val("lineMarker"))] + AllSeriesNodes(chart) + AxisIdNodes(chart))
  }

  /** The axes each writer appends to the plot area after the chart-type element. */
  function AxesNodes(w: Writer): seq<Node>
  {
    var chart := w.chart;
    match w
    case PieChartWriter(_) => []
    case ScatterChartWriter(_) =>
      ScatterAxisNodes(chart, chart.xAxis, ValAx) + ScatterAxisNodes(chart, chart.yAxis, ValAx)
    case _ =>
      BaseAxisNodes(chart, chart.xAxis, CatAx) + BaseAxisNodes(chart, chart.yAxis, ValAx)
  }

  function PlotAreaNode(w: Writer): Node
  {
    Parent("c:plotArea", [LayoutNode(w.chart), SubchartNode(w)] + AxesNodes(w))
  }

  /** The `c:chart` element `_write_chart` appends to the root. */
  function ChartNode(w: Writer): Node
  {
    var chart := w.chart;
    Parent("c:chart", TitleNodes(chart.lang, chart.title) + [PlotAreaNode(w)]
                      + LegendNodes(chart) + [Leaf("c:plotVisOnly", Val("1"))])
  }

  // ---- write and write_rels ----

  function NamespaceAttrs(): map<string, string>
  {
    map["xmlns:c" := ChartNamespace, "xmlns:a" := DrawingNamespace, "xmlns:r" := RelationshipsNamespace]
  }

  /** The document `write` produces, before serialisation. */
  function ChartSpaceNode(w: Writer): Node
  {
    Node("c:chartSpace", NamespaceAttrs(), "",
      [Leaf("c:lang", Val(w.chart.lang)), ChartNode(w), PrintSettingsNode(w.chart)] + ShapesNodes(w.chart))
  }

  function RelsTarget(drawingId: int): string
  {
    "../drawings/drawing" + IntText(drawingId) + ".xml"
  }

  /** The document `write_rels` produces, before serialisation. */
  function RelsNode(drawingId: int): Node
  {
    Node("Relationships", map["xmlns" := PackageRelationshipsNamespace], "", [
      Leaf("Relationship", map["Id" := "rId1", "Type" := ChartUserShapesType, "Target" := RelsTarget(drawingId)])])
  }
}
