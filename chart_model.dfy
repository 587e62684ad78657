/** The in-memory chart the writer reads: only the attributes that
    openpyxl/writer/charts.py reads, as immutable values. How the chart model
    fills them in is not part of this model. */
module ChartModel {
  import opened Results
  import opened NumberText

  /** The class of a chart object. A chart's `type` attribute is taken to
      agree with its class. `OtherChart` is any class the writer does not know. */
  datatype ChartClass = PieChart | LineChart | BarChart | ScatterChart | OtherChart(className: string)

  /** A reference's `data_type`: 'n' (numbers) or 's' (strings). */
  datatype DataType = NumberData | StringData

  /** A cell value in a reference's cache. */
  datatype Value = Num(number: Number) | Str(str: string)

  /** A data source. A `Bound` reference (one with a `pos1`) names a cell
      range: `address` is `str(reference)`. An `Unbound` one has no address;
      the writer ignores its values. `numberFormat == ""` stands for an unset
      `number_format`. */
  datatype Reference =
    | Bound(address: string, dataType: DataType, values: seq<Value>, numberFormat: string)
    | Unbound(dataType: DataType, values: seq<Value>, numberFormat: string)

  /** `ErrorBar.PLUS`, `ErrorBar.MINUS` and `ErrorBar.PLUS_MINUS`. */
  datatype ErrorBarType = Plus | Minus | PlusMinus

  datatype ErrorBar = ErrorBar(kind: ErrorBarType, reference: Reference)

  /** One series. `None` and `""` stand for the attributes the writer finds
      falsy; `xreference` is set exactly when the series has x values. */
  datatype Series = Series(
    reference: Reference,
    labels: Option<Reference>,
    legend: Option<Reference>,
    color: string,
    errorBar: Option<ErrorBar>,
    xreference: Option<Reference>)

  /** One axis, with `min`, `max` and `unit` already computed.
      `labelAlign == ""` and `labelOffset == 0` stand for falsy settings. */
  datatype Axis = Axis(
    id: Number,
    orientation: string,
    max: Number,
    min: Number,
    position: string,
    title: string,
    tickLabelPosition: string,
    cross: int,
    crosses: string,
    auto: bool,
    labelAlign: string,
    labelOffset: int,
    unit: Number)

  /** A chart's series, in order; no list reaches 10^15 entries. */
  type SeriesList = s: seq<Series> | |s| < Pow15

  /** A chart. `printMargins` maps each margin name to its value;
      `hasShapes` tells whether `_shapes` is non-empty. */
  datatype Chart = Chart(
    kind: ChartClass,
    title: string,
    lang: string,
    marginLeft: Number,
    marginTop: Number,
    width: Number,
    height: Number,
    grouping: string,
    series: SeriesList,
    xAxis: Axis,
    yAxis: Axis,
    showLegend: bool,
    legendPosition: string,
    printMargins: map<string, Number>,
    hasShapes: bool)
}
