# openpyxl chart writer, modelled in Dafny

This project models the chart writer of openpyxl (`openpyxl/writer/charts.py`):
the code that turns an in-memory chart (a pie, line, bar or scatter chart with
its series, axes, title, legend and print margins) into the DrawingML
`c:chartSpace` element tree of a chart part, and that writes the relationships
part pointing a chart at its user shapes drawing.

The model has two layers.

- `ChartXml` (chart_xml.dfy) says, as pure functions of the chart, which element
  tree each `_write_*` method appends: `SerialNode` for `_write_serial`,
  `ErrorBarNode` for `_write_error_bar`, `SeriesNode` for one pass of the
  `_write_series` loop, `AxisNode` for `_write_axis`, `ChartNode` for the four
  `_write_chart` methods, `ChartSpaceNode` for `write`, and `RelsNode` for
  `write_rels`. `NewChartWriter` is the `ChartWriter` dispatcher.
- `ChartWriters` (chart_writers.dfy) builds the same trees the way the source
  does: step by step, in place, through `Xml.Element`, which models the `Element` and
  `SubElement` of `openpyxl.shared.xmltools`. Each method is proved to leave exactly the tree its `ChartXml`
  function describes.

The properties the writer promises are proved as lemmas about the `ChartXml`
functions:

- SerialFacts: the data blocks, their point counts and point texts, which read
  back to the values.
- SeriesFacts: the `c:ser` elements, their numbering and the order of their
  children.
- AxisFacts: the axes and which settings each kind of axis carries.
- DocumentFacts: the envelope, the chart element, the chart-type element,
  the plot area, the page margins and the relationships part.
- TreeCounts: how many `c:ser`, `c:catAx` and `c:valAx` elements a whole
  document holds.

Numbers are rendered by `NumberText`. `SafeString` stands for `"%.15g" % value`
and `FloatText` for `str(float(value))` as Python 3 renders it. Both are exact
for integers below 10^15 in magnitude; such texts are proved to parse back to
the integer.

## Model

| member | source | states |
|---|---|---|
| ChartXml.NewChartWriter | openpyxl/writer/charts.py:436-446 | a writer is chosen exactly when the chart is a Pie, Line, Bar or Scatter chart; it writes that chart and is the writer for its class; any other class gives the ValueError carrying the class name |
| DocumentFacts.DispatchConsistent | openpyxl/writer/charts.py:437-444 | each of the four chart classes selects its own writer class (Pie, Line, Bar, Scatter), and the chosen writer always matches the chart's class |
| ChartWriters.WriteChartDocument | openpyxl/writer/charts.py:431-449 | `ChartWriter(chart).write()`: an error exactly for an unsupported class, carrying its name, and otherwise the chartSpace document of the dispatched writer |
| ChartWriters.Write | openpyxl/writer/charts.py:52-65 | `write` builds, in place, exactly the chartSpace tree `ChartSpaceNode` |
| DocumentFacts.ChartSpaceEnvelope | openpyxl/writer/charts.py:55-63 | the root is `c:chartSpace` with exactly the three namespace attributes c, a and r and their URIs; its children are `c:lang` (the chart's language), `c:chart`, `c:printSettings`, then `c:userShapes` with r:id "rId1" only when the chart has shapes |
| ChartWriters.WriteTitle | openpyxl/writer/charts.py:67-80 | appends nothing for an empty title, otherwise the one `c:title` block `TitleNode` |
| ChartWriters.WriteTitleRich | openpyxl/writer/charts.py:71-79 | appends the `c:rich` text block: body properties, list style, and a paragraph whose run carries the language and the title text |
| AxisFacts.TitleNames | openpyxl/writer/charts.py:67-80 | the title block holds a `c:title` exactly when the title is non-empty |
| ChartWriters.WriteAxis | openpyxl/writer/charts.py:82-128 | the base `_write_axis` appends exactly `BaseAxisNodes`: nothing for a Pie chart, otherwise one axis element |
| ChartWriters.WriteAxisBody | openpyxl/writer/charts.py:88-128 | appends exactly one axis element `AxisNode`, built in place |
| ChartWriters.WriteAxisScale | openpyxl/writer/charts.py:89-100 | appends the id, the scaling (with max and min on value axes), the position, and, on value axes, gridlines and number format |
| ChartWriters.WriteAxisCrossing | openpyxl/writer/charts.py:114-122 | appends the tick label position, the crossing axis and the crossing, then auto, label alignment and label offset, each only when set |
| ChartWriters.WriteValueAxisTail | openpyxl/writer/charts.py:123-128 | appends the cross-between mode and the major unit on value axes only |
| ChartWriters.WriteScatterAxis | openpyxl/writer/charts.py:388-428 | the Scatter `_write_axis` appends one axis element with cross-between "midCat", whatever the chart type |
| AxisFacts.ScaleNames | openpyxl/writer/charts.py:89-100 | the start of an axis is `c:axId`, `c:scaling`, `c:axPos`, followed by `c:majorGridlines` and `c:numFmt` only on a value axis |
| AxisFacts.CrossNames | openpyxl/writer/charts.py:114-122 | `c:tickLblPos`, `c:crossAx`, `c:crosses`, then `c:auto` iff auto, `c:lblAlgn` iff an alignment is set, `c:lblOffset` iff the offset is non-zero |
| AxisFacts.TailNames | openpyxl/writer/charts.py:123-128 | `c:crossBetween` then `c:majorUnit` on a value axis, nothing on a category axis |
| AxisFacts.AxisLayout | openpyxl/writer/charts.py:88-128 | the axis element is `c:valAx` or `c:catAx` as asked, and its children's names are exactly `AxisChildNames` of its tag and its optional settings, in source order |
| AxisFacts.GridAndFormatOnlyOnValueAxis | openpyxl/writer/charts.py:98-100 | a written axis has `c:majorGridlines` and `c:numFmt` if and only if it is a value axis |
| AxisFacts.CrossBetweenAndUnitOnlyOnValueAxis | openpyxl/writer/charts.py:123-128 | a written axis has `c:crossBetween` and `c:majorUnit` if and only if it is a value axis |
| AxisFacts.TitleOnlyWhenSet | openpyxl/writer/charts.py:101-113 | a written axis has a `c:title` if and only if its title is non-empty |
| AxisFacts.AutoOnlyWhenSet | openpyxl/writer/charts.py:117-118 | a written axis has `c:auto` if and only if `auto` is set |
| AxisFacts.AlignOnlyWhenSet | openpyxl/writer/charts.py:119-120 | a written axis has `c:lblAlgn` if and only if a label alignment is set |
| AxisFacts.OffsetOnlyWhenSet | openpyxl/writer/charts.py:121-122 | a written axis has `c:lblOffset` if and only if the label offset is non-zero |
| AxisFacts.AxisScaling | openpyxl/writer/charts.py:91-95 | the scaling holds the orientation, and on a value axis `c:max` and `c:min` rendered as floats; on a category axis only the orientation |
| AxisFacts.AxisValues | openpyxl/writer/charts.py:89-128 | the first child is `c:axId` holding `safe_string` of the id, which reads back as the id when it is an integer; the third is the position; a value axis has the General/sourceLinked number format at index 4 and ends with the cross-between mode and the major unit |
| AxisFacts.AxisTitleAndCrossing | openpyxl/writer/charts.py:101-115 | the title, when set, comes right after the value-axis block, and `c:crossAx` right after the label position, reading back as the crossing axis id |
| AxisFacts.AxisVariants | openpyxl/writer/charts.py:82-128 | the base writer writes no axis iff the chart is a Pie chart, otherwise one with cross-between "midCat" for Scatter and "between" for the rest; the Scatter override always uses "midCat", so on a Scatter chart it agrees with the base one |
| ChartWriters.WriteSeries | openpyxl/writer/charts.py:130-167 | the loop appends the `c:ser` element of every series, in list order: exactly `AllSeriesNodes` |
| ChartWriters.WriteSerie | openpyxl/writer/charts.py:133-167 | one loop pass appends exactly `SeriesNode` for series `i` |
| ChartWriters.WriteSerieIds | openpyxl/writer/charts.py:134-135 | appends `c:idx` and `c:order`, both carrying `safe_string(i)` |
| ChartWriters.WriteSerieLegend | openpyxl/writer/charts.py:137-139 | appends `c:tx` holding the legend's block only when the series has a legend |
| ChartWriters.WriteSerieColor | openpyxl/writer/charts.py:141-150 | appends `c:spPr` only for a non-empty colour: a fill for Bar charts, then the line colour |
| ChartWriters.WriteSerieCategories | openpyxl/writer/charts.py:155-157 | appends `c:cat` holding the labels' block only when the series has labels |
| ChartWriters.WriteSerieValues | openpyxl/writer/charts.py:159-167 | appends `c:xVal` (when there are x values) and `c:yVal` for Scatter, `c:val` otherwise, each holding its reference's block |
| SeriesFacts.SeriesNumbered | openpyxl/writer/charts.py:133-135 | series `i` is a `c:ser` whose first two children are `c:idx` and `c:order`, both reading back as `i` |
| SeriesFacts.SeriesIndexed | openpyxl/writer/charts.py:132-135 | there is one series element per series, and element `i` is series `i`'s, numbered `i` |
| SeriesFacts.SeriesCount | openpyxl/writer/charts.py:132-133 | the series list holds exactly as many `c:ser` elements, counted at every depth, as the chart has series |
| SeriesFacts.SeriesLayout | openpyxl/writer/charts.py:133-167 | the children of a `c:ser` are named exactly `SeriesChildNames` of the series' optional parts, and are in schema order |
| SeriesFacts.SeriesChildNamesOrdered | openpyxl/writer/charts.py:133-167 | idx, order, tx, spPr, errBars, cat, xVal and val/yVal always come in that order, whichever optional parts are present |
| SeriesFacts.OptionalBlocks | openpyxl/writer/charts.py:137-157 | `c:tx`, `c:errBars` and `c:cat` are present exactly when the series has a legend, an error bar and labels |
| SeriesFacts.ColorBlock | openpyxl/writer/charts.py:141-150 | `c:spPr` is present iff the colour is non-empty; it holds `a:solidFill` then `a:ln` for Bar charts and only `a:ln` otherwise, both with the colour |
| SeriesFacts.ValueBlocks | openpyxl/writer/charts.py:159-167 | Scatter gives `c:xVal` (iff there are x values) then `c:yVal`; other types give `c:val`; the last holds the series reference's block and `c:xVal` holds the x reference's |
| SeriesFacts.SeriesListHasNoAxes | openpyxl/writer/charts.py:130-167 | no `c:catAx` or `c:valAx` occurs anywhere inside the series elements |
| ChartWriters.WriteSerial | openpyxl/writer/charts.py:169-195 | `_write_serial` appends exactly one element, `SerialNode` of the reference |
| ChartWriters.WritePoints | openpyxl/writer/charts.py:191-195 | the point loop appends one `c:pt` per value, in order, with `idx` counting from 0 |
| SerialFacts.SerialLayout | openpyxl/writer/charts.py:171-185 | a reference with an address gives `c:numRef`/`c:strRef` holding `c:f` with the address, then the cache; any other gives `c:numLit` written with the single value 1 |
| SerialFacts.DataNodeLayout | openpyxl/writer/charts.py:187-195 | a data block holds `c:formatCode` (default "General") only for numeric data, then `c:ptCount`, then one `c:pt` per value with `idx` j |
| SerialFacts.DataNodeHead | openpyxl/writer/charts.py:187-190 | the block's length, its format code for numeric data and its point count |
| SerialFacts.DataNodePoints | openpyxl/writer/charts.py:191-195 | point j of the block is value j's `c:pt` |
| SerialFacts.DataNodeReadBack | openpyxl/writer/charts.py:190-195 | the point count reads back as the number of values, and the point texts are the values' renderings, in order |
| SerialFacts.SerialReadBack | openpyxl/writer/charts.py:169-195 | the same read-back for the block `_write_serial` writes for any reference |
| SerialFacts.NumericPointReadBack | openpyxl/writer/charts.py:193-195 | the text of a point holding an integer reads back as that integer |
| SerialFacts.UnboundIsSinglePointOne | openpyxl/writer/charts.py:183-185 | a reference without an address is written as a point count of 1 and a single point "1", whatever values it holds |
| ChartWriters.WriteErrorBar | openpyxl/writer/charts.py:197-215 | `_write_error_bar` appends exactly `ErrorBarNode` of the series' error bar |
| SerialFacts.ErrorBarLayout | openpyxl/writer/charts.py:197-215 | `c:errBars` holds `c:errBarType` (the flag), `c:errValType` "cust", `c:plus` and `c:minus`, and the last two hold the same reference block |
| SerialFacts.ErrorBarCounts | openpyxl/writer/charts.py:207-215 | an error bar holds exactly one `c:plus` and exactly one `c:minus`, at any depth |
| SerialFacts.ErrorBarDirectionOnlyFlag | openpyxl/writer/charts.py:199-205 | the direction changes only the `c:errBarType` value, and both/plus/minus are three distinct values |
| ChartWriters.WriteLegend | openpyxl/writer/charts.py:217-222 | appends `c:legend` with the position and a layout only when the legend is shown |
| ChartWriters.WritePrintSettings | openpyxl/writer/charts.py:224-237 | appends `c:printSettings`: header/footer, page margins, page setup |
| DocumentFacts.PageMarginsKeys | openpyxl/writer/charts.py:235-236 | `c:pageMargins` has exactly the chart's margin names as attributes, each holding `safe_string` of that margin |
| ChartWriters.WriteShapes | openpyxl/writer/charts.py:239-242 | appends `c:userShapes` with r:id "rId1" only when the chart has shapes |
| ChartWriters.WriteRels | openpyxl/writer/charts.py:244-251 | `write_rels` builds exactly `RelsNode` of the drawing id |
| DocumentFacts.RelsLayout | openpyxl/writer/charts.py:244-251 | a `Relationships` root holding one `Relationship` whose attributes are exactly Id, Type and Target: Id "rId1" and the chartUserShapes type, whose target is "../drawings/drawing", then the drawing id, then ".xml"; the middle reads back as the id |
| ChartWriters.WriteChart | openpyxl/writer/charts.py:254-386 | each `_write_chart` appends exactly `ChartNode` of its writer |
| DocumentFacts.ChartLayout | openpyxl/writer/charts.py:254-386 | `c:chart` holds `c:title` only for a non-empty title, `c:plotArea`, `c:legend` only when shown, and `c:plotVisOnly` last |
| DocumentFacts.ChartContents | openpyxl/writer/charts.py:254-386 | the title block, the plot area, the legend position and `c:plotVisOnly` "1" sit at the positions the layout gives them |
| ChartWriters.WritePlotArea | openpyxl/writer/charts.py:254-386 | appends exactly one `c:plotArea`, `PlotAreaNode` |
| ChartWriters.WritePlotAreaChildren | openpyxl/writer/charts.py:254-386 | the plot area receives the manual layout, the chart-type element, then the axes |
| DocumentFacts.PlotAreaLayout | openpyxl/writer/charts.py:254-386 | the plot area is the layout, then the chart-type element, then exactly the axes |
| ChartWriters.WriteLayout | openpyxl/writer/charts.py:254-386 | appends the manual layout: inner target, edge modes, and x/y/w/h from the margins and size through `safe_string` |
| ChartWriters.WriteSubchart | openpyxl/writer/charts.py:254-386 | appends the chart-type element of the writer with its settings, the series and, except for Pie, the axis ids |
| ChartWriters.WriteAxisIds | openpyxl/writer/charts.py:282-386 | appends the x axis id, then the y axis id |
| DocumentFacts.SubchartLayout | openpyxl/writer/charts.py:254-386 | the chart-type element is `c:pieChart`/`c:lineChart`/`c:barChart`/`c:scatterChart`; it starts with varyColors, grouping, barDir "col" then grouping, or scatterStyle; then all series in order; then, except for Pie, the two axis ids |
| DocumentFacts.AxisIdsReadBack | openpyxl/writer/charts.py:282-386 | the two `c:axId` hold `safe_string` of the x axis id and then of the y axis id, and read back as those ids when they are integers |
| DocumentFacts.AxesCrossEachOther | openpyxl/writer/charts.py:282-386 | when the x axis crosses at the y axis' id and the y axis at the x axis' id, the written x axis' `c:crossAx` reads back as the written y axis' `c:axId`, and the other way round |
| ChartWriters.WriteAxes | openpyxl/writer/charts.py:282-386 | appends exactly `AxesNodes` of the writer |
| DocumentFacts.AxesLayout | openpyxl/writer/charts.py:254-386 | Pie writes no axis; Line and Bar write `c:catAx` for x then `c:valAx` for y ("between"); Scatter writes two `c:valAx` ("midCat") |
| TreeCounts.AxesCount | openpyxl/writer/charts.py:254-386 | the axes hold one `c:catAx` for Line and Bar and none otherwise; no `c:valAx` for Pie, two for Scatter and one otherwise |
| TreeCounts.SubchartCount | openpyxl/writer/charts.py:254-386 | the chart-type element holds as many `c:ser` as the chart has series, and no axis element |
| TreeCounts.DocumentCounts | openpyxl/writer/charts.py:254-386 | a whole document holds exactly one `c:ser` per series, one `c:catAx` for Line and Bar (none otherwise), and no `c:valAx` for Pie, two for Scatter and one otherwise |
| NumberText.SafeStringReadBack | openpyxl/writer/charts.py:39-45 | `safe_string` of an integer reads back as that integer |
| NumberText.FloatTextReadBack | openpyxl/writer/charts.py:94-95 | Python 3's `str(float(n))` of an integer below 10^15 in magnitude is its decimal text followed by ".0", and that text reads back as n |
| NumberText.IntTextRoundTrip | openpyxl/writer/charts.py:115 | `str(n)` of an integer reads back as that integer |
| NumberText.IntTextInjective | openpyxl/writer/charts.py:190-192 | `str` gives two integers (such as point indexes and counts) the same text if and only if they are equal |
| Xml.Element.SubElement | openpyxl/writer/charts.py:27 | `SubElement` adds one child with the given tag and attributes after the existing children, changing nothing else |

## Left out

- Serialisation: `get_document_content` is not part of this model. `Write` and `WriteRels` stop at the element tree.
- Attribute order: attributes are maps, as in the source's dicts. The order in which they are serialised is not modelled.
- Building order: the in-place methods finish a child and then append it, while the source appends it and then fills it in. The final tree is the same. Aliasing between elements is not modelled.
- Float formatting: `"%.15g"` and `str(float(...))` are exact in the model only for integers below 10^15 in magnitude. Any other number carries its two renderings as given (`Number.Formatted`).
- Other value types: `safe_string`'s `str(value)` branch for values that are neither numbers nor strings is not modelled. A point value is either a string or a number.
- `compute_axes` is not part of this model. Axes come with their max, min and unit already set. Which axis each axis crosses (`cross`) comes with the chart model; the writer only prints it.
- Chart classes: each chart has exactly one class. Subclassing among the chart classes is not modelled, so `isinstance` is a plain comparison. The order of the dispatcher's tests is kept all the same.
- `chart.type` is taken to agree with the chart's class: the chart has no separate `type` field, and every `chart.type` test reads the class `kind`.
- The lemmas on axes and whole documents assume the writer's class matches the chart's class (predicate `Consistent`). The dispatcher always picks such a writer (`DispatchConsistent`).
- Series `xvalues`: its truthiness is modelled as "an x reference is present".
- `literal`: `WriteSerial` accepts the parameter and ignores it, as the source does.
- AxesCrossEachOther: stated only for axis ids below 10^15 in magnitude. A larger id is written in exponent form by `safe_string`, while `cross` is written by `str`, so the two texts are not compared for such ids.
- Error bar types: `ErrorBarType` has exactly the three values of the `flag` table. The KeyError `_write_error_bar` raises for any other type cannot occur in the model.
- `data_type` has exactly the two values 'n' and 's'. The KeyError the `mapping` table raises for any other value cannot occur in the model.
- ValueError message: it carries the class name as a value, without its text formatting.
- Python 2/3 compatibility shims (`basestring`, `iteritems`) are not modelled. The model follows what they do on Python 3.
- FloatText: follows Python 3's `str(float)`, which writes every integer below 10^15 in magnitude in plain decimal form with ".0". Python 2's `str(float)` keeps only 12 significant digits, so there an integer from 10^12 up (such as an axis max of 10^13, written "1e+13") comes out in exponent form; that rendering is not modelled.
- SeriesList: a chart has fewer than 10^15 series, so `safe_string(i)` of a series index is exact.
