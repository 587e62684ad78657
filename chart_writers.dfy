/** The chart writer of openpyxl/writer/charts.py, method by method. Each
    `_write_*` method appends to the element it is given, in place, and is
    proved to append exactly the tree that module ChartXml describes. */
module ChartWriters {
  import opened Results
  import opened Xml
  import opened NumberText
  import opened ChartModel
  import opened ChartXml

  /** The loop of `_write_serial`: one `c:pt` per value, `idx` counting from 0. */
  method WritePoints(data: Element, values: seq<Value>)
    modifies data`children
    ensures data.children == old(data.children) + Points(values, |values|)
  {
    var j := 0;
    while j < |values|
      invariant 0 <= j <= |values|
      invariant data.children == old(data.children) + Points(values, j)
    {
      var point := new Element("c:pt", map["idx" := IntText(j)]);
      point.SubElementText("c:v", Render(values[j]));
      assert point.children == [TextLeaf("c:v", Render(values[j]))];
      data.Append(point);
      j := j + 1;
    }
  }

  /** `_write_serial`. The `literal` flag is accepted and never read. */
  method WriteSerial(node: Element, reference: Reference, literal: bool)
    modifies node`children
    ensures node.children == old(node.children) + [SerialNode(reference)]
  {
    var t := reference.dataType;
    var data := new Element(if reference.Bound? then CacheName(t) else "c:numLit", map[]);
    var values := WrittenValues(reference);
    if t == NumberData {
      data.SubElementText("c:formatCode", if reference.numberFormat == "" then "General" else reference.numberFormat);
    }
    data.SubElement("c:ptCount", Val(IntText(|values|)));
    assert data.children == FormatCodeNodes(t, reference.numberFormat) + [Leaf("c:ptCount", Val(IntText(|values|)))];
    WritePoints(data, values);
    assert data.Value() == DataNode(data.name, t, reference.numberFormat, values);
    if reference.Bound? {
      var ref := new Element(RefName(t), map[]);
      ref.SubElementText("c:f", reference.address);
      ref.Append(data);
      assert ref.children == [TextLeaf("c:f", reference.address), DataNode(CacheName(t), t, reference.numberFormat, values)];
      node.Append(ref);
    } else {
      node.Append(data);
    }
  }

  /** `_write_error_bar`, for a series that has an error bar. */
  method WriteErrorBar(node: Element, serie: Series)
    requires serie.errorBar.Some?
    modifies node`children
    ensures node.children == old(node.children) + [ErrorBarNode(serie.errorBar.value)]
  {
    var errorBar := serie.errorBar.value;
    var eb := new Element("c:errBars", map[]);
    eb.SubElement("c:errBarType", Val(ErrorBarFlag(errorBar.kind)));
    eb.SubElement("c:errValType", Val("cust"));
    var plus := new Element("c:plus", map[]);
    WriteSerial(plus, errorBar.reference, errorBar.kind == Minus);
    assert plus.children == [SerialNode(errorBar.reference)];
    eb.Append(plus);
    var minus := new Element("c:minus", map[]);
    WriteSerial(minus, errorBar.reference, errorBar.kind == Plus);
    assert minus.children == [SerialNode(errorBar.reference)];
    eb.Append(minus);
    assert eb.children == ErrorBarNode(errorBar).children;
    node.Append(eb);
  }

  /** The colour block of `_write_series`: a fill for Bar charts, a line for all. */
  method WriteSerieColor(kind: ChartClass, color: string, ser: Element)
    modifies ser`children
    ensures ser.children == old(ser.children) + ColorNodes(kind, color)
  {
    if color != "" {
      var sppr := new Element("c:spPr", map[]);
      if kind == BarChart {
        var fillc := new Element("a:solidFill", map[]);
        fillc.SubElement("a:srgbClr", Val(color));
        assert fillc.children == [Leaf("a:srgbClr", Val(color))];
        sppr.Append(fillc);
      }
      var ln := new Element("a:ln", map[]);
      var fill := new Element("a:solidFill", map[]);
      fill.SubElement("a:srgbClr", Val(color));
      assert fill.children == [Leaf("a:srgbClr", Val(color))];
      ln.Append(fill);
      assert ln.children == [Parent("a:solidFill", [Leaf("a:srgbClr", Val(color))])];
      sppr.Append(ln);
      assert sppr.children == ColorNodes(kind, color)[0].children;
      ser.Append(sppr);
    }
  }

  /** The value blocks that end each series: `c:xVal` and `c:yVal` for
      Scatter charts, `c:val` for the others. */
  method WriteSerieValues(kind: ChartClass, serie: Series, ser: Element)
    modifies ser`children
    ensures ser.children == old(ser.children) + ValueNodes(kind, serie)
  {
    var val: Element;
    if kind == ScatterChart {
      if serie.xreference.Some? {
        var xval := new Element("c:xVal", map[]);
        WriteSerial(xval, serie.xreference.value, false);
        assert xval.children == [SerialNode(serie.xreference.value)];
        ser.Append(xval);
      }
      val := new Element("c:yVal", map[]);
    } else {
      val := new Element("c:val", map[]);
    }
    WriteSerial(val, serie.reference, false);
    assert val.children == [SerialNode(serie.reference)];
    ser.Append(val);
  }

  /** The index and order of series `i`. */
  method WriteSerieIds(i: nat, ser: Element)
    requires i < Pow15
    modifies ser`children
    ensures ser.children == old(ser.children) + SeriesIdNodes(i)
  {
    ser.SubElement("c:idx", Val(SafeString(Int(i))));
    ser.SubElement("c:order", Val(SafeString(Int(i))));
  }

  /** The legend label of a series, when it has one. */
  method WriteSerieLegend(serie: Series, ser: Element)
    modifies ser`children
    ensures ser.children == old(ser.children) + LegendLabelNodes(serie)
  {
    if serie.legend.Some? {
      var tx := new Element("c:tx", map[]);
      WriteSerial(tx, serie.legend.value, false);
      assert tx.children == [SerialNode(serie.legend.value)];
      ser.Append(tx);
    }
  }

  /** The category labels of a series, when it has them. */
  method WriteSerieCategories(serie: Series, ser: Element)
    modifies ser`children
    ensures ser.children == old(ser.children) + CategoryNodes(serie)
  {
    if serie.labels.Some? {
      var cat := new Element("c:cat", map[]);
      WriteSerial(cat, serie.labels.value, false);
      assert cat.children == [SerialNode(serie.labels.value)];
      ser.Append(cat);
    }
  }

  /** The loop body of `_write_series`: the `c:ser` element of series `i`. */
  method WriteSerie(kind: ChartClass, i: nat, serie: Series, subchart: Element)
    requires i < Pow15
    modifies subchart`children
    ensures subchart.children == old(subchart.children) + [SeriesNode(kind, i, serie)]
  {
    var ser := new Element("c:ser", map[]);
    WriteSerieIds(i, ser);
    assert ser.children == SeriesIdNodes(i);
    WriteSerieLegend(serie, ser);
    WriteSerieColor(kind, serie.color, ser);
    if serie.errorBar.Some? {
      WriteErrorBar(ser, serie);
    }
    assert ser.children == SeriesIdNodes(i) + LegendLabelNodes(serie) + ColorNodes(kind, serie.color) + ErrorBarNodes(serie);
    WriteSerieCategories(serie, ser);
    WriteSerieValues(kind, serie, ser);
    assert ser.Value() == SeriesNode(kind, i, serie);
    subchart.Append(ser);
  }

  /** `_write_series`. */
  method WriteSeries(chart: Chart, subchart: Element)
    modifies subchart`children
    ensures subchart.children == old(subchart.children) + AllSeriesNodes(chart)
  {
    var i := 0;
    while i < |chart.series|
      invariant 0 <= i <= |chart.series|
      invariant subchart.children == old(subchart.children) + AllSeriesNodes(chart)[..i]
    {
      WriteSerie(chart.kind, i, chart.series[i], subchart);
      PrefixStep(AllSeriesNodes(chart), i);
      i := i + 1;
    }
    assert AllSeriesNodes(chart)[..i] == AllSeriesNodes(chart);
  }

  /** The rich text of a title, appended to its `c:tx`. */
  method WriteTitleRich(lang: string, title: string, tx: Element)
    modifies tx`children
    ensures tx.children == old(tx.children) + [TitleRichNode(lang, title)]
  {
    var rich := new Element("c:rich", map[]);
    rich.SubElement("a:bodyPr", map[]);
    rich.SubElement("a:lstStyle", map[]);
    var p := new Element("a:p", map[]);
    var pPr := new Element("a:pPr", map[]);
    pPr.SubElement("a:defRPr", map[]);
    assert pPr.children == [Leaf("a:defRPr", map[])];
    p.Append(pPr);
    var r := new Element("a:r", map[]);
    r.SubElement("a:rPr", map["lang" := lang]);
    r.SubElementText("a:t", title);
    assert r.children == [Leaf("a:rPr", map["lang" := lang]), TextLeaf("a:t", title)];
    p.Append(r);
    ghost var para := p.Value();
    assert p.children == para.children == [Parent("a:pPr", [Leaf("a:defRPr", map[])]), Parent("a:r", r.children)];
    rich.Append(p);
    assert rich.children == [Leaf("a:bodyPr", map[]), Leaf("a:lstStyle", map[]), para];
    tx.Append(rich);
  }

  /** `_write_title`, and the identical title block of `_write_axis`. */
  method WriteTitle(lang: string, title: string, parent: Element)
    modifies parent`children
    ensures parent.children == old(parent.children) + TitleNodes(lang, title)
  {
    if title != "" {
      var t := new Element("c:title", map[]);
      var tx := new Element("c:tx", map[]);
      WriteTitleRich(lang, title, tx);
      assert tx.children == [TitleRichNode(lang, title)];
      t.Append(tx);
      t.SubElement("c:layout", map[]);
      assert t.children == [Parent("c:tx", tx.children), Leaf("c:layout", map[])];
      assert t.Value() == TitleNode(lang, title);
      parent.Append(t);
    }
  }

  /** The part of `_write_axis` up to the axis title. */
  method WriteAxisScale(axis: Axis, tag: AxisLabel, ax: Element)
    modifies ax`children
    ensures ax.children == old(ax.children) + AxisScaleNodes(axis, tag)
  {
    ax.SubElement("c:axId", Val(SafeString(axis.id)));
    var scaling := new Element("c:scaling", map[]);
    scaling.SubElement("c:orientation", Val(axis.orientation));
    if tag == ValAx {
      scaling.SubElement("c:max", Val(FloatText(axis.max)));
      scaling.SubElement("c:min", Val(FloatText(axis.min)));
    }
    assert scaling.children == AxisScaleNodes(axis, tag)[1].children;
    ax.Append(scaling);
    ax.SubElement("c:axPos", Val(axis.position));
    if tag == ValAx {
      ax.SubElement("c:majorGridlines", map[]);
      ax.SubElement("c:numFmt", map["formatCode" := "General", "sourceLinked" := "1"]);
    }
  }

  /** The part of `_write_axis` from `c:tickLblPos` to `c:lblOffset`. */
  method WriteAxisCrossing(axis: Axis, ax: Element)
    modifies ax`children
    ensures ax.children == old(ax.children) + AxisCrossNodes(axis)
  {
    ax.SubElement("c:tickLblPos", Val(axis.tickLabelPosition));
    ax.SubElement("c:crossAx", Val(IntText(axis.cross)));
    ax.SubElement("c:crosses", Val(axis.crosses));
    if axis.auto {
      ax.SubElement("c:auto", Val("1"));
    }
    if axis.labelAlign != "" {
      ax.SubElement("c:lblAlgn", Val(axis.labelAlign));
    }
    if axis.labelOffset != 0 {
      ax.SubElement("c:lblOffset", Val(IntText(axis.labelOffset)));
    }
  }

  /** The end of `_write_axis`, written for value axes only. */
  method WriteValueAxisTail(axis: Axis, tag: AxisLabel, crossBetween: string, ax: Element)
    modifies ax`children
    ensures ax.children == old(ax.children) + ValueAxisTailNodes(axis, tag, crossBetween)
  {
    if tag == ValAx {
      ax.SubElement("c:crossBetween", Val(crossBetween));
      ax.SubElement("c:majorUnit", Val(FloatText(axis.unit)));
    }
  }

  /** The body of `_write_axis` once the axis is to be written. */
  method WriteAxisBody(lang: string, plotArea: Element, axis: Axis, tag: AxisLabel, crossBetween: string)
    modifies plotArea`children
    ensures plotArea.children == old(plotArea.children) + [AxisNode(lang, axis, tag, crossBetween)]
  {
    var ax := new Element(LabelName(tag), map[]);
    WriteAxisScale(axis, tag, ax);
    assert ax.children == AxisScaleNodes(axis, tag);
    WriteTitle(lang, axis.title, ax);
    WriteAxisCrossing(axis, ax);
    WriteValueAxisTail(axis, tag, crossBetween, ax);
    assert ax.children == AxisNode(lang, axis, tag, crossBetween).children;
    plotArea.Append(ax);
  }

  /** `BaseChartWriter._write_axis`. */
  method WriteAxis(chart: Chart, plotArea: Element, axis: Axis, tag: AxisLabel)
    modifies plotArea`children
    ensures plotArea.children == old(plotArea.children) + BaseAxisNodes(chart, axis, tag)
  {
    if chart.kind == PieChart {
      return;
    }
    WriteAxisBody(chart.lang, plotArea, axis, tag, if chart.kind == ScatterChart then "midCat" else "between");
  }

  /** `ScatterChartWriter._write_axis`. */
  method WriteScatterAxis(chart: Chart, plotArea: Element, axis: Axis, tag: AxisLabel)
    modifies plotArea`children
    ensures plotArea.children == old(plotArea.children) + ScatterAxisNodes(chart, axis, tag)
  {
    WriteAxisBody(chart.lang, plotArea, axis, tag, "midCat");
  }

  /** `_write_legend`. */
  method WriteLegend(chart: Chart, ch: Element)
    modifies ch`children
    ensures ch.children == old(ch.children) + LegendNodes(chart)
  {
    if chart.showLegend {
      var legend := new Element("c:legend", map[]);
      legend.SubElement("c:legendPos", Val(chart.legendPosition));
      legend.SubElement("c:layout", map[]);
      assert legend.children == [Leaf("c:legendPos", Val(chart.legendPosition)), Leaf("c:layout", map[])];
      ch.Append(legend);
    }
  }

  /** The manual layout block that every `_write_chart` writes first. */
  method WriteLayout(chart: Chart, plotArea: Element)
    modifies plotArea`children
    ensures plotArea.children == old(plotArea.children) + [LayoutNode(chart)]
  {
    var layout := new Element("c:layout", map[]);
    var mlayout := new Element("c:manualLayout", map[]);
    mlayout.SubElement("c:layoutTarget", Val("inner"));
    mlayout.SubElement("c:xMode", Val("edge"));
    mlayout.SubElement("c:yMode", Val("edge"));
    mlayout.SubElement("c:x", Val(SafeString(chart.marginLeft)));
    mlayout.SubElement("c:y", Val(SafeString(chart.marginTop)));
    mlayout.SubElement("c:w", Val(SafeString(chart.width)));
    mlayout.SubElement("c:h", Val(SafeString(chart.height)));
    assert mlayout.children == LayoutNode(chart).children[0].children;
    layout.Append(mlayout);
    assert layout.children == LayoutNode(chart).children;
    plotArea.Append(layout);
  }

  /** `_write_print_settings`. */
  method WritePrintSettings(chart: Chart, root: Element)
    modifies root`children
    ensures root.children == old(root.children) + [PrintSettingsNode(chart)]
  {
    var settings := new Element("c:printSettings", map[]);
    settings.SubElement("c:headerFooter", map[]);
    settings.SubElement("c:pageMargins", PageMargins(chart));
    settings.SubElement("c:pageSetup", map[]);
    assert settings.children == PrintSettingsNode(chart).children;
    root.Append(settings);
  }

  /** `_write_shapes`. */
  method WriteShapes(chart: Chart, root: Element)
    modifies root`children
    ensures root.children == old(root.children) + ShapesNodes(chart)
  {
    if chart.hasShapes {
      root.SubElement("c:userShapes", map["r:id" := "rId1"]);
    }
  }

  /** The two `c:axId` elements after the series of a Line, Bar or Scatter chart. */
  method WriteAxisIds(chart: Chart, subchart: Element)
    modifies subchart`children
    ensures subchart.children == old(subchart.children) + AxisIdNodes(chart)
  {
    subchart.SubElement("c:axId", Val(SafeString(chart.xAxis.id)));
    subchart.SubElement("c:axId", Val(SafeString(chart.yAxis.id)));
  }

  /** The chart-type element of each `_write_chart`, with its series and,
      except for Pie, the two `c:axId` references. */
  method WriteSubchart(w: Writer, plotArea: Element)
    modifies plotArea`children
    ensures plotArea.children == old(plotArea.children) + [SubchartNode(w)]
  {
    var chart := w.chart;
    var subchart: Element;
    match w {
      case PieChartWriter(_) =>
        subchart := new Element("c:pieChart", map[]);
        subchart.SubElement("c:varyColors", Val("1"));
        assert subchart.children == [Leaf("c:varyColors", Val("1"))];
        WriteSeries(chart, subchart);
        assert subchart.Value() == SubchartNode(w);
      case LineChartWriter(_) =>
        subchart := new Element("c:lineChart", map[]);
        subchart.SubElement("c:grouping", Val(chart.grouping));
        assert subchart.children == [Leaf("c:grouping", Val(chart.grouping))];
        WriteSeries(chart, subchart);
        WriteAxisIds(chart, subchart);
        assert subchart.Value() == SubchartNode(w);
      case BarChartWriter(_) =>
        subchart := new Element("c:barChart", map[]);
        subchart.SubElement("c:barDir", Val("col"));
        subchart.SubElement("c:grouping", Val(chart.grouping));
        assert subchart.children == [Leaf("c:barDir", Val("col")), Leaf("c:grouping", Val(chart.grouping))];
        WriteSeries(chart, subchart);
        WriteAxisIds(chart, subchart);
        assert subchart.Value() == SubchartNode(w);
      case ScatterChartWriter(_) =>
        subchart := new Element("c:scatterChart", map[]);
        subchart.SubElement("c:scatterStyle", Val("lineMarker"));
        assert subchart.children == [Leaf("c:scatterStyle", Val("lineMarker"))];
        WriteSeries(chart, subchart);
        WriteAxisIds(chart, subchart);
        assert subchart.Value() == SubchartNode(w);
    }
    plotArea.Append(subchart);
  }

  /** The axes each `_write_chart` writes after the chart-type element:
      none for Pie, `c:catAx` then `c:valAx` for Line and Bar, and two
      `c:valAx` through the Scatter writer's own `_write_axis`. */
  method WriteAxes(w: Writer, plotArea: Element)
    modifies plotArea`children
    ensures plotArea.children == old(plotArea.children) + AxesNodes(w)
  {
    var chart := w.chart;
    match w {
      case PieChartWriter(_) =>
      case ScatterChartWriter(_) =>
        WriteScatterAxis(chart, plotArea, chart.xAxis, ValAx);
        WriteScatterAxis(chart, plotArea, chart.yAxis, ValAx);
      case _ =>
        WriteAxis(chart, plotArea, chart.xAxis, CatAx);
        WriteAxis(chart, plotArea, chart.yAxis, ValAx);
    }
  }

  /** The plot area of each `_write_chart`: layout, chart-type element, axes. */
  method WritePlotArea(w: Writer, ch: Element)
    modifies ch`children
    ensures ch.children == old(ch.children) + [PlotAreaNode(w)]
  {
    var plotArea := new Element("c:plotArea", map[]);
    WritePlotAreaChildren(w, plotArea);
    assert plotArea.Value() == PlotAreaNode(w);
    ch.Append(plotArea);
  }

  method WritePlotAreaChildren(w: Writer, plotArea: Element)
    modifies plotArea`children
    ensures plotArea.children == old(plotArea.children) + [LayoutNode(w.chart), SubchartNode(w)] + AxesNodes(w)
  {
    WriteLayout(w.chart, plotArea);
    WriteSubchart(w, plotArea);
    WriteAxes(w, plotArea);
  }

  /** `_write_chart` of the four writer classes, which differ only inside
      the plot area: title, plot area, legend, `c:plotVisOnly`. */
  method WriteChart(w: Writer, root: Element)
    modifies root`children
    ensures root.children == old(root.children) + [ChartNode(w)]
  {
    var chart := w.chart;
    var ch := new Element("c:chart", map[]);
    WriteTitle(chart.lang, chart.title, ch);
    assert ch.children == TitleNodes(chart.lang, chart.title);
    WritePlotArea(w, ch);
    WriteLegend(chart, ch);
    ch.SubElement("c:plotVisOnly", Val("1"));
    assert ch.Value() == ChartNode(w);
    root.Append(ch);
  }

  /** `BaseChartWriter.write`, up to serialisation: the `c:chartSpace` tree. */
  method Write(w: Writer) returns (doc: Node)
    ensures doc == ChartSpaceNode(w)
  {
    var root := new Element("c:chartSpace", NamespaceAttrs());
    root.SubElement("c:lang", Val(w.chart.lang));
    WriteChart(w, root);
    WritePrintSettings(w.chart, root);
    WriteShapes(w.chart, root);
    doc := root.Value();
  }

  /** `ChartWriter(chart).write()`: dispatch, then write; an unsupported
      chart yields the error and no document. */
  method WriteChartDocument(chart: Chart) returns (r: Result<Node, ChartError>)
    ensures r.Err? <==> chart.kind.OtherChart?
    ensures r.Err? ==> r.error == UnsupportedChart(chart.kind.className)
    ensures r.Ok? ==> NewChartWriter(chart).Ok? && r.value == ChartSpaceNode(NewChartWriter(chart).value)
  {
    var cw := NewChartWriter(chart);
    if cw.Err? {
      return Err(cw.error);
    }
    var doc := Write(cw.value);
    return Ok(doc);
  }

  /** `BaseChartWriter.write_rels`, up to serialisation. */
  method WriteRels(drawingId: int) returns (doc: Node)
    ensures doc == RelsNode(drawingId)
  {
    var root := new Element("Relationships", map["xmlns" := PackageRelationshipsNamespace]);
    root.SubElement("Relationship", map["Id" := "rId1", "Type" := ChartUserShapesType,
                                        "Target" := "../drawings/drawing" + IntText(drawingId) + ".xml"]);
    doc := root.Value();
  }
}
