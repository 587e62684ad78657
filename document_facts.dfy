/** What `write`, the four `_write_chart` methods and `write_rels`
    promise about the document as a whole. */
module DocumentFacts {
  import opened Results
  import opened Xml
  import opened NumberText
  import opened ChartModel
  import opened ChartXml
  import opened AxisFacts

  /** A writer handed a chart of its own class, as the dispatcher does. */
  predicate Consistent(w: Writer)
  {
    w.chart.kind == HandledClass(w)
  }

  /** Every writer the dispatcher selects is consistent, and the selection
      follows the chart class alone. */
  lemma DispatchConsistent(chart: Chart)
    ensures NewChartWriter(chart).Ok? ==> Consistent(NewChartWriter(chart).value)
    ensures chart.kind == PieChart ==> NewChartWriter(chart) == Ok(PieChartWriter(chart))
    ensures chart.kind == LineChart ==> NewChartWriter(chart) == Ok(LineChartWriter(chart))
    ensures chart.kind == BarChart ==> NewChartWriter(chart) == Ok(BarChartWriter(chart))
    ensures chart.kind == ScatterChart ==> NewChartWriter(chart) == Ok(ScatterChartWriter(chart))
  {
  }

  /** The root is a `c:chartSpace` declaring exactly the chart, drawing and
      relationships namespaces, whatever the chart type. Its children are
      `c:lang`, `c:chart` and `c:printSettings`, then `c:userShapes`
      pointing at "rId1" only when the chart has shapes. */
  lemma ChartSpaceEnvelope(w: Writer)
    ensures var root := ChartSpaceNode(w);
      root.name == "c:chartSpace"
      && root.attrs.Keys == {"xmlns:c", "xmlns:a", "xmlns:r"}
      && root.attrs["xmlns:c"] == ChartNamespace
      && root.attrs["xmlns:a"] == DrawingNamespace
      && root.attrs["xmlns:r"] == RelationshipsNamespace
      && Names(root.children) == ["c:lang", "c:chart", "c:printSettings"] + Opt(w.chart.hasShapes, "c:userShapes")
      && root.children[0] == Leaf("c:lang", Val(w.chart.lang))
      && root.children[1] == ChartNode(w)
      && (w.chart.hasShapes ==> root.children[3].attrs == map["r:id" := "rId1"])
  {
    var fixed := [Leaf("c:lang", Val(w.chart.lang)), ChartNode(w), PrintSettingsNode(w.chart)];
    NamesAppend(fixed, ShapesNodes(w.chart));
    if w.chart.hasShapes {
      NamesOne(ShapesNodes(w.chart)[0]);
    } else {
      NamesNone();
    }
  }

  lemma ChartParts(w: Writer)
    ensures ChartNode(w).children
            == TitleNodes(w.chart.lang, w.chart.title) + [PlotAreaNode(w)] + LegendNodes(w.chart) + [Leaf("c:plotVisOnly", Val("1"))]
  {
  }

  lemma ChartChildNames(chart: Chart, plotArea: Node)
    requires plotArea.name == "c:plotArea"
    ensures Names(TitleNodes(chart.lang, chart.title) + [plotArea] + LegendNodes(chart) + [Leaf("c:plotVisOnly", Val("1"))])
            == Opt(chart.title != "", "c:title") + ["c:plotArea"] + Opt(chart.showLegend, "c:legend") + ["c:plotVisOnly"]
  {
    var t, p, l, v := TitleNodes(chart.lang, chart.title), [plotArea], LegendNodes(chart), [Leaf("c:plotVisOnly", Val("1"))];
    TitleNames(chart.lang, chart.title);
    NamesAppend(t, p);
    NamesAppend(t + p, l);
    NamesAppend(t + p + l, v);
    if chart.showLegend {
      NamesOne(l[0]);
    } else {
      NamesNone();
    }
  }

  /** The `c:chart` element: the title only when non-empty, the plot area,
      the legend only when it is shown, and `c:plotVisOnly` set to "1" last. */
  lemma ChartLayout(w: Writer)
    ensures Names(ChartNode(w).children)
            == Opt(w.chart.title != "", "c:title") + ["c:plotArea"] + Opt(w.chart.showLegend, "c:legend") + ["c:plotVisOnly"]
  {
    ChartParts(w);
    ChartChildNames(w.chart, PlotAreaNode(w));
  }

  /** What the children of `c:chart` hold: the chart title, the plot area,
      the legend position, and the final `c:plotVisOnly` "1". */
  lemma ChartContents(w: Writer)
    ensures var cs := ChartNode(w).children;
      var t := if w.chart.title != "" then 1 else 0;
      |cs| == t + 2 + (if w.chart.showLegend then 1 else 0)
      && (w.chart.title != "" ==> cs[0] == TitleNode(w.chart.lang, w.chart.title))
      && cs[t] == PlotAreaNode(w)
      && (w.chart.showLegend ==> cs[t + 1].children[0] == Leaf("c:legendPos", Val(w.chart.legendPosition)))
      && cs[|cs| - 1] == Leaf("c:plotVisOnly", Val("1"))
  {
  }

  /** The plot area: the manual layout, the chart-type element, then the axes. */
  lemma PlotAreaLayout(w: Writer)
    ensures var cs := PlotAreaNode(w).children;
      |cs| >= 2 && cs[0] == LayoutNode(w.chart) && cs[1] == SubchartNode(w) && cs[2..] == AxesNodes(w)
  {
  }

  /** The name of the chart-type element of each writer. */
  function SubchartName(w: Writer): string
  {
    match w
    case PieChartWriter(_) => "c:pieChart"
    case LineChartWriter(_) => "c:lineChart"
    case BarChartWriter(_) => "c:barChart"
    case ScatterChartWriter(_) => "c:scatterChart"
  }

  /** The settings each chart-type element starts with. */
  function SubchartHead(w: Writer): seq<Node>
  {
    var chart := w.chart;
    match w
    case PieChartWriter(_) => [Leaf("c:varyColors", Val("1"))]
    case LineChartWriter(_) => [Leaf("c:grouping", Val(chart.grouping))]
    case BarChartWriter(_) => [Leaf("c:barDir", Val("col")), Leaf("c:grouping", Val(chart.grouping))]
    case ScatterChartWriter(_) => [Leaf("c:scatterStyle", Val("lineMarker"))]
  }

  /** What follows the series: the axis ids, except for Pie. */
  function SubchartTail(w: Writer): seq<Node>
  {
    if w.PieChartWriter? then [] else AxisIdNodes(w.chart)
  }

  lemma SubchartParts(w: Writer)
    ensures SubchartNode(w).name == SubchartName(w)
    ensures SubchartNode(w).children == SubchartHead(w) + AllSeriesNodes(w.chart) + SubchartTail(w)
  {
  }

  lemma Middle(a: seq<Node>, b: seq<Node>, c: seq<Node>)
    ensures (a + b + c)[|a|..|a| + |b|] == b
  {
  }

  /** The axis ids closing the chart-type element read back as the x axis'
      id and then the y axis'. */
  lemma AxisIdsReadBack(chart: Chart)
    ensures var ids := AxisIdNodes(chart);
      |ids| == 2 && ids[0].name == "c:axId" && ids[1].name == "c:axId"
      && ids[0].attrs["val"] == SafeString(chart.xAxis.id)
      && ids[1].attrs["val"] == SafeString(chart.yAxis.id)
      && (chart.xAxis.id.Int? ==> ParseInt(ids[0].attrs["val"]) == Some(chart.xAxis.id.value))
      && (chart.yAxis.id.Int? ==> ParseInt(ids[1].attrs["val"]) == Some(chart.yAxis.id.value))
  {
    if chart.xAxis.id.Int? {
      SafeStringReadBack(chart.xAxis.id);
    }
    if chart.yAxis.id.Int? {
      SafeStringReadBack(chart.yAxis.id);
    }
  }

  /** The chart-type element holds the series elements in list order, after
      its leading settings; Bar puts `c:barDir` "col" before `c:grouping`.
      Every type but Pie ends it with two `c:axId`, the x axis' id and then
      the y axis', which read back as those ids. */
  lemma SubchartLayout(w: Writer)
    ensures var sub := SubchartNode(w); var cs := sub.children;
      var k := |SubchartHead(w)|;
      sub.name == SubchartName(w)
      && k == (if w.BarChartWriter? then 2 else 1)
      && |cs| == k + |w.chart.series| + (if w.PieChartWriter? then 0 else 2)
      && cs[k..k + |w.chart.series|] == AllSeriesNodes(w.chart)
      && (w.PieChartWriter? ==> cs[0] == Leaf("c:varyColors", Val("1")))
      && (w.LineChartWriter? ==> cs[0] == Leaf("c:grouping", Val(w.chart.grouping)))
      && (w.BarChartWriter? ==> cs[0] == Leaf("c:barDir", Val("col")) && cs[1] == Leaf("c:grouping", Val(w.chart.grouping)))
      && (w.ScatterChartWriter? ==> cs[0] == Leaf("c:scatterStyle", Val("lineMarker")))
      && (!w.PieChartWriter? ==> cs[|cs| - 2..] == AxisIdNodes(w.chart))
  {
    var head, ser, tail := SubchartHead(w), AllSeriesNodes(w.chart), SubchartTail(w);
    SubchartParts(w);
    Middle(head, ser, tail);
    var cs := head + ser + tail;
    assert cs[0] == head[0];
    if w.BarChartWriter? {
      assert cs[1] == head[1];
    }
    if !w.PieChartWriter? {
      assert cs[|cs| - 2..] == tail;
    }
  }

  /** The axes after the chart-type element: none for Pie; for Line and Bar
      the x axis as `c:catAx` then the y axis as `c:valAx`, crossing
      "between"; for Scatter both as `c:valAx`, crossing "midCat". */
  lemma AxesLayout(w: Writer)
    requires Consistent(w)
    ensures var axes := AxesNodes(w); var chart := w.chart;
      (w.PieChartWriter? ==> axes == [])
      && ((w.LineChartWriter? || w.BarChartWriter?) ==>
            axes == [AxisNode(chart.lang, chart.xAxis, CatAx, "between"), AxisNode(chart.lang, chart.yAxis, ValAx, "between")])
      && (w.ScatterChartWriter? ==>
            axes == [AxisNode(chart.lang, chart.xAxis, ValAx, "midCat"), AxisNode(chart.lang, chart.yAxis, ValAx, "midCat")])
  {
    AxisVariants(w.chart, w.chart.xAxis, CatAx);
    AxisVariants(w.chart, w.chart.yAxis, ValAx);
  }

  /** When a chart's two axes name each other as crossing axis, the written
      axes do too: the `c:crossAx` of the x axis reads back as the `c:axId`
      of the y axis, and the other way round. */
  lemma AxesCrossEachOther(w: Writer)
    requires Consistent(w) && !w.PieChartWriter?
    requires w.chart.xAxis.id.Int? && w.chart.yAxis.id.Int?
    requires w.chart.xAxis.cross == w.chart.yAxis.id.value && w.chart.yAxis.cross == w.chart.xAxis.id.value
    ensures var axes := AxesNodes(w); var x, y := w.chart.xAxis, w.chart.yAxis;
      var xi, yi := CrossAxIndex(x, if w.ScatterChartWriter? then ValAx else CatAx), CrossAxIndex(y, ValAx);
      |axes| == 2 && xi < |axes[0].children| && yi < |axes[1].children|
      && axes[0].children[0] == Leaf("c:axId", Val(SafeString(x.id)))
      && axes[1].children[0] == Leaf("c:axId", Val(SafeString(y.id)))
      && axes[0].children[xi] == Leaf("c:crossAx", Val(IntText(x.cross)))
      && axes[1].children[yi] == Leaf("c:crossAx", Val(IntText(y.cross)))
      && ParseInt(axes[0].children[xi].attrs["val"]) == ParseInt(axes[1].children[0].attrs["val"]) == Some(y.id.value)
      && ParseInt(axes[1].children[yi].attrs["val"]) == ParseInt(axes[0].children[0].attrs["val"]) == Some(x.id.value)
  {
    var chart := w.chart;
    var xt := if w.ScatterChartWriter? then ValAx else CatAx;
    var cb := if w.ScatterChartWriter? then "midCat" else "between";
    AxesLayout(w);
    AxisReferences(chart.lang, chart.xAxis, xt, cb);
    AxisReferences(chart.lang, chart.yAxis, ValAx, cb);
  }

  /** `c:pageMargins` carries exactly the keys of the chart's print
      margins, each with the `safe_string` of its value. */
  lemma PageMarginsKeys(chart: Chart)
    ensures var pm := PrintSettingsNode(chart).children[1];
      pm.name == "c:pageMargins"
      && pm.attrs.Keys == chart.printMargins.Keys
      && forall k :: k in chart.printMargins ==> pm.attrs[k] == SafeString(chart.printMargins[k])
  {
  }

  /** `write_rels`: a single relationship "rId1" of the user-shapes type,
      whose target names the drawing by its id, which reads back. */
  lemma RelsLayout(drawingId: int)
    ensures var rels := RelsNode(drawingId);
      rels.name == "Relationships"
      && rels.attrs == map["xmlns" := PackageRelationshipsNamespace]
      && |rels.children| == 1
      && rels.children[0].name == "Relationship"
      && rels.children[0].attrs.Keys == {"Id", "Type", "Target"}
      && rels.children[0].attrs["Id"] == "rId1"
      && rels.children[0].attrs["Type"] == ChartUserShapesType
      && var t := rels.children[0].attrs["Target"];
         var prefix := "../drawings/drawing";
         |prefix| + 4 <= |t| && t[..|prefix|] == prefix && t[|t| - 4..] == ".xml"
         && ParseInt(t[|prefix|..|t| - 4]) == Some(drawingId)
  {
    var prefix := "../drawings/drawing";
    var digits := IntText(drawingId);
    var t := prefix + digits + ".xml";
    IntTextRoundTrip(drawingId);
    assert t[..|prefix|] == prefix;
    assert t[|prefix|..|t| - 4] == digits;
    assert t[|t| - 4..] == ".xml";
  }
}
