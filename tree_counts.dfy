/** Counting tags anywhere in the document `write` produces: one `c:ser`
    per series; no axis element for Pie; one `c:catAx` and one `c:valAx`
    for Line and Bar; two `c:valAx` for Scatter. */
module TreeCounts {
  import opened Xml
  import opened ChartModel
  import opened ChartXml
  import opened SeriesFacts
  import opened DocumentFacts

  /** The tags this module counts. */
  const Structural: set<string> := {"c:ser", "c:catAx", "c:valAx"}

  lemma TitleAvoids(lang: string, title: string)
    ensures Avoids(Structural, TitleNodes(lang, title))
  {
    if title != "" {
      var run := Parent("a:r", [Leaf("a:rPr", map["lang" := lang]), TextLeaf("a:t", title)]);
      var ppr := Parent("a:pPr", [Leaf("a:defRPr", map[])]);
      var p := Parent("a:p", [ppr, run]);
      var rich := TitleRichNode(lang, title);
      var tx := Parent("c:tx", [rich]);
      var t := TitleNode(lang, title);
      assert Avoids(Structural, run.children);
      assert Avoids(Structural, ppr.children);
      assert Avoids(Structural, p.children);
      assert Avoids(Structural, rich.children);
      assert Avoids(Structural, tx.children);
      assert Avoids(Structural, t.children);
      AvoidsOne(Structural, t);
    }
  }

  lemma ScaleAvoids(axis: Axis, tag: AxisLabel)
    ensures Avoids(Structural, AxisScaleNodes(axis, tag))
  {
    var s := AxisScaleNodes(axis, tag);
    assert Avoids(Structural, s[1].children);
  }

  lemma CrossAndTailAvoid(axis: Axis, tag: AxisLabel, crossBetween: string)
    ensures Avoids(Structural, AxisCrossNodes(axis))
    ensures Avoids(Structural, ValueAxisTailNodes(axis, tag, crossBetween))
  {
  }

  lemma AxisChildrenAvoid(lang: string, axis: Axis, tag: AxisLabel, crossBetween: string)
    ensures Avoids(Structural, AxisNode(lang, axis, tag, crossBetween).children)
  {
    var s, t, c, v := AxisScaleNodes(axis, tag), TitleNodes(lang, axis.title), AxisCrossNodes(axis),
                      ValueAxisTailNodes(axis, tag, crossBetween);
    ScaleAvoids(axis, tag);
    TitleAvoids(lang, axis.title);
    CrossAndTailAvoid(axis, tag, crossBetween);
    AvoidsAppend(Structural, s, t);
    AvoidsAppend(Structural, s + t, c);
    AvoidsAppend(Structural, s + t + c, v);
  }

  /** An axis element holds its own tag once and no other counted tag. */
  lemma AxisNodeCount(lang: string, axis: Axis, tag: AxisLabel, crossBetween: string, name: string)
    requires name in Structural
    ensures CountIn(name, [AxisNode(lang, axis, tag, crossBetween)]) == if name == LabelName(tag) then 1 else 0
  {
    var ax := AxisNode(lang, axis, tag, crossBetween);
    AxisChildrenAvoid(lang, axis, tag, crossBetween);
    AvoidsSubset({name}, Structural, ax.children);
    CountAbsent(name, ax.children);
    CountOne(name, ax);
  }

  /** The counted tags among the axes each writer appends. */
  lemma AxesCount(w: Writer, name: string)
    requires Consistent(w) && name in Structural
    ensures CountIn(name, AxesNodes(w))
            == if name == "c:catAx" then (if w.LineChartWriter? || w.BarChartWriter? then 1 else 0)
               else if name == "c:valAx" then (if w.PieChartWriter? then 0 else if w.ScatterChartWriter? then 2 else 1)
               else 0
  {
    var chart := w.chart;
    AxesLayout(w);
    if !w.PieChartWriter? {
      var cb := if w.ScatterChartWriter? then "midCat" else "between";
      var tx := if w.ScatterChartWriter? then ValAx else CatAx;
      AxisNodeCount(chart.lang, chart.xAxis, tx, cb, name);
      AxisNodeCount(chart.lang, chart.yAxis, ValAx, cb, name);
      var x, y := AxisNode(chart.lang, chart.xAxis, tx, cb), AxisNode(chart.lang, chart.yAxis, ValAx, cb);
      assert AxesNodes(w) == [x] + [y];
      CountInAppend(name, [x], [y]);
    }
  }

  lemma SeriesListCounts(chart: Chart, name: string)
    requires name in Structural
    ensures CountIn(name, AllSeriesNodes(chart)) == if name == "c:ser" then |chart.series| else 0
  {
    if name == "c:ser" {
      SeriesCount(chart);
    } else {
      SeriesListHasNoAxes(chart);
      AvoidsSubset({name}, {"c:catAx", "c:valAx"}, AllSeriesNodes(chart));
      CountAbsent(name, AllSeriesNodes(chart));
    }
  }

  lemma SubchartEndsAvoid(w: Writer)
    ensures Avoids(Structural, SubchartHead(w)) && Avoids(Structural, SubchartTail(w))
  {
  }

  /** The chart-type element holds one `c:ser` per series and no axis. */
  lemma SubchartCount(w: Writer, name: string)
    requires name in Structural
    ensures CountIn(name, [SubchartNode(w)]) == if name == "c:ser" then |w.chart.series| else 0
  {
    var sub := SubchartNode(w);
    var head, ser, tail := SubchartHead(w), AllSeriesNodes(w.chart), SubchartTail(w);
    SubchartParts(w);
    SubchartEndsAvoid(w);
    AvoidsSubset({name}, Structural, head);
    AvoidsSubset({name}, Structural, tail);
    CountAbsent(name, head);
    CountAbsent(name, tail);
    SeriesListCounts(w.chart, name);
    CountInAppend(name, head, ser);
    CountInAppend(name, head + ser, tail);
    CountOne(name, sub);
  }

  lemma LayoutAvoids(chart: Chart)
    ensures Avoids(Structural, [LayoutNode(chart)])
  {
    var layout := LayoutNode(chart);
    assert Avoids(Structural, layout.children[0].children);
    assert Avoids(Structural, layout.children);
  }

  lemma LegendAvoids(chart: Chart)
    ensures Avoids(Structural, LegendNodes(chart))
  {
    if chart.showLegend {
      assert Avoids(Structural, LegendNodes(chart)[0].children);
    }
  }

  lemma PrintAndShapesAvoid(chart: Chart)
    ensures Avoids(Structural, [Leaf("c:lang", Val(chart.lang))])
    ensures Avoids(Structural, [PrintSettingsNode(chart)])
    ensures Avoids(Structural, ShapesNodes(chart))
  {
    assert Avoids(Structural, PrintSettingsNode(chart).children);
  }

  lemma PlotAreaCount(w: Writer, name: string)
    requires name in Structural
    ensures CountIn(name, [PlotAreaNode(w)]) == CountIn(name, [SubchartNode(w)]) + CountIn(name, AxesNodes(w))
  {
    var pa := PlotAreaNode(w);
    var layout := [LayoutNode(w.chart)];
    LayoutAvoids(w.chart);
    AvoidsSubset({name}, Structural, layout);
    CountAbsent(name, layout);
    assert pa.children == layout + [SubchartNode(w)] + AxesNodes(w);
    CountInAppend(name, layout, [SubchartNode(w)]);
    CountInAppend(name, layout + [SubchartNode(w)], AxesNodes(w));
    CountOne(name, pa);
  }

  lemma ChartCount(w: Writer, name: string)
    requires name in Structural
    ensures CountIn(name, [ChartNode(w)]) == CountIn(name, [PlotAreaNode(w)])
  {
    var chart := w.chart;
    var t, p, l, v := TitleNodes(chart.lang, chart.title), [PlotAreaNode(w)], LegendNodes(chart), [Leaf("c:plotVisOnly", Val("1"))];
    TitleAvoids(chart.lang, chart.title);
    LegendAvoids(chart);
    AvoidsSubset({name}, Structural, t);
    AvoidsSubset({name}, Structural, l);
    CountAbsent(name, t);
    CountAbsent(name, l);
    CountAbsent(name, v);
    CountInAppend(name, t, p);
    CountInAppend(name, t + p, l);
    CountInAppend(name, t + p + l, v);
    CountOne(name, ChartNode(w));
  }

  lemma RootCount(w: Writer, name: string)
    requires name in Structural
    ensures Count(name, ChartSpaceNode(w)) == CountIn(name, [ChartNode(w)])
  {
    var root := ChartSpaceNode(w);
    var lang, ps, shapes := [Leaf("c:lang", Val(w.chart.lang))], [PrintSettingsNode(w.chart)], ShapesNodes(w.chart);
    PrintAndShapesAvoid(w.chart);
    AvoidsSubset({name}, Structural, lang);
    AvoidsSubset({name}, Structural, ps);
    AvoidsSubset({name}, Structural, shapes);
    CountAbsent(name, lang);
    CountAbsent(name, ps);
    CountAbsent(name, shapes);
    assert root.children == lang + [ChartNode(w)] + ps + shapes;
    CountInAppend(name, lang, [ChartNode(w)]);
    CountInAppend(name, lang + [ChartNode(w)], ps);
    CountInAppend(name, lang + [ChartNode(w)] + ps, shapes);
    CountOne(name, root);
  }

  /** However deep one looks, the document holds one `c:ser` per series; a
      Pie chart holds no axis element; Line and Bar one `c:catAx` and one
      `c:valAx`; Scatter no `c:catAx` and two `c:valAx`. */
  lemma DocumentCounts(w: Writer)
    requires Consistent(w)
    ensures Count("c:ser", ChartSpaceNode(w)) == |w.chart.series|
    ensures Count("c:catAx", ChartSpaceNode(w)) == if w.LineChartWriter? || w.BarChartWriter? then 1 else 0
    ensures Count("c:valAx", ChartSpaceNode(w)) == if w.PieChartWriter? then 0 else if w.ScatterChartWriter? then 2 else 1
  {
    forall name | name in Structural
      ensures Count(name, ChartSpaceNode(w)) == CountIn(name, [SubchartNode(w)]) + CountIn(name, AxesNodes(w))
    {
      RootCount(w, name);
      ChartCount(w, name);
      PlotAreaCount(w, name);
    }
    SubchartCount(w, "c:ser");
    SubchartCount(w, "c:catAx");
    SubchartCount(w, "c:valAx");
    AxesCount(w, "c:ser");
    AxesCount(w, "c:catAx");
    AxesCount(w, "c:valAx");
  }
}
