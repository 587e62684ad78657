/** What `_write_series` promises: one `c:ser` per series, in list order,
    each numbered by its position, with its children in a fixed order. */
module SeriesFacts {
  import opened Results
  import opened Xml
  import opened NumberText
  import opened ChartModel
  import opened ChartXml
  import opened SerialFacts

  /** A `c:ser` is numbered by its position: `c:idx` and `c:order` both
      hold the decimal text of i, which reads back as i. */
  lemma SeriesNumbered(kind: ChartClass, i: nat, s: Series)
    requires i < Pow15
    ensures var ser := SeriesNode(kind, i, s);
      ser.name == "c:ser"
      && ser.children[0] == Leaf("c:idx", Val(IntText(i)))
      && ser.children[1] == Leaf("c:order", Val(IntText(i)))
      && ParseInt(ser.children[0].attrs["val"]) == Some(i)
      && ParseInt(ser.children[1].attrs["val"]) == Some(i)
  {
    IntTextRoundTrip(i);
  }

  /** A chart with N series gets exactly N `c:ser` elements, the i-th for
      the i-th series and numbered i. */
  lemma SeriesIndexed(chart: Chart, i: nat)
    requires i < |chart.series|
    ensures |AllSeriesNodes(chart)| == |chart.series|
    ensures var ser := AllSeriesNodes(chart)[i];
      ser == SeriesNode(chart.kind, i, chart.series[i])
      && ser.name == "c:ser"
      && ParseInt(ser.children[0].attrs["val"]) == Some(i)
      && ParseInt(ser.children[1].attrs["val"]) == Some(i)
  {
    SeriesNumbered(chart.kind, i, chart.series[i]);
  }

  /** The fixed order of the children of a `c:ser`: idx, order, tx, spPr,
      errBars, cat, xVal, then val or yVal. */
  function SeriesRank(name: string): nat
  {
    if name == "c:idx" then 0
    else if name == "c:order" then 1
    else if name == "c:tx" then 2
    else if name == "c:spPr" then 3
    else if name == "c:errBars" then 4
    else if name == "c:cat" then 5
    else if name == "c:xVal" then 6
    else if name == "c:val" || name == "c:yVal" then 7
    else 8
  }

  lemma SeriesRanks()
    ensures SeriesRank("c:idx") == 0 && SeriesRank("c:order") == 1 && SeriesRank("c:tx") == 2
    ensures SeriesRank("c:spPr") == 3 && SeriesRank("c:errBars") == 4 && SeriesRank("c:cat") == 5
    ensures SeriesRank("c:xVal") == 6 && SeriesRank("c:val") == 7 && SeriesRank("c:yVal") == 7
  {
  }

  predicate InSeriesOrder(names: seq<string>)
  {
    forall i, j :: 0 <= i < j < |names| ==> SeriesRank(names[i]) < SeriesRank(names[j])
  }

  predicate RanksIn(names: seq<string>, lo: nat, hi: nat)
  {
    forall i :: 0 <= i < |names| ==> lo <= SeriesRank(names[i]) < hi
  }

  lemma InSeriesOrderAppend(a: seq<string>, b: seq<string>, mid: nat, hi: nat)
    requires mid <= hi
    requires InSeriesOrder(a) && RanksIn(a, 0, mid)
    requires InSeriesOrder(b) && RanksIn(b, mid, hi)
    ensures InSeriesOrder(a + b) && RanksIn(a + b, 0, hi)
  {
    forall i, j | 0 <= i < j < |a + b|
      ensures SeriesRank((a + b)[i]) < SeriesRank((a + b)[j])
    {
      if j < |a| {
        assert (a + b)[i] == a[i] && (a + b)[j] == a[j];
      } else if i >= |a| {
        assert (a + b)[i] == b[i - |a|] && (a + b)[j] == b[j - |a|];
      } else {
        assert (a + b)[i] == a[i] && (a + b)[j] == b[j - |a|];
      }
    }
    forall i | 0 <= i < |a + b|
      ensures SeriesRank((a + b)[i]) < hi
    {
      if i >= |a| {
        assert (a + b)[i] == b[i - |a|];
      } else {
        assert (a + b)[i] == a[i];
      }
    }
  }

  /** The tags of the children of a `c:ser` whose series sets a legend, a
      colour, an error bar, labels and x values as given. */
  function SeriesChildNames(kind: ChartClass, legend: bool, color: bool, errorBar: bool, labels: bool, xValues: bool): seq<string>
  {
    ["c:idx", "c:order"] + Opt(legend, "c:tx") + Opt(color, "c:spPr") + Opt(errorBar, "c:errBars")
    + Opt(labels, "c:cat")
    + (if kind == ScatterChart then Opt(xValues, "c:xVal") + ["c:yVal"] else ["c:val"])
  }

  lemma OptRanked(b: bool, name: string, r: nat)
    requires SeriesRank(name) == r
    ensures InSeriesOrder(Opt(b, name)) && RanksIn(Opt(b, name), r, r + 1)
  {
  }

  lemma ValueNamesRanked(kind: ChartClass, xValues: bool)
    ensures var n := if kind == ScatterChart then Opt(xValues, "c:xVal") + ["c:yVal"] else ["c:val"];
      InSeriesOrder(n) && RanksIn(n, 6, 8)
  {
    SeriesRanks();
    if kind == ScatterChart {
      OptRanked(xValues, "c:xVal", 6);
      InSeriesOrderAppend(Opt(xValues, "c:xVal"), ["c:yVal"], 7, 8);
    }
  }

  /** Whatever the series sets, those tags come in the fixed order. */
  lemma SeriesChildNamesOrdered(kind: ChartClass, legend: bool, color: bool, errorBar: bool, labels: bool, xValues: bool)
    ensures InSeriesOrder(SeriesChildNames(kind, legend, color, errorBar, labels, xValues))
  {
    SeriesRanks();
    var n0 := ["c:idx", "c:order"];
    var n1, n2, n3, n4 := Opt(legend, "c:tx"), Opt(color, "c:spPr"), Opt(errorBar, "c:errBars"), Opt(labels, "c:cat");
    var n5 := if kind == ScatterChart then Opt(xValues, "c:xVal") + ["c:yVal"] else ["c:val"];
    assert InSeriesOrder(n0) && RanksIn(n0, 0, 2);
    OptRanked(legend, "c:tx", 2);
    OptRanked(color, "c:spPr", 3);
    OptRanked(errorBar, "c:errBars", 4);
    OptRanked(labels, "c:cat", 5);
    ValueNamesRanked(kind, xValues);
    InSeriesOrderAppend(n0, n1, 2, 3);
    InSeriesOrderAppend(n0 + n1, n2, 3, 4);
    InSeriesOrderAppend(n0 + n1 + n2, n3, 4, 5);
    InSeriesOrderAppend(n0 + n1 + n2 + n3, n4, 5, 6);
    InSeriesOrderAppend(n0 + n1 + n2 + n3 + n4, n5, 6, 8);
  }

  /** The colour block: present only when a colour is set; a fill with the
      colour only for Bar charts, a line with the colour for every type. */
  lemma ColorBlock(kind: ChartClass, color: string)
    ensures Names(ColorNodes(kind, color)) == Opt(color != "", "c:spPr")
    ensures color != "" ==>
      var sp := ColorNodes(kind, color)[0];
      Names(sp.children) == (if kind == BarChart then ["a:solidFill", "a:ln"] else ["a:ln"])
      && (kind == BarChart ==> sp.children[0].children == [Leaf("a:srgbClr", Val(color))])
      && sp.children[|sp.children| - 1].children == [Parent("a:solidFill", [Leaf("a:srgbClr", Val(color))])]
  {
    if color != "" {
      NamesOne(ColorNodes(kind, color)[0]);
    } else {
      NamesNone();
    }
  }

  /** The value blocks: for Scatter, `c:xVal` only when x values are set
      and then `c:yVal`; for any other type a single `c:val`. The last one
      holds the series' own reference. */
  lemma ValueBlocks(kind: ChartClass, s: Series)
    ensures var vs := ValueNodes(kind, s);
      Names(vs) == (if kind == ScatterChart then Opt(s.xreference.Some?, "c:xVal") + ["c:yVal"] else ["c:val"])
      && vs[|vs| - 1].children == [SerialNode(s.reference)]
      && (kind == ScatterChart && s.xreference.Some? ==> vs[0].children == [SerialNode(s.xreference.value)])
  {
  }

  /** The optional blocks of a series appear exactly when it sets them. */
  lemma OptionalBlocks(s: Series)
    ensures Names(LegendLabelNodes(s)) == Opt(s.legend.Some?, "c:tx")
    ensures Names(ErrorBarNodes(s)) == Opt(s.errorBar.Some?, "c:errBars")
    ensures Names(CategoryNodes(s)) == Opt(s.labels.Some?, "c:cat")
  {
    NamesNone();
    if s.legend.Some? { NamesOne(LegendLabelNodes(s)[0]); }
    if s.errorBar.Some? { NamesOne(ErrorBarNodes(s)[0]); }
    if s.labels.Some? { NamesOne(CategoryNodes(s)[0]); }
  }

  lemma NamesConcat6(a: seq<Node>, b: seq<Node>, c: seq<Node>, d: seq<Node>, e: seq<Node>, f: seq<Node>)
    ensures Names(a + b + c + d + e + f) == Names(a) + Names(b) + Names(c) + Names(d) + Names(e) + Names(f)
  {
    NamesAppend(a, b);
    NamesAppend(a + b, c);
    NamesAppend(a + b + c, d);
    NamesAppend(a + b + c + d, e);
    NamesAppend(a + b + c + d + e, f);
  }

  /** The children of a `c:ser`, by tag: idx and order always, then tx,
      spPr, errBars, cat only when the series sets them, then the value
      blocks; so they come in the fixed order of SeriesRank. */
  lemma SeriesLayout(kind: ChartClass, i: nat, s: Series)
    requires i < Pow15
    ensures var names := Names(SeriesNode(kind, i, s).children);
      names == SeriesChildNames(kind, s.legend.Some?, s.color != "", s.errorBar.Some?, s.labels.Some?, s.xreference.Some?)
      && InSeriesOrder(names)
  {
    var ids := SeriesIdNodes(i);
    assert Names(ids) == ["c:idx", "c:order"];
    ColorBlock(kind, s.color);
    ValueBlocks(kind, s);
    OptionalBlocks(s);
    NamesConcat6(ids, LegendLabelNodes(s), ColorNodes(kind, s.color), ErrorBarNodes(s), CategoryNodes(s), ValueNodes(kind, s));
    SeriesChildNamesOrdered(kind, s.legend.Some?, s.color != "", s.errorBar.Some?, s.labels.Some?, s.xreference.Some?);
  }

  /** The tags that can occur inside a `c:ser`. */
  const SeriesInnerTags: set<string> :=
    {"c:idx", "c:order", "c:tx", "c:spPr", "a:solidFill", "a:srgbClr", "a:ln",
     "c:errBars", "c:errBarType", "c:errValType", "c:plus", "c:minus",
     "c:cat", "c:xVal", "c:yVal", "c:val"} + SerialTags

  lemma ColorAvoids(bad: set<string>, kind: ChartClass, color: string)
    requires bad !! SeriesInnerTags
    ensures Avoids(bad, ColorNodes(kind, color))
  {
    if color != "" {
      var rgb := Leaf("a:srgbClr", Val(color));
      var fill := Parent("a:solidFill", [rgb]);
      var ln := Parent("a:ln", [fill]);
      AvoidsOne(bad, rgb);
      AvoidsOne(bad, fill);
      AvoidsOne(bad, ln);
      var fills: seq<Node> := if kind == BarChart then [fill] else [];
      AvoidsAppend(bad, fills, [ln]);
      AvoidsOne(bad, Parent("c:spPr", fills + [ln]));
    }
  }

  lemma WrapperAvoids(bad: set<string>, name: string, r: Reference)
    requires bad !! SerialTags && name !in bad
    ensures Avoids(bad, [Parent(name, [SerialNode(r)])])
  {
    SerialAvoids(bad, r);
    AvoidsOne(bad, Parent(name, [SerialNode(r)]));
  }

  lemma ErrorBarAvoids(bad: set<string>, e: ErrorBar)
    requires bad !! SeriesInnerTags
    ensures Avoids(bad, [ErrorBarNode(e)])
  {
    var ec := ErrorBarNode(e).children;
    WrapperAvoids(bad, "c:plus", e.reference);
    WrapperAvoids(bad, "c:minus", e.reference);
    assert ec == [ec[0], ec[1]] + [ec[2]] + [ec[3]];
    AvoidsAppend(bad, [ec[0], ec[1]], [ec[2]]);
    AvoidsAppend(bad, [ec[0], ec[1]] + [ec[2]], [ec[3]]);
    AvoidsOne(bad, ErrorBarNode(e));
  }

  lemma ValueAvoids(bad: set<string>, kind: ChartClass, s: Series)
    requires bad !! SeriesInnerTags
    ensures Avoids(bad, ValueNodes(kind, s))
  {
    if kind == ScatterChart {
      WrapperAvoids(bad, "c:yVal", s.reference);
      if s.xreference.Some? {
        WrapperAvoids(bad, "c:xVal", s.xreference.value);
        AvoidsAppend(bad, [Parent("c:xVal", [SerialNode(s.xreference.value)])], [Parent("c:yVal", [SerialNode(s.reference)])]);
      }
    } else {
      WrapperAvoids(bad, "c:val", s.reference);
    }
  }

  lemma AvoidsConcat6(bad: set<string>, a: seq<Node>, b: seq<Node>, c: seq<Node>, d: seq<Node>, e: seq<Node>, f: seq<Node>)
    requires Avoids(bad, a) && Avoids(bad, b) && Avoids(bad, c) && Avoids(bad, d) && Avoids(bad, e) && Avoids(bad, f)
    ensures Avoids(bad, a + b + c + d + e + f)
  {
    AvoidsAppend(bad, a, b);
    AvoidsAppend(bad, a + b, c);
    AvoidsAppend(bad, a + b + c, d);
    AvoidsAppend(bad, a + b + c + d, e);
    AvoidsAppend(bad, a + b + c + d + e, f);
  }

  /** Only the tags of SeriesInnerTags occur inside a `c:ser`. */
  lemma SeriesInnerAvoids(bad: set<string>, kind: ChartClass, i: nat, s: Series)
    requires i < Pow15
    requires bad !! SeriesInnerTags
    ensures Avoids(bad, SeriesNode(kind, i, s).children)
  {
    var ids := SeriesIdNodes(i);
    assert Avoids(bad, ids);
    if s.legend.Some? {
      WrapperAvoids(bad, "c:tx", s.legend.value);
    }
    ColorAvoids(bad, kind, s.color);
    if s.errorBar.Some? {
      ErrorBarAvoids(bad, s.errorBar.value);
    }
    if s.labels.Some? {
      WrapperAvoids(bad, "c:cat", s.labels.value);
    }
    ValueAvoids(bad, kind, s);
    AvoidsConcat6(bad, ids, LegendLabelNodes(s), ColorNodes(kind, s.color), ErrorBarNodes(s), CategoryNodes(s), ValueNodes(kind, s));
  }

  /** However deep one looks, the series list holds exactly one `c:ser`
      per series. */
  lemma SeriesCount(chart: Chart)
    ensures CountIn("c:ser", AllSeriesNodes(chart)) == |chart.series|
  {
    var ns := AllSeriesNodes(chart);
    forall k | 0 <= k < |ns|
      ensures ns[k].name == "c:ser" && Avoids({"c:ser"}, ns[k].children)
    {
      SeriesInnerAvoids({"c:ser"}, chart.kind, k, chart.series[k]);
    }
    CountEach("c:ser", ns);
  }

  /** No tag outside the series' own vocabulary occurs in the series list. */
  lemma SeriesListAvoids(bad: set<string>, chart: Chart)
    requires bad !! SeriesInnerTags && "c:ser" !in bad
    ensures Avoids(bad, AllSeriesNodes(chart))
  {
    var ns := AllSeriesNodes(chart);
    forall k | 0 <= k < |ns|
      ensures ns[k].name !in bad && Avoids(bad, ns[k].children)
    {
      SeriesInnerAvoids(bad, chart.kind, k, chart.series[k]);
    }
  }

  /** No axis element occurs in the series list. */
  lemma SeriesListHasNoAxes(chart: Chart)
    ensures Avoids({"c:catAx", "c:valAx"}, AllSeriesNodes(chart))
  {
    assert "c:catAx" !in SeriesInnerTags && "c:valAx" !in SeriesInnerTags;
    SeriesListAvoids({"c:catAx", "c:valAx"}, chart);
  }
}
