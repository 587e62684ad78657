/** What `_write_axis` promises: which children an axis has, in which
    order, and what they hold; and how the base and Scatter versions
    differ. */
module AxisFacts {
  import opened Results
  import opened Xml
  import opened NumberText
  import opened ChartModel
  import opened ChartXml

  /** The tags of the children of an axis element. */
  function AxisChildNames(tag: AxisLabel, hasTitle: bool, auto: bool, align: bool, offset: bool): seq<string>
  {
    (["c:axId", "c:scaling", "c:axPos"] + (if tag == ValAx then ["c:majorGridlines", "c:numFmt"] else []))
    + Opt(hasTitle, "c:title")
    + (["c:tickLblPos", "c:crossAx", "c:crosses"] + Opt(auto, "c:auto") + Opt(align, "c:lblAlgn") + Opt(offset, "c:lblOffset"))
    + (if tag == ValAx then ["c:crossBetween", "c:majorUnit"] else [])
  }

  lemma ScaleNames(axis: Axis, tag: AxisLabel)
    ensures Names(AxisScaleNodes(axis, tag))
            == ["c:axId", "c:scaling", "c:axPos"] + (if tag == ValAx then ["c:majorGridlines", "c:numFmt"] else [])
  {
  }

  lemma CrossNames(axis: Axis)
    ensures Names(AxisCrossNodes(axis))
            == ["c:tickLblPos", "c:crossAx", "c:crosses"] + Opt(axis.auto, "c:auto")
               + Opt(axis.labelAlign != "", "c:lblAlgn") + Opt(axis.labelOffset != 0, "c:lblOffset")
  {
    var fixed := [Leaf("c:tickLblPos", Val(axis.tickLabelPosition)),
                  Leaf("c:crossAx", Val(IntText(axis.cross))),
                  Leaf("c:crosses", Val(axis.crosses))];
    var a: seq<Node> := if axis.auto then [Leaf("c:auto", Val("1"))] else [];
    var l: seq<Node> := if axis.labelAlign != "" then [Leaf("c:lblAlgn", Val(axis.labelAlign))] else [];
    var o: seq<Node> := if axis.labelOffset != 0 then [Leaf("c:lblOffset", Val(IntText(axis.labelOffset)))] else [];
    NamesAppend(fixed, a);
    NamesAppend(fixed + a, l);
    NamesAppend(fixed + a + l, o);
  }

  lemma TitleNames(lang: string, title: string)
    ensures Names(TitleNodes(lang, title)) == Opt(title != "", "c:title")
  {
  }

  lemma TailNames(axis: Axis, tag: AxisLabel, crossBetween: string)
    ensures Names(ValueAxisTailNodes(axis, tag, crossBetween))
            == if tag == ValAx then ["c:crossBetween", "c:majorUnit"] else []
  {
  }

  /** An axis is a `c:catAx` or `c:valAx` element whose children are, in
      order: id, scaling, position, gridlines and number format (value axis
      only), the title (only when non-empty), label position, crossing axis,
      crossing, `c:auto`, `c:lblAlgn`, `c:lblOffset` (each only when its
      setting is truthy), then cross-between mode and major unit (value axis
      only). */
  lemma AxisLayout(lang: string, axis: Axis, tag: AxisLabel, crossBetween: string)
    ensures var ax := AxisNode(lang, axis, tag, crossBetween);
      ax.name == (if tag == ValAx then "c:valAx" else "c:catAx")
      && Names(ax.children)
         == AxisChildNames(tag, axis.title != "", axis.auto, axis.labelAlign != "", axis.labelOffset != 0)
  {
    var s, t, c, v := AxisScaleNodes(axis, tag), TitleNodes(lang, axis.title), AxisCrossNodes(axis),
                      ValueAxisTailNodes(axis, tag, crossBetween);
    ScaleNames(axis, tag);
    TitleNames(lang, axis.title);
    CrossNames(axis);
    TailNames(axis, tag, crossBetween);
    NamesAppend(s, t);
    NamesAppend(s + t, c);
    NamesAppend(s + t + c, v);
  }

  lemma GridAndFormatNames(tag: AxisLabel, hasTitle: bool, auto: bool, align: bool, offset: bool)
    ensures var names := AxisChildNames(tag, hasTitle, auto, align, offset);
      ("c:majorGridlines" in names <==> tag == ValAx) && ("c:numFmt" in names <==> tag == ValAx)
  {
    var names := AxisChildNames(tag, hasTitle, auto, align, offset);
    if tag == ValAx {
      assert names[3] == "c:majorGridlines" && names[4] == "c:numFmt";
    }
  }

  lemma CrossBetweenAndUnitNames(tag: AxisLabel, hasTitle: bool, auto: bool, align: bool, offset: bool)
    ensures var names := AxisChildNames(tag, hasTitle, auto, align, offset);
      ("c:crossBetween" in names <==> tag == ValAx) && ("c:majorUnit" in names <==> tag == ValAx)
  {
    var names := AxisChildNames(tag, hasTitle, auto, align, offset);
    if tag == ValAx {
      assert names[|names| - 2] == "c:crossBetween" && names[|names| - 1] == "c:majorUnit";
    }
  }

  lemma TitleInNames(tag: AxisLabel, hasTitle: bool, auto: bool, align: bool, offset: bool)
    ensures "c:title" in AxisChildNames(tag, hasTitle, auto, align, offset) <==> hasTitle
  {
  }

  lemma AutoInNames(tag: AxisLabel, hasTitle: bool, auto: bool, align: bool, offset: bool)
    ensures "c:auto" in AxisChildNames(tag, hasTitle, auto, align, offset) <==> auto
  {
  }

  lemma AlignInNames(tag: AxisLabel, hasTitle: bool, auto: bool, align: bool, offset: bool)
    ensures "c:lblAlgn" in AxisChildNames(tag, hasTitle, auto, align, offset) <==> align
  {
  }

  lemma OffsetInNames(tag: AxisLabel, hasTitle: bool, auto: bool, align: bool, offset: bool)
    ensures "c:lblOffset" in AxisChildNames(tag, hasTitle, auto, align, offset) <==> offset
  {
  }

  /** Gridlines and the number format: on value axes only. */
  lemma GridAndFormatOnlyOnValueAxis(lang: string, axis: Axis, tag: AxisLabel, crossBetween: string)
    ensures var names := Names(AxisNode(lang, axis, tag, crossBetween).children);
      ("c:majorGridlines" in names <==> tag == ValAx) && ("c:numFmt" in names <==> tag == ValAx)
  {
    AxisLayout(lang, axis, tag, crossBetween);
    GridAndFormatNames(tag, axis.title != "", axis.auto, axis.labelAlign != "", axis.labelOffset != 0);
  }

  /** Cross-between mode and major unit: on value axes only. */
  lemma CrossBetweenAndUnitOnlyOnValueAxis(lang: string, axis: Axis, tag: AxisLabel, crossBetween: string)
    ensures var names := Names(AxisNode(lang, axis, tag, crossBetween).children);
      ("c:crossBetween" in names <==> tag == ValAx) && ("c:majorUnit" in names <==> tag == ValAx)
  {
    AxisLayout(lang, axis, tag, crossBetween);
    CrossBetweenAndUnitNames(tag, axis.title != "", axis.auto, axis.labelAlign != "", axis.labelOffset != 0);
  }

  /** The axis title appears exactly when it is non-empty. */
  lemma TitleOnlyWhenSet(lang: string, axis: Axis, tag: AxisLabel, crossBetween: string)
    ensures "c:title" in Names(AxisNode(lang, axis, tag, crossBetween).children) <==> axis.title != ""
  {
    AxisLayout(lang, axis, tag, crossBetween);
    TitleInNames(tag, axis.title != "", axis.auto, axis.labelAlign != "", axis.labelOffset != 0);
  }

  /** `c:auto` appears exactly when the axis' auto setting is truthy. */
  lemma AutoOnlyWhenSet(lang: string, axis: Axis, tag: AxisLabel, crossBetween: string)
    ensures "c:auto" in Names(AxisNode(lang, axis, tag, crossBetween).children) <==> axis.auto
  {
    AxisLayout(lang, axis, tag, crossBetween);
    AutoInNames(tag, axis.title != "", axis.auto, axis.labelAlign != "", axis.labelOffset != 0);
  }

  /** `c:lblAlgn` appears exactly when the label alignment is non-empty. */
  lemma AlignOnlyWhenSet(lang: string, axis: Axis, tag: AxisLabel, crossBetween: string)
    ensures "c:lblAlgn" in Names(AxisNode(lang, axis, tag, crossBetween).children) <==> axis.labelAlign != ""
  {
    AxisLayout(lang, axis, tag, crossBetween);
    AlignInNames(tag, axis.title != "", axis.auto, axis.labelAlign != "", axis.labelOffset != 0);
  }

  /** `c:lblOffset` appears exactly when the label offset is non-zero. */
  lemma OffsetOnlyWhenSet(lang: string, axis: Axis, tag: AxisLabel, crossBetween: string)
    ensures "c:lblOffset" in Names(AxisNode(lang, axis, tag, crossBetween).children) <==> axis.labelOffset != 0
  {
    AxisLayout(lang, axis, tag, crossBetween);
    OffsetInNames(tag, axis.title != "", axis.auto, axis.labelAlign != "", axis.labelOffset != 0);
  }

  /** The scaling of an axis: its orientation, then for a value axis only
      the maximum and minimum, each as `str(float(...))`. */
  lemma AxisScaling(lang: string, axis: Axis, tag: AxisLabel, crossBetween: string)
    ensures var sc := AxisNode(lang, axis, tag, crossBetween).children[1];
      sc.name == "c:scaling"
      && sc.children[0] == Leaf("c:orientation", Val(axis.orientation))
      && (tag == CatAx ==> |sc.children| == 1)
      && (tag == ValAx ==> sc.children[1..] == [Leaf("c:max", Val(FloatText(axis.max))), Leaf("c:min", Val(FloatText(axis.min)))])
  {
  }

  /** The values an axis carries: its id (which reads back), and, on a
      value axis, the number format "General" linked to the source, the
      cross-between mode and the major unit. */
  lemma AxisValues(lang: string, axis: Axis, tag: AxisLabel, crossBetween: string)
    ensures var cs := AxisNode(lang, axis, tag, crossBetween).children;
      |cs| >= 6
      && cs[0] == Leaf("c:axId", Val(SafeString(axis.id)))
      && (axis.id.Int? ==> ParseInt(cs[0].attrs["val"]) == Some(axis.id.value))
      && cs[2] == Leaf("c:axPos", Val(axis.position))
      && (tag == ValAx ==>
            cs[4] == Leaf("c:numFmt", map["formatCode" := "General", "sourceLinked" := "1"])
            && cs[|cs| - 2] == Leaf("c:crossBetween", Val(crossBetween))
            && cs[|cs| - 1] == Leaf("c:majorUnit", Val(FloatText(axis.unit))))
  {
    if axis.id.Int? {
      SafeStringReadBack(axis.id);
    }
    var s, t, c, v := AxisScaleNodes(axis, tag), TitleNodes(lang, axis.title), AxisCrossNodes(axis),
                      ValueAxisTailNodes(axis, tag, crossBetween);
    var cs := AxisNode(lang, axis, tag, crossBetween).children;
    assert cs == s + t + c + v;
    if tag == ValAx {
      assert cs[|cs| - 2] == v[0] && cs[|cs| - 1] == v[1];
    }
  }

  /** The title of an axis, when non-empty, comes right after the value-axis
      block, and the crossing axis right after the label position. */
  lemma AxisTitleAndCrossing(lang: string, axis: Axis, tag: AxisLabel, crossBetween: string)
    ensures var cs := AxisNode(lang, axis, tag, crossBetween).children;
      var i := CrossAxIndex(axis, tag);
      i + 1 < |cs|
      && (axis.title != "" ==> cs[if tag == ValAx then 5 else 3] == TitleNode(lang, axis.title))
      && cs[i] == Leaf("c:crossAx", Val(IntText(axis.cross)))
      && ParseInt(cs[i].attrs["val"]) == Some(axis.cross)
  {
    IntTextRoundTrip(axis.cross);
    var s, t, c, v := AxisScaleNodes(axis, tag), TitleNodes(lang, axis.title), AxisCrossNodes(axis),
                      ValueAxisTailNodes(axis, tag, crossBetween);
    AxisParts(lang, axis, tag, crossBetween);
    AxisScaleLength(axis, tag);
    CrossHead(axis);
    ConcatPick(s, t, c, v);
  }

  lemma AxisParts(lang: string, axis: Axis, tag: AxisLabel, crossBetween: string)
    ensures AxisNode(lang, axis, tag, crossBetween).children
            == AxisScaleNodes(axis, tag) + TitleNodes(lang, axis.title) + AxisCrossNodes(axis)
               + ValueAxisTailNodes(axis, tag, crossBetween)
  {
  }

  lemma AxisScaleLength(axis: Axis, tag: AxisLabel)
    ensures |AxisScaleNodes(axis, tag)| == if tag == ValAx then 5 else 3
  {
  }

  lemma CrossHead(axis: Axis)
    ensures |AxisCrossNodes(axis)| >= 3
    ensures AxisCrossNodes(axis)[1] == Leaf("c:crossAx", Val(IntText(axis.cross)))
  {
  }

  /** In `s + t + c + v`, the first of `t` sits at `|s|` and the second of
      `c` at `|s| + |t| + 1`. */
  lemma ConcatPick(s: seq<Node>, t: seq<Node>, c: seq<Node>, v: seq<Node>)
    requires |c| >= 3
    ensures |s| + |t| + 2 < |s + t + c + v|
    ensures |t| > 0 ==> (s + t + c + v)[|s|] == t[0]
    ensures (s + t + c + v)[|s| + |t| + 1] == c[1]
  {
    assert s + t + c + v == (s + t) + (c + v);
  }

  /** Where `c:crossAx` sits among the children of an axis. */
  function CrossAxIndex(axis: Axis, tag: AxisLabel): nat
  {
    (if tag == ValAx then 5 else 3) + (if axis.title != "" then 1 else 0) + 1
  }

  /** The id an axis is written with and the crossing axis it names, each
      read back from the written axis. */
  lemma AxisReferences(lang: string, axis: Axis, tag: AxisLabel, crossBetween: string)
    ensures var cs := AxisNode(lang, axis, tag, crossBetween).children; var i := CrossAxIndex(axis, tag);
      i < |cs|
      && cs[0] == Leaf("c:axId", Val(SafeString(axis.id)))
      && cs[i] == Leaf("c:crossAx", Val(IntText(axis.cross)))
      && ParseInt(cs[i].attrs["val"]) == Some(axis.cross)
      && (axis.id.Int? ==> ParseInt(cs[0].attrs["val"]) == Some(axis.id.value))
  {
    AxisValues(lang, axis, tag, crossBetween);
    AxisTitleAndCrossing(lang, axis, tag, crossBetween);
  }

  /** The base `_write_axis` writes nothing for a Pie chart; otherwise one
      axis whose cross-between mode is `midCat` for Scatter and `between`
      for any other type. The Scatter override always uses `midCat`, so on
      a Scatter chart it agrees with the base version. */
  lemma AxisVariants(chart: Chart, axis: Axis, tag: AxisLabel)
    ensures chart.kind == PieChart <==> BaseAxisNodes(chart, axis, tag) == []
    ensures chart.kind != PieChart ==>
      BaseAxisNodes(chart, axis, tag) == [AxisNode(chart.lang, axis, tag, if chart.kind == ScatterChart then "midCat" else "between")]
    ensures ScatterAxisNodes(chart, axis, tag) == [AxisNode(chart.lang, axis, tag, "midCat")]
    ensures chart.kind == ScatterChart ==> ScatterAxisNodes(chart, axis, tag) == BaseAxisNodes(chart, axis, tag)
  {
  }
}
