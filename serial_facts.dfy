/** What `_write_serial` and `_write_error_bar` promise about the blocks
    they write. */
module SerialFacts {
  import opened Results
  import opened Xml
  import opened NumberText
  import opened ChartModel
  import opened ChartXml

  /** The element that holds the points: the cache inside a bound
      reference's element, or the literal element itself. */
  function DataBlock(r: Reference): Node
  {
    var s := SerialNode(r);
    if r.Bound? then s.children[1] else s
  }

  /** The texts of the `c:v` elements of a list of points, in order. */
  function PointTexts(points: seq<Node>): seq<string>
  {
    seq(|points|, j requires 0 <= j < |points| =>
      if |points[j].children| > 0 then points[j].children[0].text else "")
  }

  lemma {:induction false} PointsAt(values: seq<Value>, n: nat)
    requires n <= |values|
    ensures |Points(values, n)| == n
    ensures forall j :: 0 <= j < n ==> Points(values, n)[j] == PointNode(j, values[j])
  {
    if n > 0 {
      PointsAt(values, n - 1);
    }
  }

  lemma PointTextsRender(vals: seq<Value>)
    ensures PointTexts(Points(vals, |vals|)) == seq(|vals|, j requires 0 <= j < |vals| => Render(vals[j]))
  {
    PointsAt(vals, |vals|);
  }

  lemma DataNodeSplit(name: string, t: DataType, numberFormat: string, vals: seq<Value>)
    ensures var data := DataNode(name, t, numberFormat, vals).children;
      var k := if t == NumberData then 1 else 0;
      |data| == k + 1 + |vals|
      && data[..k + 1] == FormatCodeNodes(t, numberFormat) + [Leaf("c:ptCount", Val(IntText(|vals|)))]
      && data[k + 1..] == Points(vals, |vals|)
  {
    PointsAt(vals, |vals|);
  }

  /** The children of a cache or literal block: `c:formatCode` (default
      "General") only for numeric data, then `c:ptCount`, then one `c:pt` per
      value with `idx` counting from 0. */
  lemma DataNodeLayout(name: string, t: DataType, numberFormat: string, vals: seq<Value>)
    ensures var data := DataNode(name, t, numberFormat, vals).children;
      var k := if t == NumberData then 1 else 0;
      |data| == k + 1 + |vals|
      && (t == NumberData ==>
            data[0] == TextLeaf("c:formatCode", if numberFormat == "" then "General" else numberFormat))
      && data[k] == Leaf("c:ptCount", Val(IntText(|vals|)))
      && forall j :: 0 <= j < |vals| ==> data[k + 1 + j] == PointNode(j, vals[j])
  {
    DataNodeHead(name, t, numberFormat, vals);
    DataNodePoints(name, t, numberFormat, vals);
  }

  lemma DataNodeHead(name: string, t: DataType, numberFormat: string, vals: seq<Value>)
    ensures var data := DataNode(name, t, numberFormat, vals).children;
      var k := if t == NumberData then 1 else 0;
      |data| == k + 1 + |vals|
      && (t == NumberData ==>
            data[0] == TextLeaf("c:formatCode", if numberFormat == "" then "General" else numberFormat))
      && data[k] == Leaf("c:ptCount", Val(IntText(|vals|)))
  {
    var data := DataNode(name, t, numberFormat, vals).children;
    var k := if t == NumberData then 1 else 0;
    DataNodeSplit(name, t, numberFormat, vals);
    assert data[k] == data[..k + 1][k];
    assert data[0] == data[..k + 1][0];
  }

  lemma DataNodePoints(name: string, t: DataType, numberFormat: string, vals: seq<Value>)
    ensures var data := DataNode(name, t, numberFormat, vals).children;
      var k := if t == NumberData then 1 else 0;
      |data| == k + 1 + |vals|
      && forall j :: 0 <= j < |vals| ==> data[k + 1 + j] == PointNode(j, vals[j])
  {
    var data := DataNode(name, t, numberFormat, vals).children;
    var k := if t == NumberData then 1 else 0;
    DataNodeSplit(name, t, numberFormat, vals);
    var pts := data[k + 1..];
    forall j | 0 <= j < |vals|
      ensures data[k + 1 + j] == PointNode(j, vals[j])
    {
      PointsAt(vals, |vals|);
      assert pts[j] == data[k + 1 + j];
    }
  }

  /** The shape of the block for a reference: a bound reference gives a
      `c:numRef`/`c:strRef` holding `c:f` with the address and then the
      `c:numCache`/`c:strCache`; any other gives `c:numLit`. Either way the
      points are those of the values it is written with. */
  lemma SerialLayout(r: Reference)
    ensures var s := SerialNode(r);
      (r.Bound? ==> s.name == RefName(r.dataType) && |s.children| == 2
                    && s.children[0] == TextLeaf("c:f", r.address)
                    && DataBlock(r).name == CacheName(r.dataType))
      && (r.Unbound? ==> s.name == "c:numLit")
    ensures DataBlock(r) == DataNode(DataBlock(r).name, r.dataType, r.numberFormat, WrittenValues(r))
  {
  }

  /** Reading the block back: the point count is the number of values and
      the point texts are the values' renderings, in order; a numeric point
      of an integer value reads back as that integer. */
  lemma DataNodeReadBack(name: string, t: DataType, numberFormat: string, vals: seq<Value>)
    ensures var data := DataNode(name, t, numberFormat, vals).children;
      var k := if t == NumberData then 1 else 0;
      k + 1 <= |data|
      && ParseInt(data[k].attrs["val"]) == Some(|vals|)
      && PointTexts(data[k + 1..]) == seq(|vals|, j requires 0 <= j < |vals| => Render(vals[j]))
  {
    var data := DataNode(name, t, numberFormat, vals).children;
    var k := if t == NumberData then 1 else 0;
    DataNodeSplit(name, t, numberFormat, vals);
    PointTextsRender(vals);
    IntTextRoundTrip(|vals|);
    assert data[k] == data[..k + 1][k];
  }

  lemma SerialReadBack(r: Reference)
    ensures var data := DataBlock(r).children; var vals := WrittenValues(r);
      var k := if r.dataType == NumberData then 1 else 0;
      k + 1 <= |data|
      && ParseInt(data[k].attrs["val"]) == Some(|vals|)
      && PointTexts(data[k + 1..]) == seq(|vals|, j requires 0 <= j < |vals| => Render(vals[j]))
  {
    SerialLayout(r);
    DataNodeReadBack(DataBlock(r).name, r.dataType, r.numberFormat, WrittenValues(r));
  }

  /** A numeric point of an integer value reads back as that integer. */
  lemma NumericPointReadBack(j: nat, v: Number)
    requires v.Int?
    ensures ParseInt(PointTexts([PointNode(j, Num(v))])[0]) == Some(v.value)
  {
    SafeStringReadBack(v);
  }

  /** A reference without an address is written as a single point "1",
      whatever values it holds. */
  lemma UnboundIsSinglePointOne(t: DataType, values: seq<Value>, numberFormat: string)
    ensures var data := DataBlock(Unbound(t, values, numberFormat)).children;
      PointTexts(data[|data| - 1..]) == ["1"]
      && data[|data| - 2] == Leaf("c:ptCount", Val("1"))
  {
    var r := Unbound(t, values, numberFormat);
    SerialReadBack(r);
    SerialLayout(r);
  }

  /** The tags that can occur in the block for a reference. */
  const SerialTags: set<string> :=
    {"c:numRef", "c:strRef", "c:f", "c:numCache", "c:strCache", "c:numLit",
     "c:formatCode", "c:ptCount", "c:pt", "c:v"}

  lemma {:induction false} PointsAvoid(bad: set<string>, values: seq<Value>, n: nat)
    requires n <= |values|
    requires "c:pt" !in bad && "c:v" !in bad
    ensures Avoids(bad, Points(values, n))
  {
    if n > 0 {
      PointsAvoid(bad, values, n - 1);
      var p := PointNode(n - 1, values[n - 1]);
      assert Avoids(bad, p.children);
      AvoidsAppend(bad, Points(values, n - 1), [p]);
    }
  }

  /** Only the tags of SerialTags occur in the block for a reference. */
  lemma SerialAvoids(bad: set<string>, r: Reference)
    requires bad !! SerialTags
    ensures Avoids(bad, [SerialNode(r)])
  {
    var vals := WrittenValues(r);
    PointsAvoid(bad, vals, |vals|);
    var head := FormatCodeNodes(r.dataType, r.numberFormat) + [Leaf("c:ptCount", Val(IntText(|vals|)))];
    assert Avoids(bad, head);
    AvoidsAppend(bad, head, Points(vals, |vals|));
    var data := DataBlock(r);
    assert Avoids(bad, [data]);
    if r.Bound? {
      assert SerialNode(r).children == [TextLeaf("c:f", r.address)] + [data];
      AvoidsAppend(bad, [TextLeaf("c:f", r.address)], [data]);
    }
  }

  /** `_write_error_bar`: the type attribute follows the `flag` table, the
      value type is always "cust", and a `c:plus` then a `c:minus` follow,
      each holding the block of the same reference. */
  lemma ErrorBarLayout(eb: ErrorBar)
    ensures var n := ErrorBarNode(eb);
      Names(n.children) == ["c:errBarType", "c:errValType", "c:plus", "c:minus"]
      && n.children[0].attrs == Val(ErrorBarFlag(eb.kind))
      && n.children[1].attrs == Val("cust")
      && n.children[2].children == n.children[3].children == [SerialNode(eb.reference)]
  {
  }

  lemma ErrorBarChildCount(eb: ErrorBar, name: string)
    requires name == "c:plus" || name == "c:minus"
    ensures CountIn(name, ErrorBarNode(eb).children) == 1
  {
    var cs := ErrorBarNode(eb).children;
    var inner := [SerialNode(eb.reference)];
    var flags := [cs[0], cs[1]];
    assert cs == flags + [cs[2]] + [cs[3]];
    SerialAvoids({name}, eb.reference);
    CountAbsent(name, inner);
    assert Avoids({name}, flags);
    CountAbsent(name, flags);
    CountInAppend(name, flags + [cs[2]], [cs[3]]);
    CountInAppend(name, flags, [cs[2]]);
    CountOne(name, cs[2]);
    CountOne(name, cs[3]);
  }

  /** However deep one looks, an error bar holds exactly one `c:plus` and
      exactly one `c:minus`. */
  lemma ErrorBarCounts(eb: ErrorBar)
    ensures Count("c:plus", ErrorBarNode(eb)) == 1
    ensures Count("c:minus", ErrorBarNode(eb)) == 1
  {
    ErrorBarChildCount(eb, "c:plus");
    ErrorBarChildCount(eb, "c:minus");
    CountOne("c:plus", ErrorBarNode(eb));
    CountOne("c:minus", ErrorBarNode(eb));
  }

  /** The error bar direction changes nothing but the `c:errBarType` value,
      and the three directions give three distinct values. */
  lemma ErrorBarDirectionOnlyFlag(reference: Reference, a: ErrorBarType, b: ErrorBarType)
    ensures ErrorBarNode(ErrorBar(a, reference)).children[1..] == ErrorBarNode(ErrorBar(b, reference)).children[1..]
    ensures ErrorBarFlag(a) == ErrorBarFlag(b) <==> a == b
  {
  }
}
