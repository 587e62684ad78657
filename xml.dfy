/** The element tree the chart writer builds. It stands in for the
    `Element`/`SubElement` helpers of openpyxl.shared.xmltools: an element has
    a tag, a dictionary of attributes, an optional text and an ordered list of
    children, and `SubElement` appends a new child to a parent in place.
    Serialising the tree to text is not part of this model. */
module Xml {
  import opened Results

  /** A finished element. An element whose text the writer never sets has
      `text == ""`. Attributes form a dictionary, as the writer passes them. */
  datatype Node = Node(name: string, attrs: map<string, string>, text: string, children: seq<Node>)

  /** An element with attributes and nothing inside it. */
  function Leaf(name: string, attrs: map<string, string>): Node
  {
    Node(name, attrs, "", [])
  }

  /** An element that holds only a text. */
  function TextLeaf(name: string, text: string): Node
  {
    Node(name, map[], text, [])
  }

  /** An element without attributes or text that holds the given children. */
  function Parent(name: string, children: seq<Node>): Node
  {
    Node(name, map[], "", children)
  }

  /** The tags of a list of elements, in order. */
  function Names(ns: seq<Node>): seq<string>
  {
    seq(|ns|, i requires 0 <= i < |ns| => ns[i].name)
  }

  /** The number of elements tagged `name` anywhere in the forest `ns`
      (the elements of `ns` and all their descendants). */
  function CountIn(name: string, ns: seq<Node>): nat
    decreases ns
  {
    if ns == [] then 0
    else (if ns[0].name == name then 1 else 0) + CountIn(name, ns[0].children) + CountIn(name, ns[1..])
  }

  /** The number of elements tagged `name` in the tree rooted at `n`, the root included. */
  function Count(name: string, n: Node): nat
  {
    CountIn(name, [n])
  }

  lemma {:induction false} CountInAppend(name: string, a: seq<Node>, b: seq<Node>)
    ensures CountIn(name, a + b) == CountIn(name, a) + CountIn(name, b)
    decreases a
  {
    if a == [] {
      assert a + b == b;
    } else {
      assert (a + b)[0] == a[0];
      assert (a + b)[1..] == a[1..] + b;
      CountInAppend(name, a[1..], b);
    }
  }

  lemma CountOne(name: string, n: Node)
    ensures Count(name, n) == (if n.name == name then 1 else 0) + CountIn(name, n.children)
  {
    assert [n][0] == n && [n][1..] == [];
    assert CountIn(name, []) == 0;
  }

  /** No element of the forest `ns`, at any depth, has a tag in `bad`. */
  predicate Avoids(bad: set<string>, ns: seq<Node>)
    decreases ns
  {
    forall i :: 0 <= i < |ns| ==> ns[i].name !in bad && Avoids(bad, ns[i].children)
  }

  lemma AvoidsAppend(bad: set<string>, a: seq<Node>, b: seq<Node>)
    ensures Avoids(bad, a + b) <==> Avoids(bad, a) && Avoids(bad, b)
  {
    if Avoids(bad, a) && Avoids(bad, b) {
      forall i | 0 <= i < |a + b|
        ensures (a + b)[i].name !in bad && Avoids(bad, (a + b)[i].children)
      {
        if i >= |a| {
          assert (a + b)[i] == b[i - |a|];
        }
      }
    }
    if Avoids(bad, a + b) {
      forall i | 0 <= i < |a|
        ensures a[i].name !in bad && Avoids(bad, a[i].children)
      {
        assert a[i] == (a + b)[i];
      }
      forall i | 0 <= i < |b|
        ensures b[i].name !in bad && Avoids(bad, b[i].children)
      {
        assert b[i] == (a + b)[|a| + i];
      }
    }
  }

  /** A tag that occurs nowhere in a forest is counted zero times there. */
  lemma {:induction false} CountAbsent(name: string, ns: seq<Node>)
    requires Avoids({name}, ns)
    ensures CountIn(name, ns) == 0
    decreases ns
  {
    if ns != [] {
      CountAbsent(name, ns[0].children);
      assert forall i :: 0 <= i < |ns[1..]| ==> ns[1..][i] == ns[i + 1];
      CountAbsent(name, ns[1..]);
    }
  }

  /** A forest of elements all tagged `name`, none holding `name` below it,
      counts `name` once per element. */
  lemma {:induction false} CountEach(name: string, ns: seq<Node>)
    requires forall k :: 0 <= k < |ns| ==> ns[k].name == name && Avoids({name}, ns[k].children)
    ensures CountIn(name, ns) == |ns|
    decreases ns
  {
    if ns != [] {
      CountAbsent(name, ns[0].children);
      assert forall k :: 0 <= k < |ns[1..]| ==> ns[1..][k] == ns[k + 1];
      CountEach(name, ns[1..]);
    }
  }

  lemma {:induction false} AvoidsSubset(small: set<string>, big: set<string>, ns: seq<Node>)
    requires small <= big && Avoids(big, ns)
    ensures Avoids(small, ns)
    decreases ns
  {
    forall i | 0 <= i < |ns|
      ensures ns[i].name !in small && Avoids(small, ns[i].children)
    {
      AvoidsSubset(small, big, ns[i].children);
    }
  }

  lemma AvoidsOne(bad: set<string>, n: Node)
    ensures Avoids(bad, [n]) <==> n.name !in bad && Avoids(bad, n.children)
  {
    assert [n][0] == n;
  }

  lemma PrefixStep(ns: seq<Node>, i: nat)
    requires i < |ns|
    ensures ns[..i + 1] == ns[..i] + [ns[i]]
  {
  }

  lemma NamesAppend(a: seq<Node>, b: seq<Node>)
    ensures Names(a + b) == Names(a) + Names(b)
  {
  }

  lemma NamesOne(n: Node)
    ensures Names([n]) == [n.name]
  {
  }

  lemma NamesNone()
    ensures Names([]) == []
  {
  }

  /** The tag `name` when `b` holds, nothing otherwise. */
  function Opt(b: bool, name: string): seq<string>
  {
    if b then [name] else []
  }

  /** An element under construction: `SubElement` and the assignment of
      `.text` change it in place. Children are appended once finished. */
  class Element {
    const name: string
    const attrs: map<string, string>
    var text: string
    var children: seq<Node>

    constructor (name: string, attrs: map<string, string>)
      ensures this.name == name && this.attrs == attrs
      ensures text == "" && children == []
    {
      this.name := name;
      this.attrs := attrs;
      text := "";
      children := [];
    }

    /** The element as it stands now. */
    function Value(): Node
      reads this
    {
      Node(name, attrs, text, children)
    }

    /** `SubElement(self, name, attrs)` for a child that stays empty. */
    method SubElement(name: string, attrs: map<string, string>)
      modifies this`children
      ensures children == old(children) + [Leaf(name, attrs)]
    {
      children := children + [Leaf(name, attrs)];
    }

    /** `SubElement(self, name).text = text`. */
    method SubElementText(name: string, text: string)
      modifies this`children
      ensures children == old(children) + [TextLeaf(name, text)]
    {
      children := children + [TextLeaf(name, text)];
    }

    /** Appends a child element built separately. */
    method Append(child: Element)
      modifies this`children
      ensures children == old(children) + [old(child.Value())]
    {
      children := children + [child.Value()];
    }
  }
}
