/** What a reader finds in the markup of the server, told from the description alone: the same
    characters and elements in the same order, and the attributes that govern. */
module ServerMeaning {
  import opened Options
  import opened HtmlReader
  import opened ServerHtml

  // ---------------------------------------------------------------- what stands among nodes

  /** Something that stands among the children of an element. */
  datatype Item = Ch(c: char) | El(node: Node)

  function CharItems(s: string): (r: seq<Item>)
    ensures |r| == |s|
  {
    seq(|s|, i requires 0 <= i < |s| => Ch(s[i]))
  }

  function Items(nodes: seq<Node>): (r: seq<Item>) {
    if nodes == [] then [] else (if nodes[0].TextNode? then CharItems(nodes[0].value) else [El(nodes[0])]) + Items(nodes[1..])
  }

  lemma {:induction false} ItemsConcat(a: seq<Node>, b: seq<Node>)
    ensures Items(a + b) == Items(a) + Items(b)
  {
    if a == [] {
      assert a + b == b;
    } else {
      assert (a + b)[0] == a[0] && (a + b)[1..] == a[1..] + b;
      ItemsConcat(a[1..], b);
      Associates(if a[0].TextNode? then CharItems(a[0].value) else [El(a[0])], Items(a[1..]), Items(b));
    }
  }

  lemma ItemsOfOne(node: Node)
    ensures Items([node]) == if node.TextNode? then CharItems(node.value) else [El(node)]
  {
    assert [node][1..] == [];
  }

  lemma CharItemsConcat(a: string, b: string)
    ensures CharItems(a + b) == CharItems(a) + CharItems(b)
  {
  }

  lemma JoinItems(children: seq<Node>, node: Node)
    ensures Items(Join(children, node)) == Items(children) + Items([node])
  {
    hide Items;
    if node.TextNode? && children != [] && children[|children| - 1].TextNode? {
      var front, last := children[..|children| - 1], children[|children| - 1];
      var joined := TextNode(last.value + node.value);
      assert children == front + [last] && Join(children, node) == front + [joined];
      hide Join;
      ItemsOfOne(joined);
      ItemsOfOne(last);
      ItemsOfOne(node);
      ItemsConcat(front, [last]);
      ItemsConcat(front, [joined]);
      CharItemsConcat(last.value, node.value);
      Associates(Items(front), Items([last]), Items([node]));
    } else {
      ItemsConcat(children, [node]);
    }
  }

  /** Joining keeps what stands among the nodes. */
  lemma {:induction false} JoinAllItems(children: seq<Node>, nodes: seq<Node>)
    ensures Items(JoinAll(children, nodes)) == Items(children) + Items(nodes)
    decreases |nodes|
  {
    if nodes != [] {
      var first, rest := [nodes[0]], nodes[1..];
      JoinAllItems(Join(children, nodes[0]), rest);
      JoinItems(children, nodes[0]);
      assert nodes == first + rest;
      ItemsConcat(first, rest);
      hide Items, Join;
      Associates(Items(children), Items(first), Items(rest));
    }
  }

  // ---------------------------------------------------------------- which attribute is read

  ghost predicate DistinctKeys(entries: seq<Entry>) {
    forall i, j :: 0 <= i < j < |entries| ==> entries[i].key != entries[j].key
  }

  /** A value is read as text `x`: a text as it is, with U+FFFD for U+0000, `true` as the empty text;
      `false`, an absent value and the name `key` are not read. */
  predicate ReadsAs(n: string, value: AttrValue, x: string) {
    n != "key" && ((value == Flag(true) && x == "") || (value.Text? && x == Filled(value.text)))
  }

  /** A property is assigned over the attributes, unless it is the value of a textarea. */
  predicate Assigned(tag: string, prop: Entry, n: string) {
    prop.key == n && !(tag == "textarea" && n == "value")
  }

  ghost predicate AnyAssigned(tag: string, props: seq<Entry>, n: string) {
    exists i :: 0 <= i < |props| && Assigned(tag, props[i], n)
  }

  /** The last property that is assigned to name `n` has this value. */
  ghost predicate PropGoverns(tag: string, props: seq<Entry>, n: string, value: AttrValue) {
    exists i :: 0 <= i < |props| && Assigned(tag, props[i], n) && props[i].value == value && forall j :: i < j < |props| ==> props[j].key != n
  }

  /** The value that counts for name `n`: the styles, or else the last property, or else the attribute. */
  ghost predicate Governs(tag: string, attrs: seq<Entry>, props: seq<Entry>, style: string, n: string, value: AttrValue) {
    if n == "style" && style != "" then value == Text(style)
    else if AnyAssigned(tag, props, n) then PropGoverns(tag, props, n, value)
    else Entry(n, value) in attrs
  }

  lemma {:induction false} AssignedEntries(record: seq<Entry>, key: string, value: AttrValue)
    requires DistinctKeys(record)
    ensures var r := Assign(record, key, value);
            && DistinctKeys(r) && (forall e :: e in r <==> e == Entry(key, value) || (e in record && e.key != key))
    decreases |record|
  {
    var r := Assign(record, key, value);
    if record != [] && record[0].key != key {
      AssignedEntries(record[1..], key, value);
      assert record == [record[0]] + record[1..];
      assert forall i :: 0 < i < |r| ==> r[i] == Assign(record[1..], key, value)[i - 1];
      assert forall e :: e in record[1..] ==> e.key != record[0].key;
    } else if record != [] {
      assert record == [record[0]] + record[1..];
      assert forall i :: 0 < i < |r| ==> r[i] == record[i];
    }
  }

  /** A property governs a name if a later one does, or it is the last with that name. */
  lemma PropsFirst(tag: string, props: seq<Entry>, n: string, value: AttrValue)
    requires props != []
    ensures AnyAssigned(tag, props, n) <==> Assigned(tag, props[0], n) || AnyAssigned(tag, props[1..], n)
    ensures PropGoverns(tag, props, n, value) <==>
              PropGoverns(tag, props[1..], n, value) || (!AnyAssigned(tag, props[1..], n) && Assigned(tag, props[0], n) && props[0].value == value)
  {
    var rest := props[1..];
    assert forall i :: 0 < i < |props| ==> props[i] == rest[i - 1];
    assert forall i :: 0 <= i < |rest| ==> rest[i] == props[i + 1];
  }

  lemma {:induction false} PropsAssigned(rules: Rules, tag: string, attrs: seq<Entry>, props: seq<Entry>)
    requires DistinctKeys(attrs) && WithProps(rules, tag, attrs, props).Ok?
    ensures var r := WithProps(rules, tag, attrs, props).value;
            && DistinctKeys(r)
            && forall n, value :: Entry(n, value) in r <==> if AnyAssigned(tag, props, n) then PropGoverns(tag, props, n, value) else Entry(n, value) in attrs
    decreases |props|
  {
    if props != [] {
      var p := props[0];
      var record := if tag == "textarea" && p.key == "value" then attrs else Assign(attrs, p.key, p.value);
      AssignedEntries(attrs, p.key, p.value);
      PropsAssigned(rules, tag, record, props[1..]);
      var r := WithProps(rules, tag, attrs, props).value;
      assert r == WithProps(rules, tag, record, props[1..]).value;
      forall n, value ensures Entry(n, value) in r <==> if AnyAssigned(tag, props, n) then PropGoverns(tag, props, n, value) else Entry(n, value) in attrs {
        PropsFirst(tag, props, n, value);
      }
    }
  }

  lemma EntriesGovern(rules: Rules, tag: string, attrs: seq<Entry>, props: seq<Entry>, styles: seq<Style>, n: string, value: AttrValue)
    requires DistinctKeys(attrs) && AllAttributes(rules, tag, attrs, props, styles).Ok?
    ensures var r := AllAttributes(rules, tag, attrs, props, styles).value;
            StyleText(rules, styles).Ok? && DistinctKeys(r) && (Entry(n, value) in r <==> Governs(tag, attrs, props, StyleText(rules, styles).value, n, value))
  {
    PropsAssigned(rules, tag, attrs, props);
    var record, style := WithProps(rules, tag, attrs, props).value, StyleText(rules, styles).value;
    if style != "" { AssignedEntries(record, "style", Text(style)); }
    assert Entry(n, value) in record <==> if AnyAssigned(tag, props, n) then PropGoverns(tag, props, n, value) else Entry(n, value) in attrs;
    hide WithProps, StyleText, Assign;
  }

  lemma {:induction false} InReadBack(entries: seq<Entry>, n: string, x: string)
    ensures Attr(n, x) in ReadBack(entries) <==> exists value :: Entry(n, value) in entries && ReadsAs(n, value, x)
    decreases |entries|
  {
    if entries != [] {
      var e := entries[0];
      InReadBack(entries[1..], n, x);
      assert entries == [e] + entries[1..];
      assert forall value :: Entry(n, value) in entries <==> Entry(n, value) == e || Entry(n, value) in entries[1..];
      if !Skipped(e) {
        assert Attr(n, x) in ReadBack(entries) <==> (e.key == n && ReadsAs(n, e.value, x)) || Attr(n, x) in ReadBack(entries[1..]);
      }
      if e.key == n && ReadsAs(n, e.value, x) { assert Entry(n, e.value) in entries; }
    }
  }

  /** The attributes that are read are those that govern. */
  lemma AttributesAreRead(rules: Rules, tag: string, attrs: seq<Entry>, props: seq<Entry>, styles: seq<Style>)
    requires DistinctKeys(attrs) && AllAttributes(rules, tag, attrs, props, styles).Ok?
    ensures StyleText(rules, styles).Ok?
    ensures AttrsRead(tag, attrs, props, StyleText(rules, styles).value, ReadBack(AllAttributes(rules, tag, attrs, props, styles).value))
  {
    var r := AllAttributes(rules, tag, attrs, props, styles).value;
    forall n, x ensures Attr(n, x) in ReadBack(r) <==> exists value :: Governs(tag, attrs, props, StyleText(rules, styles).value, n, value) && ReadsAs(n, value, x) {
      forall value ensures Entry(n, value) in r <==> Governs(tag, attrs, props, StyleText(rules, styles).value, n, value) {
        EntriesGovern(rules, tag, attrs, props, styles, n, value);
      }
      hide Governs, AllAttributes, ReadBack, ReadsAs;
      InReadBack(r, n, x);
    }
    hide AllAttributes, Governs, ReadBack, ReadsAs, WithProps;
    EntriesGovern(rules, tag, attrs, props, styles, "", Absent);
  }

  ghost predicate AttrsRead(tag: string, attrs: seq<Entry>, props: seq<Entry>, style: string, read: seq<Attr>) {
    forall n, x :: Attr(n, x) in read <==> exists value :: Governs(tag, attrs, props, style, n, value) && ReadsAs(n, value, x)
  }

  /** Styles are joined in order. */
  lemma {:induction false} StyleTextMeaning(rules: Rules, styles: seq<Style>, last: Style)
    requires StyleText(rules, styles + [last]).Ok?
    ensures StyleText(rules, styles).Ok? && rules.style(last.key, last.value)
    ensures StyleText(rules, styles + [last]).value == StyleText(rules, styles).value + (if styles == [] then "" else "; ") + last.key + ": " + last.value
  {
    var all := styles + [last];
    if styles == [] {
      assert all == [last] && all[1..] == [];
    } else {
      assert all[0] == styles[0] && all[1..] == styles[1..] + [last];
      StyleTextMeaning(rules, styles[1..], last);
      var head := styles[0].key + ": " + styles[0].value;
      var before, tail := StyleText(rules, styles[1..]).value, last.key + ": " + last.value;
      if styles[1..] == [] {
        assert before == "";
      }
      assert StyleText(rules, all).value == head + ("; " + StyleText(rules, all[1..]).value);
      assert StyleText(rules, styles).value == if styles[1..] == [] then head else head + ("; " + before);
    }
  }

  lemma FilledMeaning(s: string)
    ensures |Filled(s)| == |s| && forall i :: 0 <= i < |s| ==> Filled(s)[i] == if s[i] == '\0' then '\U{fffd}' else s[i]
  {
  }

  /** Where a U+0000 is ignored the other characters stay. */
  lemma {:induction false} DroppedMeaning(s: string, c: char)
    ensures Dropped("") == "" && Dropped(s + [c]) == Dropped(s) + if c == '\0' then "" else [c]
  {
    if s == "" {
      assert "" + [c] == [c] && [c][1..] == "";
    } else {
      assert (s + [c])[0] == s[0] && (s + [c])[1..] == s[1..] + [c];
      DroppedMeaning(s[1..], c);
    }
  }

  // ---------------------------------------------------------------- the whole tree

  /** How large a description is. */
  function Size(v: VNode): nat
    decreases v, 0
  {
    match v
    case VText(_) => 0
    case VFragment(children) => Sizes(children)
    case VElement(_, _, _, _, children) => 1 + Sizes(children)
  }

  function Sizes(vs: seq<VNode>): nat
    decreases vs, 1
  {
    if vs == [] then 0 else Size(vs[0]) + Sizes(vs[1..])
  }

  /** Something that a description puts among the children of an element. */
  datatype Part = CharPart(c: char) | ElementPart(v: VNode)

  /** What stands among the children of a `parent` described by `vs`: fragments are spliced, and a
      U+0000 is replaced in a textarea or title and ignored elsewhere. */
  function Parts(vs: seq<VNode>, parent: string): (r: seq<Part>)
    ensures forall i :: 0 <= i < |r| && r[i].ElementPart? ==> r[i].v.VElement? && Size(r[i].v) <= Sizes(vs)
    decreases vs, 1
  {
    if vs == [] then [] else PartsOf(vs[0], parent) + Parts(vs[1..], parent)
  }

  function PartsOf(v: VNode, parent: string): (r: seq<Part>)
    ensures forall i :: 0 <= i < |r| && r[i].ElementPart? ==> r[i].v.VElement? && Size(r[i].v) <= Size(v)
    decreases v, 0
  {
    match v
    case VText(value) =>
      var s := if parent == "textarea" || parent == "title" then Filled(value) else Dropped(value);
      seq(|s|, i requires 0 <= i < |s| => CharPart(s[i]))
    case VFragment(children) => Parts(children, parent)
    case VElement(_, _, _, _, _) => [ElementPart(v)]
  }

  /** An element is read as described: its tag, the attributes that govern, and its children, with no
      text node empty or next to another; there are none in a void element. */
  ghost predicate ElementRead(rules: Rules, v: VNode, node: Node)
    requires v.VElement?
    decreases Size(v), 0
  {
    && node.Element? && node.tag == v.tag
    && StyleText(rules, v.styles).Ok? && AttrsRead(v.tag, v.attrs, v.props, StyleText(rules, v.styles).value, node.attrs)
    && if v.tag in {"area", "base", "br", "col", "embed", "hr", "img", "input", "link", "meta", "param", "source", "track", "wbr"} then node.children == []
       else ChildrenRead(rules, v.children, v.tag, node.children)
  }

  ghost predicate ChildrenRead(rules: Rules, vs: seq<VNode>, parent: string, nodes: seq<Node>)
    decreases Sizes(vs), 1
  {
    var items, parts := Items(nodes), Parts(vs, parent);
    && Merged(nodes) && |items| == |parts|
    && forall i :: 0 <= i < |parts| ==>
         match parts[i]
         case CharPart(c) => items[i] == Ch(c)
         case ElementPart(v) => items[i].El? && ElementRead(rules, v, items[i].node)
  }

  ghost predicate ItemRead(rules: Rules, part: Part, item: Item)
    requires part.ElementPart? ==> part.v.VElement?
  {
    match part
    case CharPart(c) => item == Ch(c)
    case ElementPart(v) => item.El? && ElementRead(rules, v, item.node)
  }

  /** Attributes are objects: no name occurs twice. */
  ghost predicate AttributesDistinct(v: VNode) {
    match v
    case VText(_) => true
    case VFragment(children) => forall i :: 0 <= i < |children| ==> AttributesDistinct(children[i])
    case VElement(_, attrs, _, _, children) => DistinctKeys(attrs) && forall i :: 0 <= i < |children| ==> AttributesDistinct(children[i])
  }

  lemma {:induction false} NodeRead(rules: Rules, v: VNode, parent: string)
    requires Readable(v) && AttributesDistinct(v) && RenderNode(rules, v, None, Html).Ok?
    ensures var items, parts := Items(Nodes(rules, v, parent)), PartsOf(v, parent);
            |items| == |parts| && forall i :: 0 <= i < |parts| ==> ItemRead(rules, parts[i], items[i])
    decreases v, 1
  {
    match v
    case VText(value) =>
      var s := Seen(value, parent);
      if s != "" { ItemsOfOne(TextNode(s)); }
    case VFragment(children) => AllRead(rules, children, parent);
    case VElement(tag, attrs, props, styles, children) =>
      ElementRenders(rules, v);
      if tag !in VOID_TAGS { AllRead(rules, children, tag); }
      if tag !in VOID_TAGS { JoinedRead(rules, children, tag); }
      AttributesAreRead(rules, tag, attrs, props, styles);
      hide *;
      ElementItem(rules, v, parent);
  }

  lemma ElementItem(rules: Rules, v: VNode, parent: string)
    requires v.VElement? && AllAttributes(rules, v.tag, v.attrs, v.props, v.styles).Ok? && StyleText(rules, v.styles).Ok?
    requires AttrsRead(v.tag, v.attrs, v.props, StyleText(rules, v.styles).value, ReadBack(AllAttributes(rules, v.tag, v.attrs, v.props, v.styles).value))
    requires v.tag !in VOID_TAGS ==> ChildrenRead(rules, v.children, v.tag, JoinAll([], AllNodes(rules, v.children, v.tag)))
    ensures var items, parts := Items(Nodes(rules, v, parent)), PartsOf(v, parent);
            |items| == |parts| && forall i :: 0 <= i < |parts| ==> ItemRead(rules, parts[i], items[i])
  {
    hide Items, AllAttributes, AttrsRead, Merged, JoinAll, ReadBack, AllNodes, ChildrenRead, StyleText;
    var node := Nodes(rules, v, parent)[0];
    ItemsOfOne(node);
    assert ElementRead(rules, v, node);
  }

  lemma JoinedRead(rules: Rules, vs: seq<VNode>, parent: string)
    requires var items, parts := Items(AllNodes(rules, vs, parent)), Parts(vs, parent);
             |items| == |parts| && forall i :: 0 <= i < |parts| ==> ItemRead(rules, parts[i], items[i])
    ensures ChildrenRead(rules, vs, parent, JoinAll([], AllNodes(rules, vs, parent)))
  {
    AllNodesNotEmpty(rules, vs, parent);
    JoinAllMerges([], AllNodes(rules, vs, parent));
    JoinAllItems([], AllNodes(rules, vs, parent));
    hide AllNodes, JoinAll, Parts, ElementRead;
  }

  lemma ElementRenders(rules: Rules, v: VNode)
    requires Readable(v) && RenderNode(rules, v, None, Html).Ok? && v.VElement?
    ensures AllAttributes(rules, v.tag, v.attrs, v.props, v.styles).Ok?
    ensures v.tag !in VOID_TAGS ==> RenderAll(rules, v.children, None, Html).Ok?
  {
    hide AllAttributes, RenderAll, PrintEntries, ValidTag, TextareaProblem;
  }

  lemma {:induction false} AllRead(rules: Rules, vs: seq<VNode>, parent: string)
    requires (forall i :: 0 <= i < |vs| ==> Readable(vs[i]) && AttributesDistinct(vs[i])) && RenderAll(rules, vs, None, Html).Ok?
    ensures var items, parts := Items(AllNodes(rules, vs, parent)), Parts(vs, parent);
            |items| == |parts| && forall i :: 0 <= i < |parts| ==> ItemRead(rules, parts[i], items[i])
    decreases vs, 0
  {
    if vs != [] {
      NodeRead(rules, vs[0], parent);
      AllRead(rules, vs[1..], parent);
      ItemsConcat(Nodes(rules, vs[0], parent), AllNodes(rules, vs[1..], parent));
    }
  }

  /** What is read of the markup is what the description asks for, and nothing else. */
  lemma RenderedMeaning(rules: Rules, v: VNode)
    requires Readable(v) && AttributesDistinct(v) && RenderNode(rules, v, None, Html).Ok?
    ensures ChildrenRead(rules, [v], "", Read(RenderNode(rules, v, None, Html).value))
  {
    RenderedIsRead(rules, v);
    NodeRead(rules, v, "");
    var nodes := Nodes(rules, v, "");
    NodesNotEmpty(rules, v, "");
    JoinAllMerges([], nodes);
    JoinAllItems([], nodes);
    assert Parts([v], "") == PartsOf(v, "") by { assert [v][1..] == []; }
    hide RenderNode, Read, Nodes, JoinAll, PartsOf, ElementRead;
  }

  // ---------------------------------------------------------------- what is rendered at all

  /** Tags are of lower-case letters, digits, hyphens and colons, and start with a letter. */
  lemma ValidTagIff(tag: string)
    ensures ValidTag(tag) <==>
              && tag != "" && 97 <= tag[0] as int <= 122
              && forall i :: 0 <= i < |tag| ==> 97 <= tag[i] as int <= 122 || 48 <= tag[i] as int <= 57 || tag[i] as int == 45 || tag[i] as int == 58
  {
  }

  /** Names of attributes have no capitals, spaces, quotes, slashes, equals signs, closing brackets or
      control characters. */
  lemma ValidAttributeIff(name: string)
    ensures ValidAttribute(name) <==> name != "" && forall i :: 0 <= i < |name| ==>
              && !(65 <= name[i] as int <= 90) && name[i] as int > 0x20
              && name[i] as int !in {0x22, 0x27, 0x2f, 0x3d, 0x3e, 0x7f, 0xa0, 0x1680, 0x2028, 0x2029, 0x202f, 0x205f, 0x3000, 0xfeff}
              && !(0x2000 <= name[i] as int <= 0x200a)
  {
  }

  /** Elements stay in the SVG namespace below `svg`, except below the points where HTML starts again. */
  lemma Namespaces(rules: Rules, tag: string, namespace: Namespace)
    ensures ElementNamespace(tag, namespace) == Svg <==> tag == "svg" || namespace == Svg
    ensures ChildNamespace(rules, tag, namespace) == Svg <==> namespace == Svg && !rules.svgHtmlPoint(tag)
  {
  }

  /** The text of a textarea is that of its children, in order; there may be no element among them. */
  lemma {:induction false} TextareaTextMeaning(a: seq<VNode>, v: VNode)
    ensures TextareaText(a + [v]).Ok? <==> TextareaText(a).Ok? && !v.VElement? && (v.VFragment? ==> TextareaText(v.children).Ok?)
    ensures TextareaText(a + [v]).Ok? ==>
              TextareaText(a + [v]).value == TextareaText(a).value + if v.VText? then v.value else if v.VFragment? then TextareaText(v.children).value else ""
  {
    var all := a + [v];
    if a == [] {
      assert all == [v] && all[1..] == [];
    } else {
      assert all[0] == a[0] && all[1..] == a[1..] + [v];
      TextareaTextMeaning(a[1..], v);
    }
  }

  /** A textarea with a value has that text, whichever way it is split into children. */
  lemma TextareaIff(tag: string, props: seq<Entry>, children: seq<VNode>)
    ensures TextareaProblem(tag, props, children).None? <==>
              (tag == "textarea" && (exists i :: 0 <= i < |props| && props[i].key == "value") ==>
                 && TextareaText(children).Ok?
                 && exists i :: 0 <= i < |props| && props[i] == Entry("value", Text(TextareaText(children).value)) && forall j :: 0 <= j < i ==> props[j].key != "value")
  {
    FirstValue(props);
  }

  lemma {:induction false} FirstValue(props: seq<Entry>)
    ensures ValueProp(props).None? <==> forall i :: 0 <= i < |props| ==> props[i].key != "value"
    ensures ValueProp(props).Some? ==>
              exists i :: 0 <= i < |props| && props[i] == Entry("value", ValueProp(props).value) && forall j :: 0 <= j < i ==> props[j].key != "value"
  {
    if props != [] && props[0].key != "value" {
      FirstValue(props[1..]);
      if ValueProp(props).Some? {
        var i :| 0 <= i < |props[1..]| && props[1..][i] == Entry("value", ValueProp(props).value) && forall j :: 0 <= j < i ==> props[1..][j].key != "value";
        assert props[i + 1] == props[1..][i];
        assert forall j :: 1 <= j < i + 1 ==> props[j] == props[1..][j - 1];
      } else {
        assert forall i :: 1 <= i < |props| ==> props[i] == props[1..][i - 1];
      }
    } else if props != [] {
      assert props[0] == Entry("value", ValueProp(props).value);
    }
  }

  /** The end tag of a raw text element stands in the text, in whatever case. */
  ghost predicate HasEndTag(value: string, tag: string) {
    exists i :: EndTagAt(value, tag, i)
  }

  ghost predicate EndTagAt(value: string, tag: string, i: nat) {
    && i + 2 + |tag| <= |value| && value[i] == '<' && value[i + 1] == '/'
    && forall j :: 0 <= j < |tag| ==> value[i + 2 + j] == tag[j] || (65 <= value[i + 2 + j] as int <= 90 && value[i + 2 + j] as int + 32 == tag[j] as int)
  }

  /** The text of a script or style is rendered as it is, if it has no U+0000, no carriage return and
      no end tag in it. */
  lemma RawTextIff(value: string, tag: string)
    requires forall j :: 0 <= j < |tag| ==> !(65 <= tag[j] as int <= 90)
    ensures RenderRawText(value, tag) == Ok(value) <==> (forall i :: 0 <= i < |value| ==> value[i] != '\0' && value[i] != '\r') && !HasEndTag(value, tag)
    ensures RenderRawText(value, tag).Ok? ==> RenderRawText(value, tag).value == value
  {
    var p := "</" + tag;
    var lower := Lower(value);
    forall i: nat ensures EndTagAt(value, tag, i) <==> i <= |lower| && StartsWith(lower[i..], p) {
      if i + |p| <= |lower| { EndTagLower(value, tag, i); }
    }
    hide EndTagAt, StartsWith, Lower;
  }

  lemma EndTagLower(value: string, tag: string, i: nat)
    requires i + 2 + |tag| <= |value| && forall j :: 0 <= j < |tag| ==> !(65 <= tag[j] as int <= 90)
    ensures EndTagAt(value, tag, i) <==> StartsWith(Lower(value)[i..], "</" + tag)
  {
    var p, s := "</" + tag, Lower(value)[i..];
    assert |s[..|p|]| == |p| && forall k :: 0 <= k < |p| ==> s[..|p|][k] == LowerChar(value[i + k]);
    assert forall k :: 0 <= k < |p| ==> p[k] == if k == 0 then '<' else if k == 1 then '/' else tag[k - 2];
    if StartsWith(s, p) {
      assert s[..|p|][0] == '<' && s[..|p|][1] == '/';
      forall j | 0 <= j < |tag| ensures LowerChar(value[i + 2 + j]) == tag[j] { assert s[..|p|][j + 2] == p[j + 2]; }
    }
    if EndTagAt(value, tag, i) {
      forall k | 0 <= k < |p| ensures s[..|p|][k] == p[k] {
        if k >= 2 { assert value[i + 2 + (k - 2)] == value[i + k]; }
      }
    }
  }

  /** Which descriptions are rendered: tags, attributes that show, properties and styles are valid, a
      textarea's value is its text, and scripts and styles hold text without their end tags. */
  ghost predicate Renders(rules: Rules, v: VNode, rawText: Option<string>, parent: Namespace) {
    match v
    case VText(value) => rawText.Some? ==> (forall i :: 0 <= i < |value| ==> value[i] != '\0' && value[i] != '\r') && !HasEndTag(value, rawText.value)
    case VFragment(children) => forall i :: 0 <= i < |children| ==> Renders(rules, children[i], rawText, parent)
    case VElement(tag, attrs, props, styles, children) =>
      var svg := tag == "svg" || parent == Svg;
      && rawText.None?
      && (if svg then rules.svgTag(tag) else ValidTag(tag) && TextareaProblem(tag, props, children).None?)
      && AttributesRender(rules, svg, tag, attrs, props, styles)
      && (svg || tag !in VOID_TAGS ==>
            forall i :: 0 <= i < |children| ==>
              Renders(rules, children[i], if !svg && (tag == "script" || tag == "style") then Some(tag) else None, if svg && !rules.svgHtmlPoint(tag) then Svg else Html))
  }

  ghost predicate AttributesRender(rules: Rules, svg: bool, tag: string, attrs: seq<Entry>, props: seq<Entry>, styles: seq<Style>) {
    && (forall i :: 0 <= i < |props| ==> rules.property(tag, props[i].key, props[i].value))
    && (forall i :: 0 <= i < |styles| ==> rules.style(styles[i].key, styles[i].value))
    && forall n, value :: StyleText(rules, styles).Ok? && Governs(tag, attrs, props, StyleText(rules, styles).value, n, value) && n != "key" && (value == Flag(true) || value.Text?) ==>
         if svg then rules.svgAttribute(n) else ValidAttribute(n)
  }

  lemma {:induction false} PropsRender(rules: Rules, tag: string, attrs: seq<Entry>, props: seq<Entry>)
    ensures WithProps(rules, tag, attrs, props).Ok? <==> forall i :: 0 <= i < |props| ==> rules.property(tag, props[i].key, props[i].value)
    decreases |props|
  {
    if props != [] {
      PropsRender(rules, tag, if tag == "textarea" && props[0].key == "value" then attrs else Assign(attrs, props[0].key, props[0].value), props[1..]);
      assert props == [props[0]] + props[1..];
    }
  }

  lemma {:induction false} StylesRender(rules: Rules, styles: seq<Style>)
    ensures StyleText(rules, styles).Ok? <==> forall i :: 0 <= i < |styles| ==> rules.style(styles[i].key, styles[i].value)
  {
    if styles != [] {
      StylesRender(rules, styles[1..]);
      assert styles == [styles[0]] + styles[1..];
    }
  }

  lemma {:induction false} EntriesRender(rules: Rules, entries: seq<Entry>, namespace: Namespace)
    ensures PrintEntries(rules, entries, namespace).Ok? <==>
              forall e :: e in entries && e.key != "key" && (e.value == Flag(true) || e.value.Text?) ==> if namespace.Svg? then rules.svgAttribute(e.key) else ValidAttribute(e.key)
  {
    hide ValidAttribute, EscapeAttribute;
    if entries != [] {
      EntriesRender(rules, entries[1..], namespace);
      assert entries == [entries[0]] + entries[1..];
    }
  }

  lemma AttributesRenderIff(rules: Rules, svg: bool, tag: string, attrs: seq<Entry>, props: seq<Entry>, styles: seq<Style>)
    requires DistinctKeys(attrs)
    ensures RenderAttrs(rules, tag, attrs, props, styles, if svg then Svg else Html).Ok? <==> AttributesRender(rules, svg, tag, attrs, props, styles)
  {
    PropsRender(rules, tag, attrs, props);
    StylesRender(rules, styles);
    var all := AllAttributes(rules, tag, attrs, props, styles);
    if all.Ok? {
      EntriesRender(rules, all.value, if svg then Svg else Html);
      forall n, value ensures Entry(n, value) in all.value <==> Governs(tag, attrs, props, StyleText(rules, styles).value, n, value) {
        EntriesGovern(rules, tag, attrs, props, styles, n, value);
      }
      hide Governs, AllAttributes, PrintEntries, ValidAttribute, WithProps, StyleText;
      forall e: Entry ensures e in all.value <==> Governs(tag, attrs, props, StyleText(rules, styles).value, e.key, e.value) { assert e == Entry(e.key, e.value); }
    }
  }

  lemma {:induction false} RendersIff(rules: Rules, v: VNode, rawText: Option<string>, parent: Namespace)
    requires AttributesDistinct(v) && (rawText.Some? ==> rawText.value in {"script", "style"})
    ensures RenderNode(rules, v, rawText, parent).Ok? <==> Renders(rules, v, rawText, parent)
    decreases v, 1
  {
    match v
    case VText(value) =>
      if rawText.Some? { RawTextIff(value, rawText.value); }
    case VFragment(children) => AllRenderIff(rules, children, rawText, parent);
    case VElement(tag, attrs, props, styles, children) =>
      if rawText.None? { ElementRendersIff(rules, v, parent); }
  }

  lemma {:induction false} ElementRendersIff(rules: Rules, v: VNode, parent: Namespace)
    requires AttributesDistinct(v) && v.VElement?
    ensures RenderNode(rules, v, None, parent).Ok? <==> Renders(rules, v, None, parent)
    decreases v, 0
  {
    var svg := v.tag == "svg" || parent == Svg;
    AttributesRenderIff(rules, svg, v.tag, v.attrs, v.props, v.styles);
    AllRenderIff(rules, v.children, if !svg && (v.tag == "script" || v.tag == "style") then Some(v.tag) else None, if svg && !rules.svgHtmlPoint(v.tag) then Svg else Html);
    hide AttributesRender, RenderAttrs, RenderAll, ValidTag, TextareaProblem;
  }

  lemma {:induction false} AllRenderIff(rules: Rules, vs: seq<VNode>, rawText: Option<string>, parent: Namespace)
    requires (forall i :: 0 <= i < |vs| ==> AttributesDistinct(vs[i])) && (rawText.Some? ==> rawText.value in {"script", "style"})
    ensures RenderAll(rules, vs, rawText, parent).Ok? <==> forall i :: 0 <= i < |vs| ==> Renders(rules, vs[i], rawText, parent)
    decreases vs, 0
  {
    if vs != [] {
      RendersIff(rules, vs[0], rawText, parent);
      AllRenderIff(rules, vs[1..], rawText, parent);
      assert vs == [vs[0]] + vs[1..];
      hide Renders, RenderNode;
    }
  }
}
