/** The markup of the server shows what the browser builds from the same description: the same
    characters and elements in the same order with the same attributes, exactly under a condition
    on the description. */
module ServerAndBrowser {
  import opened Options
  import opened HtmlReader
  import S = ServerHtml
  import M = ServerMeaning
  import P = PatchModel
  import B = PatchMeaning
  import F = Fragments
  import R = FrameRenderer

  // ---------------------------------------------------------------- one description, two forms

  function ValueOf(v: S.AttrValue): P.AttrValue {
    match v
    case Absent => P.Absent
    case Flag(on) => P.Flag(on)
    case Text(text) => P.Text(text)
  }

  function AttrsOf(entries: seq<S.Entry>): P.Attrs {
    if entries == [] then map[] else AttrsOf(entries[1..])[entries[0].key := ValueOf(entries[0].value)]
  }

  const DISABLEABLE_TAGS := {"button", "fieldset", "input", "optgroup", "option", "select", "textarea"}

  /** The properties that the markup holds as attributes. */
  predicate AsAttribute(tag: string, property: string) {
    (property == "value" && tag == "input") || (property == "checked" && tag == "input") || (property == "disabled" && tag in DISABLEABLE_TAGS)
  }

  /** What a property makes of the attributes that the browser sets. */
  function WithProp(tag: string, attrs: P.Attrs, prop: S.Entry): P.Attrs {
    var name := if prop.key == "className" then "class" else prop.key;
    if !AsAttribute(tag, prop.key) || prop.value.Absent? || prop.value == S.Flag(false) then attrs - {name} else attrs[name := ValueOf(prop.value)]
  }

  /** The attributes that the browser sets. */
  function Effective(tag: string, attrs: P.Attrs, props: seq<S.Entry>): P.Attrs
    decreases |props|
  {
    if props == [] then attrs else Effective(tag, WithProp(tag, attrs, props[0]), props[1..])
  }

  /** The server accepts properties only if the markup can hold them. */
  ghost predicate Stable(rules: S.Rules) {
    forall tag, key, value {:trigger rules.property(tag, key, value)} :: rules.property(tag, key, value) ==>
      AsAttribute(tag, key) || (tag == "textarea" && key == "value" && value.Text?)
  }

  /** `v` is what the server gets and `raw` what the browser gets of one description without styles;
      keys and listeners do not matter to the server. */
  ghost predicate Describes(v: S.VNode, raw: F.Raw) {
    match v
    case VText(value) => raw.RawText? && raw.value == value
    case VFragment(children) => raw.RawFragment? && |raw.children| == |children| && forall i :: 0 <= i < |children| ==> Describes(children[i], raw.children[i])
    case VElement(tag, attrs, props, styles, children) =>
      && raw.RawElement? && raw.tag == tag && styles == []
      && M.DistinctKeys(attrs) && raw.attrs == Effective(tag, AttrsOf(attrs), props)
      && |raw.children| == |children| && forall i :: 0 <= i < |children| ==> Describes(children[i], raw.children[i])
  }

  // ---------------------------------------------------------------- what is the same

  datatype Shown = ShownChar(c: char) | ShownElement(t: P.Tree)

  function ShownChars(s: string): (r: seq<Shown>)
    ensures |r| == |s|
  {
    seq(|s|, i requires 0 <= i < |s| => ShownChar(s[i]))
  }

  /** What stands among the children of a DOM element. */
  function ShownOf(ts: seq<P.Tree>): (r: seq<Shown>)
    ensures forall i :: 0 <= i < |r| && r[i].ShownElement? ==> r[i].t.TreeElement? && r[i].t in ts
  {
    if ts == [] then [] else (if ts[0].TreeText? then ShownChars(ts[0].value) else [ShownElement(ts[0])]) + ShownOf(ts[1..])
  }

  ghost predicate SameAttrs(read: seq<Attr>, attrs: map<string, string>) {
    forall n, x :: Attr(n, x) in read <==> B.Has(attrs, n, x)
  }

  /** The same characters and elements in the same order. A reader has no empty text and no text next
      to text, while the browser builds a node for every text. */
  ghost predicate Shows(nodes: seq<Node>, ts: seq<P.Tree>)
    decreases ts, 1
  {
    var items, shown := M.Items(nodes), ShownOf(ts);
    && Merged(nodes) && |items| == |shown|
    && forall i :: 0 <= i < |shown| ==>
         match shown[i]
         case ShownChar(c) => items[i] == M.Ch(c)
         case ShownElement(t) => items[i].El? && ElementShows(items[i].node, t)
  }

  ghost predicate ElementShows(node: Node, t: P.Tree)
    requires t.TreeElement?
    decreases t, 0
  {
    node.Element? && node.tag == t.tag && SameAttrs(node.attrs, t.attrs) && Shows(node.children, t.children)
  }

  ghost predicate ItemShows(item: M.Item, shown: Shown)
    requires shown.ShownElement? ==> shown.t.TreeElement?
  {
    match shown
    case ShownChar(c) => item == M.Ch(c)
    case ShownElement(t) => item.El? && ElementShows(item.node, t)
  }

  ghost predicate ItemsShow(items: seq<M.Item>, shown: seq<Shown>)
    requires forall i :: 0 <= i < |shown| && shown[i].ShownElement? ==> shown[i].t.TreeElement?
  {
    |items| == |shown| && forall i :: 0 <= i < |shown| ==> ItemShows(items[i], shown[i])
  }

  // ---------------------------------------------------------------- when it is the same

  /** Nothing is shown of a description. */
  predicate ShowsNothing(v: S.VNode) {
    match v
    case VText(value) => value == ""
    case VFragment(children) => forall i :: 0 <= i < |children| ==> ShowsNothing(children[i])
    case VElement(_, _, _, _, _) => false
  }

  /** No attribute that is set holds U+0000, and no textarea has both a value and an attribute of that name. */
  predicate AttrsAlike(tag: string, attrs: seq<S.Entry>, props: seq<S.Entry>) {
    var described := Effective(tag, AttrsOf(attrs), props);
    && (forall k :: k in described && k != "key" && described[k].Text? ==> '\0' !in described[k].text)
    && !(tag == "textarea" && (exists i :: 0 <= i < |props| && props[i].key == "value")
         && exists i :: 0 <= i < |attrs| && attrs[i].key == "value" && (attrs[i].value == S.Flag(true) || attrs[i].value.Text?))
  }

  /** No text holds U+0000, the attributes are alike, and nothing is described in a void element. */
  predicate Alike(v: S.VNode) {
    match v
    case VText(value) => '\0' !in value
    case VFragment(children) => forall i :: 0 <= i < |children| ==> Alike(children[i])
    case VElement(tag, attrs, props, _, children) =>
      && AttrsAlike(tag, attrs, props)
      && if tag in VOID_TAGS then forall i :: 0 <= i < |children| ==> ShowsNothing(children[i])
         else forall i :: 0 <= i < |children| ==> Alike(children[i])
  }

  // Attributes.

  predicate Plain(w: S.AttrValue, x: string) {
    w == S.Text(x) || (w == S.Flag(true) && x == "")
  }

  ghost predicate InRecord(record: seq<S.Entry>, n: string, x: string) {
    exists w :: S.Entry(n, w) in record && Plain(w, x)
  }

  predicate InAttrs(attrs: P.Attrs, n: string, x: string) {
    n in attrs && (attrs[n] == P.Text(x) || (attrs[n] == P.Flag(true) && x == ""))
  }

  lemma {:induction false} InBoth(entries: seq<S.Entry>, n: string, x: string)
    requires M.DistinctKeys(entries)
    ensures n in AttrsOf(entries) ==> exists i :: 0 <= i < |entries| && entries[i].key == n
    ensures InRecord(entries, n, x) <==> InAttrs(AttrsOf(entries), n, x)
  {
    if entries != [] {
      var e, rest := entries[0], entries[1..];
      InBoth(rest, n, x);
      assert entries == [e] + rest;
      if n in AttrsOf(rest) {
        var i :| 0 <= i < |rest| && rest[i].key == n;
        assert entries[i + 1].key == n;
      }
      if e.key == n {
        assert forall w :: S.Entry(n, w) !in rest;
        assert Plain(e.value, x) ==> S.Entry(n, e.value) in entries && Plain(e.value, x);
        assert InRecord(entries, n, x) <==> Plain(e.value, x);
      } else {
        assert forall w :: S.Entry(n, w) in entries <==> S.Entry(n, w) in rest;
        assert InRecord(entries, n, x) <==> InRecord(rest, n, x);
      }
    }
  }

  /** Properties change the record of the server and the attributes of the browser alike. */
  lemma {:induction false} PropsAlike(rules: S.Rules, tag: string, record: seq<S.Entry>, attrs: P.Attrs, props: seq<S.Entry>, n: string, x: string)
    requires Stable(rules) && M.DistinctKeys(record) && S.WithProps(rules, tag, record, props).Ok?
    requires !(tag == "textarea" && n == "value") && (InRecord(record, n, x) <==> InAttrs(attrs, n, x))
    ensures InRecord(S.WithProps(rules, tag, record, props).value, n, x) <==> InAttrs(Effective(tag, attrs, props), n, x)
    decreases |props|
  {
    if props != [] {
      var p := props[0];
      assert rules.property(tag, p.key, p.value);
      var next := if tag == "textarea" && p.key == "value" then record else S.Assign(record, p.key, p.value);
      M.AssignedEntries(record, p.key, p.value);
      PropAlike(tag, record, next, attrs, p, n, x);
      PropsAlike(rules, tag, next, WithProp(tag, attrs, p), props[1..], n, x);
    }
  }

  lemma PropAlike(tag: string, record: seq<S.Entry>, next: seq<S.Entry>, attrs: P.Attrs, p: S.Entry, n: string, x: string)
    requires AsAttribute(tag, p.key) || (tag == "textarea" && p.key == "value" && p.value.Text?)
    requires !(tag == "textarea" && n == "value") && (InRecord(record, n, x) <==> InAttrs(attrs, n, x))
    requires if tag == "textarea" && p.key == "value" then next == record else forall e :: e in next <==> e == p || (e in record && e.key != p.key)
    ensures InRecord(next, n, x) <==> InAttrs(WithProp(tag, attrs, p), n, x)
  {
    if tag == "textarea" && p.key == "value" {
    } else if p.key == n {
      assert forall w :: S.Entry(n, w) in next <==> w == p.value;
      assert InRecord(next, n, x) <==> Plain(p.value, x);
    } else {
      assert forall w :: S.Entry(n, w) in next <==> S.Entry(n, w) in record;
      assert InRecord(next, n, x) <==> InRecord(record, n, x);
    }
  }

  /** The value of a textarea is no attribute to the browser, and no change of the record to the server. */
  lemma {:induction false} TextareaValue(rules: S.Rules, record: seq<S.Entry>, attrs: P.Attrs, props: seq<S.Entry>)
    requires M.DistinctKeys(record) && S.WithProps(rules, "textarea", record, props).Ok?
    ensures forall w :: S.Entry("value", w) in S.WithProps(rules, "textarea", record, props).value <==> S.Entry("value", w) in record
    ensures var e := Effective("textarea", attrs, props);
            if exists i :: 0 <= i < |props| && props[i].key == "value" then "value" !in e
            else ("value" in e <==> "value" in attrs) && ("value" in e ==> e["value"] == attrs["value"])
    decreases |props|
  {
    if props != [] {
      var p, rest := props[0], props[1..];
      M.AssignedEntries(record, p.key, p.value);
      TextareaValue(rules, if p.key == "value" then record else S.Assign(record, p.key, p.value), WithProp("textarea", attrs, p), rest);
      assert props == [p] + rest;
      if i :| 0 <= i < |rest| && rest[i].key == "value" { assert props[i + 1].key == "value"; }
      if i :| 0 <= i < |props| && props[i].key == "value" && i > 0 { assert rest[i - 1].key == "value"; }
    }
  }

  lemma ReadsPlain(read: seq<Attr>, record: seq<S.Entry>, n: string, x: string)
    requires read == S.ReadBack(record) && forall w :: S.Entry(n, w) in record && n != "key" && w.Text? ==> '\0' !in w.text
    ensures Attr(n, x) in read <==> n != "key" && InRecord(record, n, x)
  {
    M.InReadBack(record, n, x);
    assert forall w :: S.Entry(n, w) in record ==> (M.ReadsAs(n, w, x) <==> n != "key" && Plain(w, x));
  }

  lemma RenderedShows(attrs: P.Attrs, n: string, x: string)
    ensures B.Has(P.Rendered(attrs), n, x) <==> n != "key" && InAttrs(attrs, n, x)
  {
    B.RenderedIff(P.Rendered(attrs), attrs);
  }

  /** What is in the record is what is in the browser's attributes, but for the value of a textarea. */
  lemma RecordShows(rules: S.Rules, tag: string, attrs: seq<S.Entry>, props: seq<S.Entry>, n: string, x: string)
    requires Stable(rules) && M.DistinctKeys(attrs) && S.WithProps(rules, tag, attrs, props).Ok?
    ensures var e := Effective(tag, AttrsOf(attrs), props);
            InRecord(S.WithProps(rules, tag, attrs, props).value, n, x) <==>
              if tag == "textarea" && n == "value" && (exists i :: 0 <= i < |props| && props[i].key == "value") then InRecord(attrs, n, x) else InAttrs(e, n, x)
    ensures tag == "textarea" && n == "value" && (exists i :: 0 <= i < |props| && props[i].key == "value") ==> !InAttrs(Effective(tag, AttrsOf(attrs), props), n, x)
  {
    InBoth(attrs, n, x);
    if tag == "textarea" && n == "value" {
      TextareaValue(rules, attrs, AttrsOf(attrs), props);
    } else {
      PropsAlike(rules, tag, attrs, AttrsOf(attrs), props, n, x);
    }
    hide S.WithProps, Effective, AttrsOf;
  }

  lemma AttrsIff(rules: S.Rules, tag: string, attrs: seq<S.Entry>, props: seq<S.Entry>)
    requires Stable(rules) && M.DistinctKeys(attrs) && S.WithProps(rules, tag, attrs, props).Ok?
    ensures SameAttrs(S.ReadBack(S.WithProps(rules, tag, attrs, props).value), P.Rendered(Effective(tag, AttrsOf(attrs), props))) <==> AttrsAlike(tag, attrs, props)
  {
    if AttrsAlike(tag, attrs, props) {
      AttrsSame(rules, tag, attrs, props);
    } else if SameAttrs(S.ReadBack(S.WithProps(rules, tag, attrs, props).value), P.Rendered(Effective(tag, AttrsOf(attrs), props))) {
      AttrsDiffer(rules, tag, attrs, props);
    }
  }

  lemma AttrsSame(rules: S.Rules, tag: string, attrs: seq<S.Entry>, props: seq<S.Entry>)
    requires Stable(rules) && M.DistinctKeys(attrs) && S.WithProps(rules, tag, attrs, props).Ok? && AttrsAlike(tag, attrs, props)
    ensures SameAttrs(S.ReadBack(S.WithProps(rules, tag, attrs, props).value), P.Rendered(Effective(tag, AttrsOf(attrs), props)))
  {
    var record, e := S.WithProps(rules, tag, attrs, props).value, Effective(tag, AttrsOf(attrs), props);
    forall n, x ensures Attr(n, x) in S.ReadBack(record) <==> B.Has(P.Rendered(e), n, x) {
      RenderedShows(e, n, x);
      forall y ensures InRecord(record, n, y) <==> InAttrs(e, n, y) {
        RecordShows(rules, tag, attrs, props, n, y);
        hide S.WithProps, Effective, AttrsOf;
        if tag == "textarea" && n == "value" && InRecord(attrs, n, y) {
          var w :| S.Entry(n, w) in attrs && Plain(w, y);
          var i :| 0 <= i < |attrs| && attrs[i] == S.Entry(n, w);
          assert attrs[i].key == "value";
        }
      }
      hide S.WithProps, Effective, AttrsOf, S.ReadBack, P.Rendered;
      forall w | S.Entry(n, w) in record && n != "key" && w.Text? ensures '\0' !in w.text {
        assert Plain(w, w.text) && InRecord(record, n, w.text);
      }
      ReadsPlain(S.ReadBack(record), record, n, x);
    }
  }

  lemma AttrsDiffer(rules: S.Rules, tag: string, attrs: seq<S.Entry>, props: seq<S.Entry>)
    requires Stable(rules) && M.DistinctKeys(attrs) && S.WithProps(rules, tag, attrs, props).Ok? && !AttrsAlike(tag, attrs, props)
    ensures !SameAttrs(S.ReadBack(S.WithProps(rules, tag, attrs, props).value), P.Rendered(Effective(tag, AttrsOf(attrs), props)))
  {
    var record, e := S.WithProps(rules, tag, attrs, props).value, Effective(tag, AttrsOf(attrs), props);
    var read := S.ReadBack(record);
    S.ReadBackIsGiven(record);
    if k :| k in e && k != "key" && e[k].Text? && '\0' in e[k].text {
      RenderedShows(e, k, e[k].text);
      assert B.Has(P.Rendered(e), k, e[k].text);
      assert Attr(k, e[k].text) !in read;
    } else {
      var i :| 0 <= i < |attrs| && attrs[i].key == "value" && (attrs[i].value == S.Flag(true) || attrs[i].value.Text?);
      var w := attrs[i].value;
      var y := if w.Text? then w.text else "";
      assert attrs[i] == S.Entry("value", w) && Plain(w, y) && InRecord(attrs, "value", y);
      RecordShows(rules, tag, attrs, props, "value", y);
      var u :| S.Entry("value", u) in record && Plain(u, y);
      var x := if u.Text? then Filled(u.text) else "";
      assert M.ReadsAs("value", u, x);
      M.InReadBack(record, "value", x);
      RecordShows(rules, tag, attrs, props, "value", x);
      RenderedShows(e, "value", x);
    }
  }

  // Children.

  lemma {:induction false} ShownConcat(a: seq<P.Tree>, b: seq<P.Tree>)
    ensures ShownOf(a + b) == ShownOf(a) + ShownOf(b)
  {
    if a == [] {
      assert a + b == b;
    } else {
      assert (a + b)[0] == a[0] && (a + b)[1..] == a[1..] + b;
      ShownConcat(a[1..], b);
    }
  }

  lemma ShownOfOne(t: P.Tree)
    ensures ShownOf([t]) == if t.TreeText? then ShownChars(t.value) else [ShownElement(t)]
  {
    assert [t][1..] == [];
  }

  lemma {:induction false} SeenLength(s: string, tag: string)
    ensures |Seen(s, tag)| <= |s| && (Seen(s, tag) == s <==> '\0' !in s)
  {
    if s != "" {
      SeenLength(s[1..], tag);
      SeenFirst(s, tag);
      assert s == [s[0]] + s[1..];
      assert [s[0]][1..] == "";
    }
  }

  lemma TextIff(value: string, parent: string)
    ensures var items, shown := M.Items(TextNodes(Seen(value, parent))), ShownOf([P.TreeText(value)]);
            |items| <= |shown| && (ItemsShow(items, shown) <==> '\0' !in value)
  {
    var s := Seen(value, parent);
    SeenLength(value, parent);
    ShownOfOne(P.TreeText(value));
    if s != "" { M.ItemsOfOne(TextNode(s)); }
    var items, shown := M.Items(TextNodes(s)), ShownOf([P.TreeText(value)]);
    assert items == M.CharItems(s);
    hide Seen, M.Items, ShownOf;
    if ItemsShow(items, shown) {
      forall i | 0 <= i < |s| ensures s[i] == value[i] { assert ItemShows(items[i], shown[i]); }
      assert s == value;
    }
  }

  lemma BothShow(a: seq<M.Item>, b: seq<M.Item>, c: seq<Shown>, d: seq<Shown>)
    requires |a| <= |c| && |b| <= |d| && forall i :: 0 <= i < |c + d| && (c + d)[i].ShownElement? ==> (c + d)[i].t.TreeElement?
    requires forall i :: 0 <= i < |c| && c[i].ShownElement? ==> c[i].t.TreeElement?
    requires forall i :: 0 <= i < |d| && d[i].ShownElement? ==> d[i].t.TreeElement?
    ensures ItemsShow(a + b, c + d) <==> ItemsShow(a, c) && ItemsShow(b, d)
  {
    hide ItemShows;
    if ItemsShow(a + b, c + d) {
      forall i | 0 <= i < |c| ensures ItemShows(a[i], c[i]) { assert ItemShows((a + b)[i], (c + d)[i]); }
      forall i | 0 <= i < |d| ensures ItemShows(b[i], d[i]) { assert ItemShows((a + b)[|a| + i], (c + d)[|c| + i]); }
    }
  }

  lemma {:induction false} NothingShown(vs: seq<S.VNode>, raws: seq<F.Raw>)
    requires |raws| == |vs| && forall i :: 0 <= i < |vs| ==> Describes(vs[i], raws[i])
    ensures ShownOf(F.AllBuilt(raws)) == [] <==> forall i :: 0 <= i < |vs| ==> ShowsNothing(vs[i])
    decreases vs
  {
    if vs != [] {
      NothingShown(vs[1..], raws[1..]);
      if vs[0].VFragment? { NothingShown(vs[0].children, raws[0].children); }
      OneNothingShown(vs[0], raws[0]);
      hide *;
      FirstNothing(vs, raws);
    }
  }

  lemma FirstNothing(vs: seq<S.VNode>, raws: seq<F.Raw>)
    requires vs != [] && |raws| == |vs|
    requires ShownOf(F.Built(raws[0])) == [] <==> ShowsNothing(vs[0])
    requires ShownOf(F.AllBuilt(raws[1..])) == [] <==> forall i :: 0 <= i < |vs[1..]| ==> ShowsNothing(vs[1..][i])
    ensures ShownOf(F.AllBuilt(raws)) == [] <==> forall i :: 0 <= i < |vs| ==> ShowsNothing(vs[i])
  {
    hide ShownOf, ShowsNothing, F.Built;
    ShownConcat(F.Built(raws[0]), F.AllBuilt(raws[1..]));
    assert F.AllBuilt(raws) == F.Built(raws[0]) + F.AllBuilt(raws[1..]);
    assert vs == [vs[0]] + vs[1..];
  }

  lemma OneNothingShown(v: S.VNode, raw: F.Raw)
    requires Describes(v, raw)
    requires v.VFragment? ==> (ShownOf(F.AllBuilt(raw.children)) == [] <==> forall i :: 0 <= i < |v.children| ==> ShowsNothing(v.children[i]))
    ensures ShownOf(F.Built(raw)) == [] <==> ShowsNothing(v)
  {
    match v
    case VText(value) => ShownOfOne(P.TreeText(value));
    case VFragment(_) =>
    case VElement(_, _, _, _, _) => ShownOfOne(F.Built(raw)[0]);
  }

  lemma {:induction false} NodeIff(rules: S.Rules, v: S.VNode, raw: F.Raw, parent: string)
    requires Stable(rules) && S.Readable(v) && S.RenderNode(rules, v, None, S.Html).Ok? && Describes(v, raw)
    ensures var items, shown := M.Items(S.Nodes(rules, v, parent)), ShownOf(F.Built(raw));
            |items| <= |shown| && (ItemsShow(items, shown) <==> Alike(v))
    decreases v, 1
  {
    match v
    case VText(value) => TextIff(value, parent);
    case VFragment(children) => AllIff(rules, children, raw.children, parent);
    case VElement(tag, attrs, props, styles, children) =>
      M.ElementRenders(rules, v);
      if tag !in VOID_TAGS { AllIff(rules, children, raw.children, tag); }
      ElementIff(rules, v, raw, parent);
  }

  lemma {:induction false} AllIff(rules: S.Rules, vs: seq<S.VNode>, raws: seq<F.Raw>, parent: string)
    requires Stable(rules) && (forall i :: 0 <= i < |vs| ==> S.Readable(vs[i])) && S.RenderAll(rules, vs, None, S.Html).Ok?
    requires |raws| == |vs| && forall i :: 0 <= i < |vs| ==> Describes(vs[i], raws[i])
    ensures var items, shown := M.Items(S.AllNodes(rules, vs, parent)), ShownOf(F.AllBuilt(raws));
            |items| <= |shown| && (ItemsShow(items, shown) <==> forall i :: 0 <= i < |vs| ==> Alike(vs[i]))
    decreases vs, 0
  {
    if vs != [] {
      NodeIff(rules, vs[0], raws[0], parent);
      AllIff(rules, vs[1..], raws[1..], parent);
      hide *;
      FirstShows(rules, vs, raws, parent);
    }
  }

  lemma FirstShows(rules: S.Rules, vs: seq<S.VNode>, raws: seq<F.Raw>, parent: string)
    requires vs != [] && |raws| == |vs|
    requires var items, shown := M.Items(S.Nodes(rules, vs[0], parent)), ShownOf(F.Built(raws[0]));
             |items| <= |shown| && (ItemsShow(items, shown) <==> Alike(vs[0]))
    requires var items, shown := M.Items(S.AllNodes(rules, vs[1..], parent)), ShownOf(F.AllBuilt(raws[1..]));
             |items| <= |shown| && (ItemsShow(items, shown) <==> forall i :: 0 <= i < |vs[1..]| ==> Alike(vs[1..][i]))
    ensures var items, shown := M.Items(S.AllNodes(rules, vs, parent)), ShownOf(F.AllBuilt(raws));
            |items| <= |shown| && (ItemsShow(items, shown) <==> forall i :: 0 <= i < |vs| ==> Alike(vs[i]))
  {
    hide M.Items, ShownOf, ItemsShow, Alike, S.Nodes, F.Built;
    var n, t := S.Nodes(rules, vs[0], parent), F.Built(raws[0]);
    var ns, ts := S.AllNodes(rules, vs[1..], parent), F.AllBuilt(raws[1..]);
    assert S.AllNodes(rules, vs, parent) == n + ns && F.AllBuilt(raws) == t + ts;
    M.ItemsConcat(n, ns);
    ShownConcat(t, ts);
    assert vs == [vs[0]] + vs[1..];
    BothShow(M.Items(n), M.Items(ns), ShownOf(t), ShownOf(ts));
  }

  lemma ElementIff(rules: S.Rules, v: S.VNode, raw: F.Raw, parent: string)
    requires v.VElement? && Stable(rules) && Describes(v, raw) && S.AllAttributes(rules, v.tag, v.attrs, v.props, v.styles).Ok?
    requires v.tag !in VOID_TAGS ==>
               (ItemsShow(M.Items(S.AllNodes(rules, v.children, v.tag)), ShownOf(F.AllBuilt(raw.children))) <==> forall i :: 0 <= i < |v.children| ==> Alike(v.children[i]))
    ensures var items, shown := M.Items(S.Nodes(rules, v, parent)), ShownOf(F.Built(raw));
            |items| <= |shown| && (ItemsShow(items, shown) <==> Alike(v))
  {
    var node, t := S.Nodes(rules, v, parent)[0], F.Built(raw)[0];
    assert S.AllAttributes(rules, v.tag, v.attrs, v.props, v.styles) == S.WithProps(rules, v.tag, v.attrs, v.props) by { hide S.WithProps; }
    AttrsIff(rules, v.tag, v.attrs, v.props);
    if v.tag in VOID_TAGS {
      NothingShown(v.children, raw.children);
      ShowsIff([], F.AllBuilt(raw.children));
    } else {
      JoinedShows(rules, v.children, v.tag, F.AllBuilt(raw.children));
    }
    assert M.Items([]) == [];
    hide SameAttrs, AttrsAlike, S.WithProps, S.ReadBack, S.AllAttributes, JoinAll, S.AllNodes, Shows, Describes, P.Rendered, ShowsNothing, F.AllBuilt, M.Items, ShownOf, ItemShows;
    assert ElementShows(node, t) <==> Alike(v);
    hide *;
    OneItemShows(node, t);
  }

  lemma OneItemShows(node: Node, t: P.Tree)
    requires node.Element? && t.TreeElement?
    ensures |M.Items([node])| == |ShownOf([t])| && (ItemsShow(M.Items([node]), ShownOf([t])) <==> ElementShows(node, t))
  {
    M.ItemsOfOne(node);
    ShownOfOne(t);
    hide M.Items, ShownOf, ElementShows;
    var items, shown := M.Items([node]), ShownOf([t]);
    assert items[0] == M.El(node) && shown[0] == ShownElement(t);
  }

  lemma ShowsIff(nodes: seq<Node>, ts: seq<P.Tree>)
    ensures Shows(nodes, ts) <==> Merged(nodes) && ItemsShow(M.Items(nodes), ShownOf(ts))
  {
    hide Merged, M.Items, ShownOf, ElementShows;
  }

  lemma JoinedShows(rules: S.Rules, vs: seq<S.VNode>, parent: string, ts: seq<P.Tree>)
    ensures Shows(JoinAll([], S.AllNodes(rules, vs, parent)), ts) <==> ItemsShow(M.Items(S.AllNodes(rules, vs, parent)), ShownOf(ts))
  {
    hide JoinAll, S.AllNodes, Shows, ItemsShow, ShownOf;
    S.AllNodesNotEmpty(rules, vs, parent);
    JoinAllMerges([], S.AllNodes(rules, vs, parent));
    M.JoinAllItems([], S.AllNodes(rules, vs, parent));
    ShowsIff(JoinAll([], S.AllNodes(rules, vs, parent)), ts);
    assert M.Items([]) + M.Items(S.AllNodes(rules, vs, parent)) == M.Items(S.AllNodes(rules, vs, parent));
    hide *;
  }

  /** Reading the markup of the server shows what the browser builds if and only if the description
      is alike for both. */
  lemma ServerShowsWhatIsBuiltIff(rules: S.Rules, v: S.VNode, raw: F.Raw)
    requires Stable(rules) && S.Readable(v) && S.RenderNode(rules, v, None, S.Html).Ok? && Describes(v, raw)
    ensures Shows(Read(S.RenderNode(rules, v, None, S.Html).value), F.Built(raw)) <==> Alike(v)
  {
    S.RenderedIsRead(rules, v);
    NodeIff(rules, v, raw, "");
    hide *;
    JoinedNodeShows(rules, v, F.Built(raw));
  }

  lemma JoinedNodeShows(rules: S.Rules, v: S.VNode, ts: seq<P.Tree>)
    ensures Shows(JoinAll([], S.Nodes(rules, v, "")), ts) <==> ItemsShow(M.Items(S.Nodes(rules, v, "")), ShownOf(ts))
  {
    hide JoinAll, S.Nodes, Shows, ItemsShow, ShownOf;
    S.NodesNotEmpty(rules, v, "");
    JoinAllMerges([], S.Nodes(rules, v, ""));
    M.JoinAllItems([], S.Nodes(rules, v, ""));
    ShowsIff(JoinAll([], S.Nodes(rules, v, "")), ts);
    assert M.Items([]) + M.Items(S.Nodes(rules, v, "")) == M.Items(S.Nodes(rules, v, ""));
    hide *;
  }

  /** So does the browser's container, which shows the spliced frame. */
  lemma ServerShowsTheFrameIff(rules: S.Rules, v: S.VNode, raw: F.Raw)
    requires Stable(rules) && S.Readable(v) && S.RenderNode(rules, v, None, S.Html).Ok? && Describes(v, raw)
    ensures Shows(Read(S.RenderNode(rules, v, None, S.Html).value), P.AllFresh(R.Nodes(F.FrameOf(raw)))) <==> Alike(v)
  {
    ServerShowsWhatIsBuiltIff(rules, v, raw);
    F.FrameShowsTheRoot(raw);
  }

  // ---------------------------------------------------------------- where they differ

  /** The markup shows no children of a void element, the browser does, ... */
  lemma VoidElementsDiffer(rules: S.Rules)
    requires Stable(rules)
    ensures var v, raw := S.VElement("br", [], [], [], [S.VText("x")]), F.RawElement(None, "br", map[], [], [F.RawText(None, "x")]);
            && Describes(v, raw) && S.RenderNode(rules, v, None, S.Html).Ok?
            && !Shows(Read(S.RenderNode(rules, v, None, S.Html).value), F.Built(raw))
  {
    var v, raw := S.VElement("br", [], [], [], [S.VText("x")]), F.RawElement(None, "br", map[], [], [F.RawText(None, "x")]);
    assert S.ValidTag("br") && S.AllAttributes(rules, "br", [], [], []) == Ok([]);
    assert !ShowsNothing(v.children[0]) && !Alike(v);
    hide Shows, Read, Alike;
    ServerShowsWhatIsBuiltIff(rules, v, raw);
  }

  /** ... and an attribute `value` of a textarea with a value is in the markup and not in the browser. */
  lemma TextareasDiffer(rules: S.Rules)
    requires Stable(rules) && rules.property("textarea", "value", S.Text("b"))
    ensures var v := S.VElement("textarea", [S.Entry("value", S.Text("a"))], [S.Entry("value", S.Text("b"))], [], [S.VText("b")]);
            var raw := F.RawElement(None, "textarea", map[], [], [F.RawText(None, "b")]);
            && Describes(v, raw) && S.RenderNode(rules, v, None, S.Html).Ok?
            && !Shows(Read(S.RenderNode(rules, v, None, S.Html).value), F.Built(raw))
  {
    var attrs, props := [S.Entry("value", S.Text("a"))], [S.Entry("value", S.Text("b"))];
    var v := S.VElement("textarea", attrs, props, [], [S.VText("b")]);
    var raw := F.RawElement(None, "textarea", map[], [], [F.RawText(None, "b")]);
    TextareaAttributes(rules, attrs, props);
    assert S.TextareaText(v.children) == Ok("b") by { assert v.children[1..] == [] && "b" + "" == "b"; }
    TextareaRenders(rules, v, attrs);
    TextareaDiffers(v, raw, attrs, props);
    hide *;
    ServerShowsWhatIsBuiltIff(rules, v, raw);
  }

  lemma TextareaDiffers(v: S.VNode, raw: F.Raw, attrs: seq<S.Entry>, props: seq<S.Entry>)
    requires v == S.VElement("textarea", attrs, props, [], [S.VText("b")]) && raw == F.RawElement(None, "textarea", map[], [], [F.RawText(None, "b")])
    requires attrs == [S.Entry("value", S.Text("a"))] && props == [S.Entry("value", S.Text("b"))]
    requires Effective("textarea", AttrsOf(attrs), props) == map[] && M.DistinctKeys(attrs)
    ensures S.Readable(v) && Describes(v, raw) && !Alike(v)
  {
    hide Effective, AttrsOf, M.DistinctKeys;
    assert attrs[0].key == "value" && props[0].key == "value";
    assert !AttrsAlike("textarea", attrs, props);
  }

  lemma TextareaAttributes(rules: S.Rules, attrs: seq<S.Entry>, props: seq<S.Entry>)
    requires attrs == [S.Entry("value", S.Text("a"))] && props == [S.Entry("value", S.Text("b"))] && rules.property("textarea", "value", S.Text("b"))
    ensures Effective("textarea", AttrsOf(attrs), props) == map[] && M.DistinctKeys(attrs)
    ensures S.AllAttributes(rules, "textarea", attrs, props, []) == Ok(attrs) && S.PrintEntries(rules, attrs, S.Html).Ok?
  {
    assert S.ValidAttribute("value");
    M.EntriesRender(rules, attrs, S.Html);
    assert attrs[1..] == [] && props[1..] == [];
    assert S.WithProps(rules, "textarea", attrs, props) == S.WithProps(rules, "textarea", attrs, []) == Ok(attrs);
    assert S.StyleText(rules, []) == Ok("");
    hide S.PrintEntries;
    assert AttrsOf(attrs) == map["value" := P.Text("a")];
    assert WithProp("textarea", AttrsOf(attrs), props[0]) == map[];
  }

  lemma TextareaRenders(rules: S.Rules, v: S.VNode, entries: seq<S.Entry>)
    requires v.VElement? && v.tag == "textarea" && v.children == [S.VText("b")]
    requires S.TextareaProblem(v.tag, v.props, v.children).None?
    requires S.AllAttributes(rules, v.tag, v.attrs, v.props, v.styles) == Ok(entries) && S.PrintEntries(rules, entries, S.Html).Ok?
    ensures S.RenderNode(rules, v, None, S.Html).Ok?
  {
    hide S.AllAttributes, S.PrintEntries, S.TextareaProblem, S.EscapeText;
    assert S.ValidTag("textarea");
    assert v.children[1..] == [];
    assert S.RenderAll(rules, v.children, None, S.Html).Ok?;
  }
}
