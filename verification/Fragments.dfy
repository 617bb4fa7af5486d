/** Fragments are spliced into the child lists around them before a frame is patched, so that
    patching meets none; what is shown is what building the frame with its fragments would show. */
module Fragments {
  import opened Options
  import opened EventKeys
  import opened PatchModel
  import opened FrameRenderer

  /** A rendered node as it arrives. */
  datatype Raw =
    | RawText(key: Option<string>, value: string)
    | RawElement(key: Option<string>, tag: string, attrs: Attrs, events: seq<Event>, children: seq<Raw>)
    | RawFragment(key: Option<string>, children: seq<Raw>)

  // ---------------------------------------------------------------- splicing

  function FlatNode(raw: Raw): Raw
    decreases raw, 0
  {
    match raw
    case RawText(_, _) => raw
    case RawElement(key, tag, attrs, events, children) => RawElement(key, tag, attrs, events, FlatChildren(children))
    case RawFragment(key, children) => RawFragment(key, FlatChildren(children))
  }

  function FlatChildren(raws: seq<Raw>): seq<Raw>
    decreases raws, 1
  {
    if raws == [] then [] else Spliced(FlatNode(raws[0])) + FlatChildren(raws[1..])
  }

  /** A fragment makes way for its children; one with a key passes it on to them. */
  function Spliced(flat: Raw): seq<Raw> {
    if !flat.RawFragment? then [flat]
    else if flat.key.None? || flat.key.value == "" then flat.children
    else seq(|flat.children|, i requires 0 <= i < |flat.children| => WithKey(flat.children[i], KeyBelow(flat.key.value, flat.children, i)))
  }

  function WithKey(raw: Raw, key: string): (r: Raw)
    ensures r.key == Some(key)
  {
    raw.(key := Some(key))
  }

  /** The key that child `i` of a fragment with a key gets. */
  function KeyBelow(key: string, children: seq<Raw>, i: nat): string
    requires i < |children|
  {
    if |children| == 1 then key else key + ":" + Label(children, i)
  }

  function Label(children: seq<Raw>, i: nat): string
    requires i < |children|
  {
    if children[i].key.Some? then children[i].key.value else Decimal(i)
  }

  // ---------------------------------------------------------------- no fragment is left

  predicate FragmentFree(raw: Raw) {
    !raw.RawFragment? && (raw.RawElement? ==> AllFragmentFree(raw.children))
  }

  predicate AllFragmentFree(raws: seq<Raw>) {
    forall i :: 0 <= i < |raws| ==> FragmentFree(raws[i])
  }

  lemma {:induction false} FlatIsFragmentFree(raws: seq<Raw>)
    ensures AllFragmentFree(FlatChildren(raws))
    decreases raws, 1
  {
    if raws != [] {
      NodeBelowIsFragmentFree(raws[0]);
      FlatIsFragmentFree(raws[1..]);
    }
  }

  lemma {:induction false} NodeBelowIsFragmentFree(raw: Raw)
    ensures AllFragmentFree(Spliced(FlatNode(raw)))
    decreases raw, 0
  {
    if !raw.RawText? { FlatIsFragmentFree(raw.children); }
  }

  // ---------------------------------------------------------------- what is shown stays the same

  /** What building a node shows: a fragment shows its children. */
  function Built(raw: Raw): seq<Tree>
    decreases raw, 0
  {
    match raw
    case RawText(_, value) => [TreeText(value)]
    case RawElement(_, tag, attrs, events, children) => [TreeElement(tag, Rendered(attrs), Recorded(events), multiset{}, AllBuilt(children))]
    case RawFragment(_, children) => AllBuilt(children)
  }

  function AllBuilt(raws: seq<Raw>): seq<Tree>
    decreases raws, 1
  {
    if raws == [] then [] else Built(raws[0]) + AllBuilt(raws[1..])
  }

  lemma {:induction false} AllBuiltJoins(a: seq<Raw>, b: seq<Raw>)
    ensures AllBuilt(a + b) == AllBuilt(a) + AllBuilt(b)
  {
    if a == [] {
      assert a + b == b;
    } else {
      assert (a + b)[0] == a[0] && (a + b)[1..] == a[1..] + b;
      AllBuiltJoins(a[1..], b);
    }
  }

  /** Keys make no difference to what is shown. */
  lemma {:induction false} AllBuiltWithoutKeys(a: seq<Raw>, b: seq<Raw>)
    requires |a| == |b| && forall i :: 0 <= i < |a| ==> b[i] == a[i].(key := b[i].key)
    ensures AllBuilt(a) == AllBuilt(b)
  {
    if a != [] {
      assert Built(a[0]) == Built(b[0]);
      AllBuiltWithoutKeys(a[1..], b[1..]);
    }
  }

  lemma {:induction false} FlatShowsTheSame(raws: seq<Raw>)
    ensures AllBuilt(FlatChildren(raws)) == AllBuilt(raws)
    decreases raws, 1
  {
    if raws != [] {
      NodeShowsTheSame(raws[0]);
      FlatShowsTheSame(raws[1..]);
      SplicedShowsTheSame(FlatNode(raws[0]));
      AllBuiltJoins(Spliced(FlatNode(raws[0])), FlatChildren(raws[1..]));
    }
  }

  lemma {:induction false} NodeShowsTheSame(raw: Raw)
    ensures Built(FlatNode(raw)) == Built(raw)
    decreases raw, 0
  {
    if !raw.RawText? { FlatShowsTheSame(raw.children); }
  }

  lemma SplicedShowsTheSame(flat: Raw)
    ensures AllBuilt(Spliced(flat)) == Built(flat)
  {
    if !flat.RawFragment? {
      assert [flat][1..] == [];
    } else {
      AllBuiltWithoutKeys(flat.children, Spliced(flat));
    }
  }

  // ---------------------------------------------------------------- what patching gets

  function AsVNode(raw: Raw): VNode
    requires FragmentFree(raw)
    decreases raw, 0
  {
    var key := if raw.key.Some? then raw.key.value else "";
    if raw.RawText? then VText(key, raw.value) else VElement(key, raw.tag, raw.attrs, raw.events, AsVNodes(raw.children))
  }

  function AsVNodes(raws: seq<Raw>): (vs: seq<VNode>)
    requires AllFragmentFree(raws)
    ensures |vs| == |raws|
    decreases raws, 1
  {
    if raws == [] then [] else [AsVNode(raws[0])] + AsVNodes(raws[1..])
  }

  /** The frame that is patched. */
  function FrameOf(root: Raw): Root {
    NodeBelowIsFragmentFree(root);
    FlatIsFragmentFree(if root.RawText? then [] else root.children);
    var flat := FlatNode(root);
    if flat.RawFragment? then Many(AsVNodes(flat.children)) else assert Spliced(flat)[0] == flat; One(AsVNode(flat))
  }

  lemma {:induction false} FreshIsBuilt(raw: Raw)
    requires FragmentFree(raw)
    ensures [Fresh(AsVNode(raw))] == Built(raw)
    decreases raw, 0
  {
    if raw.RawElement? { AllFreshIsBuilt(raw.children); }
  }

  lemma {:induction false} AllFreshIsBuilt(raws: seq<Raw>)
    requires AllFragmentFree(raws)
    ensures AllFresh(AsVNodes(raws)) == AllBuilt(raws)
    decreases raws, 1
  {
    if raws != [] {
      FreshIsBuilt(raws[0]);
      AllFreshIsBuilt(raws[1..]);
      assert AsVNodes(raws)[1..] == AsVNodes(raws[1..]);
    }
  }

  /** A container that shows the spliced frame shows what building the frame as it arrived shows. */
  lemma FrameShowsTheRoot(root: Raw)
    ensures AllFresh(Nodes(FrameOf(root))) == Built(root)
  {
    NodeBelowIsFragmentFree(root);
    FlatIsFragmentFree(if root.RawText? then [] else root.children);
    NodeShowsTheSame(root);
    var flat := FlatNode(root);
    if flat.RawFragment? {
      AllFreshIsBuilt(flat.children);
    } else {
      assert Spliced(flat)[0] == flat;
      FreshIsBuilt(flat);
      assert AllFresh([AsVNode(flat)]) == [Fresh(AsVNode(flat))];
    }
  }

  // ---------------------------------------------------------------- keys

  /** Children of a fragment with a key keep different keys if and only if their labels differ. */
  lemma KeysBelowDiffer(key: string, children: seq<Raw>, i: nat, j: nat)
    requires i < j < |children|
    ensures KeyBelow(key, children, i) == KeyBelow(key, children, j) <==> Label(children, i) == Label(children, j)
  {
    var a, b := KeyBelow(key, children, i), KeyBelow(key, children, j);
    assert a == (key + ":") + Label(children, i) && b == (key + ":") + Label(children, j);
    assert a[|key| + 1..] == Label(children, i) && b[|key| + 1..] == Label(children, j);
  }

  /** A child without a key is labelled by its index, which may be the key of a sibling. */
  lemma IndexMeetsKey()
    ensures var keys := Spliced(RawFragment(Some("f"), [RawText(Some("1"), ""), RawText(None, "")]));
            |keys| == 2 && keys[0].key == keys[1].key
  {
    assert Decimal(1) == "1";
  }
}
