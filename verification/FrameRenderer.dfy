/** The renderer of a container: each frame is patched over the one before it, and the retained
    handlers that only earlier frames mention are released. */
module FrameRenderer {
  import opened Options
  import opened EventKeys
  import opened PatchModel
  import opened ChildPatch

  /** The root of a frame: one node, or a fragment. */
  datatype Root = One(node: VNode) | Many(children: seq<VNode>)

  function Nodes(root: Root): seq<VNode> {
    if root.One? then [root.node] else root.children
  }

  // ---------------------------------------------------------------- patching the container

  /** What patching the container makes of its nodes `ts`, if no call fails. */
  ghost function PatchedRoot(ts: seq<Tree>, prior: Option<Root>, next: Root): Option<seq<Tree>> {
    if next.Many? then
      PatchedTrees(ts, if prior.Some? && prior.value.Many? then prior.value.children else [], next.children)
    else if ts == [] || prior.None? || prior.value.Many? then Some([Fresh(next.node)])
    else
      var t := PatchedTree(ts[0], prior.value.node, next.node);
      if t.Some? then Some([t.value]) else None
  }

  /** Patching from one frame to the next goes well. */
  ghost predicate RootRight(prior: Option<Root>, next: Root) {
    match (prior, next)
    case (Some(One(p)), One(v)) => Right(p, false, p, v)
    case (Some(Many(ps)), Many(vs)) => AllRight(ps, false, ps, vs)
    case _ => true
  }

  /** The container of a frame is patched to that of the next if and only if it goes well. */
  lemma PatchedRootRightIff(ts: seq<Tree>, prior: Option<Root>, next: Root)
    requires prior.Some? ==> ts == AllFresh(Nodes(prior.value))
    ensures PatchedRoot(ts, prior, next) == Some(AllFresh(Nodes(next))) <==> RootRight(prior, next)
  {
    assert next.One? ==> AllFresh([next.node]) == [Fresh(next.node)];
    if prior.Some? && prior.value.Many? && next.Many? {
      PatchedTreesRightIff(prior.value.children, false, prior.value.children, next.children);
    } else if prior.Some? && prior.value.One? && next.One? {
      PatchedTreeRightIff(prior.value.node, false, prior.value.node, next.node);
    } else if next.Many? {
      AllBuilt(ts, next.children);
    }
  }

  /** Without old children every new child is built. */
  lemma AllBuilt(ts: seq<Tree>, next: seq<VNode>)
    ensures PatchedTrees(ts, [], next) == Some(AllFresh(next))
  {
    forall i | 0 <= i < |next| ensures PatchedAt(ts, [], next, i) == Some(AllFresh(next)[i]) {
      assert ChoiceAt(|ts|, [], next, i) == Build;
    }
    assert NoneFails(ts, [], next);
    PatchedTreesAre(ts, [], next);
    assert PatchedTrees(ts, [], next).value == AllFresh(next);
  }

  // ---------------------------------------------------------------- handlers

  /** The retained handlers that a tree of descriptions mentions. */
  function Mentioned(v: VNode): set<nat> {
    if v.VText? then {} else Handlers(EventSet(v.events)) + AllMentioned(v.children)
  }

  function AllMentioned(vs: seq<VNode>): set<nat> {
    if vs == [] then {} else Mentioned(vs[0]) + AllMentioned(vs[1..])
  }

  function EventSet(events: seq<Event>): set<Event> {
    set e | e in events
  }

  function Handlers(events: set<Event>): set<nat> {
    set e | e in events && e.action.Handler? :: e.action.id
  }

  /** The events that an element listens to. */
  function Heard(listeners: map<string, Event>, stray: multiset<Event>): set<Event> {
    listeners.Values + set e | e in stray
  }

  /** The retained handlers that the listeners of a subtree call. */
  function Wired(t: Tree): set<nat> {
    if t.TreeText? then {} else Handlers(Heard(t.listeners, t.stray)) + AllWired(t.children)
  }

  function AllWired(ts: seq<Tree>): set<nat> {
    if ts == [] then {} else Wired(ts[0]) + AllWired(ts[1..])
  }

  /** No event of the tree has a name with a colon. */
  predicate Plain(v: VNode) {
    v.VElement? ==> (forall e :: e in v.events ==> ColonFree(e)) && AllPlain(v.children)
  }

  predicate AllPlain(vs: seq<VNode>) {
    vs != [] ==> Plain(vs[0]) && AllPlain(vs[1..])
  }

  /** The listeners of an element built from scratch are for events that it was given, and for all of
      them if no name contains a colon. */
  lemma HeardWhenFresh(events: seq<Event>)
    ensures Heard(Recorded(events), multiset{}) <= EventSet(events)
    ensures (forall e :: e in events ==> ColonFree(e)) ==> Heard(Recorded(events), multiset{}) == EventSet(events)
  {
    forall k | k in Recorded(events) ensures Recorded(events)[k] in events { RecordedMeaning(events, k); }
    if forall e :: e in events ==> ColonFree(e) {
      forall e | e in events ensures e in Recorded(events).Values { AllRecorded(events, e); }
    }
  }

  lemma {:induction false} WiredWhenFresh(v: VNode)
    ensures Wired(Fresh(v)) <= Mentioned(v) && (Plain(v) ==> Wired(Fresh(v)) == Mentioned(v))
  {
    if v.VElement? {
      HeardWhenFresh(v.events);
      AllWiredWhenFresh(v.children);
    }
  }

  lemma {:induction false} AllWiredWhenFresh(vs: seq<VNode>)
    ensures AllWired(AllFresh(vs)) <= AllMentioned(vs) && (AllPlain(vs) ==> AllWired(AllFresh(vs)) == AllMentioned(vs))
  {
    if vs != [] {
      WiredWhenFresh(vs[0]);
      AllWiredWhenFresh(vs[1..]);
      assert AllFresh(vs)[1..] == AllFresh(vs[1..]);
    }
  }

  lemma AllSilencedIsQuiet(ds: seq<Dom>)
    ensures Shapes(AllSilenced(ds)) == AllQuiet(Shapes(ds))
  {
    forall i | 0 <= i < |ds| ensures Shapes(AllSilenced(ds))[i] == AllQuiet(Shapes(ds))[i] { SilencedIsQuiet(ds[i]); }
  }

  lemma AllSilencedSound(ds: seq<Dom>, n: NodeId)
    requires AllSound(ds, n)
    ensures AllSound(AllSilenced(ds), n)
  {
    hide Sound, Silenced;
    forall i | 0 <= i < |ds| ensures Sound(AllSilenced(ds)[i], n) && AllSilenced(ds)[i].id == ds[i].id { SilencedSound(ds[i], n); }
  }

  // ---------------------------------------------------------------- the renderer

  class Renderer {
    const patcher: Patcher
    var kids: seq<Dom>
    var current: Option<Root>
    var retained: set<nat>
    /** Every call that released a handler. */
    var released: multiset<nat>
    /** Every time a frame mentioned a handler that was not retained. */
    ghost var introduced: multiset<nat>

    /** The handlers retained are those of the current frame, and each handler that was ever
        introduced has been released exactly once unless it is still retained. */
    ghost predicate Valid()
      reads this, patcher
    {
      && AllSound(kids, patcher.nextId)
      && retained == (if current.Some? then AllMentioned(Nodes(current.value)) else {})
      && introduced == released + multiset(retained)
    }

    /** The container shows the current frame. */
    ghost predicate InSync()
      reads this
    {
      current.Some? ==> Shapes(kids) == AllFresh(Nodes(current.value))
    }

    constructor ()
      ensures Valid() && current == None && released == multiset{} && fresh(patcher)
    {
      patcher := new Patcher();
      kids, current, retained, released, introduced := [], None, {}, multiset{}, multiset{};
    }

    method PatchContainer(next: Root) returns (r: Option<seq<Dom>>)
      requires AllSound(kids, patcher.nextId)
      modifies patcher
      ensures patcher.nextId >= old(patcher.nextId) && (r.Some? ==> AllSound(r.value, patcher.nextId))
      ensures PatchedRoot(Shapes(kids), current, next) == if r.Some? then Some(Shapes(r.value)) else None
    {
      if next.Many? {
        r := patcher.PatchChildren(kids, if current.Some? && current.value.Many? then current.value.children else [], next.children);
      } else if kids == [] || current.None? || current.value.Many? {
        var d := patcher.CreateDom(next.node);
        r := Some([d]);
        assert Shapes([d]) == [Shape(d)];
      } else {
        var d := patcher.PatchNode(kids[0], current.value.node, next.node);
        r := if d.Some? then Some([d.value]) else None;
        assert d.Some? ==> Shapes([d.value]) == [Shape(d.value)];
      }
    }

    /** Renders a frame. When a call fails in the middle, `wreck` is what it leaves behind. */
    method Render(next: Root, wreck: seq<Dom>, bound: NodeId) returns (ok: bool)
      requires Valid() && AllSound(wreck, bound)
      modifies this, patcher
      ensures Valid() && ok == PatchedRoot(Shapes(old(kids)), old(current), next).Some?
      ensures ok ==> current == Some(next) && Some(Shapes(kids)) == PatchedRoot(Shapes(old(kids)), old(current), next)
      ensures ok ==> released == old(released) + multiset(old(retained) - AllMentioned(Nodes(next)))
      ensures !ok ==> current == old(current) && kids == wreck && released == old(released) + multiset(AllMentioned(Nodes(next)) - old(retained))
      ensures old(InSync()) ==> (ok && InSync() <==> RootRight(old(current), next))
    {
      hide PatchedRoot, RootRight, AllMentioned, AllSound, Shapes, AllFresh, Nodes;
      PatchedRootSync(Shapes(kids), current, next);
      var patched := PatchContainer(next);
      AllSoundLater(kids, old(patcher.nextId), patcher.nextId);
      ok := patched.Some?;
      if ok { Accept(next, patched.value); } else { Abandon(next, wreck, bound); }
    }

    /** The frame becomes the current one; handlers that it does not mention are released. */
    method Accept(next: Root, shown: seq<Dom>)
      requires Valid() && AllSound(shown, patcher.nextId)
      modifies this
      ensures Valid() && current == Some(next) && kids == shown
      ensures released == old(released) + multiset(old(retained) - AllMentioned(Nodes(next)))
    {
      hide AllMentioned, AllSound, Nodes;
      var wanted := AllMentioned(Nodes(next));
      Balance(introduced, released, retained, wanted);
      introduced := introduced + multiset(wanted - retained);
      released := released + multiset(retained - wanted);
      kids, current, retained := shown, Some(next), wanted;
    }

    /** The frame is given up; handlers that it introduced are released. */
    method Abandon(next: Root, wreck: seq<Dom>, bound: NodeId)
      requires Valid() && AllSound(wreck, bound)
      modifies this, patcher
      ensures Valid() && current == old(current) && kids == wreck
      ensures released == old(released) + multiset(AllMentioned(Nodes(next)) - old(retained))
    {
      hide AllMentioned, AllSound, Nodes;
      var wanted := AllMentioned(Nodes(next));
      Balance(introduced, released, retained, wanted);
      introduced := introduced + multiset(wanted - retained);
      released := released + multiset(wanted - retained);
      AllSoundLater(wreck, bound, Max(bound, patcher.nextId));
      kids := wreck;
      patcher.nextId := Max(bound, patcher.nextId);
    }

    /** Removes the listeners, each under the first part of its key, and releases what is retained. No
        listener is left if and only if no registered event has a name with a colon. */
    method Detach()
      requires Valid()
      modifies this
      ensures Valid() && InSync() && current == None && Shapes(kids) == AllQuiet(Shapes(old(kids)))
      ensures old(InSync()) && old(current).Some? ==> (AllDeaf(Shapes(kids)) <==> AllNamesPlain(Nodes(old(current).value)))
      ensures released == introduced == old(introduced)
    {
      AllSilencedIsQuiet(kids);
      if current.Some? { AllQuietIsDeafIff(Nodes(current.value)); }
      AllSilencedSound(kids, patcher.nextId);
      hide AllSound, AllMentioned, Shapes, AllSilenced, AllNamesPlain, AllDeaf;
      kids, current, released, retained := AllSilenced(kids), None, released + multiset(retained), {};
    }
  }

  lemma PatchedRootSync(ts: seq<Tree>, prior: Option<Root>, next: Root)
    ensures prior.None? || ts == AllFresh(Nodes(prior.value)) ==> (PatchedRoot(ts, prior, next) == Some(AllFresh(Nodes(next))) <==> RootRight(prior, next))
  {
    if prior.None? || ts == AllFresh(Nodes(prior.value)) { PatchedRootRightIff(ts, prior, next); }
  }

  function Max(a: nat, b: nat): nat {
    if a > b then a else b
  }

  /** Going on to `want` from `have`, or staying, keeps releases and introductions in balance. */
  lemma Balance(introduced: multiset<nat>, released: multiset<nat>, have: set<nat>, want: set<nat>)
    requires introduced == released + multiset(have)
    ensures introduced + multiset(want - have) == released + multiset(have - want) + multiset(want)
    ensures introduced + multiset(want - have) == released + multiset(want - have) + multiset(have)
  {
  }

  /** No listener dangles: in a container that shows its frame, the handlers that listeners call are
      retained; they are all that is retained if no event of the frame has a name with a colon. */
  lemma WiredIsRetained(r: Renderer)
    requires r.Valid() && r.InSync() && r.current.Some?
    ensures AllWired(Shapes(r.kids)) <= r.retained
    ensures AllPlain(Nodes(r.current.value)) ==> AllWired(Shapes(r.kids)) == r.retained
  {
    AllWiredWhenFresh(Nodes(r.current.value));
  }

  /** A detached container may call a handler that has been released: one of an event called `app:changed`. */
  method DetachedStillCalls() returns (r: Renderer)
    ensures fresh(r) && r.Valid() && r.current == None && r.retained == {} && 5 in AllWired(Shapes(r.kids)) && 5 in r.released
  {
    var e := Event("app:changed", Handler(5), [], false, false, false, false, false);
    var v := VElement("", "p", map[], [e], []);
    r := new Renderer();
    var ok := r.Render(One(v), [], 0);
    OnlyListener(e, v);
    assert PatchedRoot([], None, One(v)) == Some([Fresh(v)]);
    r.Detach();
    LeftListening(e, v);
  }

  lemma OnlyListener(e: Event, v: VNode)
    requires v == VElement("", "p", map[], [e], []) && e == Event("app:changed", Handler(5), [], false, false, false, false, false)
    ensures AllMentioned([v]) == {5}
  {
    assert [v][1..] == [] && EventSet([e]) == {e};
  }

  lemma LeftListening(e: Event, v: VNode)
    requires v == VElement("", "p", map[], [e], []) && e == Event("app:changed", Handler(5), [], false, false, false, false, false)
    ensures 5 in AllWired(AllQuiet([Fresh(v)]))
  {
    assert [e][..0] == [] && e.name[3] == ':' && !ColonFree(e);
    FirstPartIff(e);
    assert Recorded([e]) == map[KeyOf(e) := e];
    var t := Quiet(Fresh(v));
    assert e in t.stray;
    assert AllQuiet([Fresh(v)]) == [t];
  }
}
