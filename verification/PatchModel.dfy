/** Patching a DOM subtree from one rendered tree to the next. A patch is meant to leave the
    subtree that would be built from scratch, with nodes kept where they can be. It is modelled for
    every pair of child lists, whatever their keys; `PatchedTreesRightIff` says when it succeeds. */
module PatchModel {
  import opened Options
  import opened EventKeys

  /** An attribute value: null or undefined, a boolean, or anything else as text. */
  datatype AttrValue = Absent | Flag(on: bool) | Text(text: string)
  type Attrs = map<string, AttrValue>

  /** A rendered node. An empty key is no key. Fragments have been spliced before. */
  datatype VNode =
    | VText(key: string, value: string)
    | VElement(key: string, tag: string, attrs: Attrs, events: seq<Event>, children: seq<VNode>)

  /** A subtree regardless of identity. `listeners` are those that the element keeps a record of, by
      key; `stray` are listeners of which it has lost the record and which nothing will remove. */
  datatype Tree =
    | TreeText(value: string)
    | TreeElement(tag: string, attrs: map<string, string>, listeners: map<string, Event>, stray: multiset<Event>, children: seq<Tree>)

  // ---------------------------------------------------------------- meaning

  predicate Shown(key: string, value: AttrValue) {
    key != "key" && !value.Absent? && value != Flag(false)
  }

  function Printed(value: AttrValue): string {
    if value.Text? then value.text else ""
  }

  /** The attributes that an element built from scratch has. */
  function Rendered(attrs: Attrs): map<string, string> {
    map k | k in attrs && Shown(k, attrs[k]) :: Printed(attrs[k])
  }

  /** The subtree that is built from scratch. */
  function Fresh(v: VNode): Tree {
    match v
    case VText(_, value) => TreeText(value)
    case VElement(_, tag, attrs, events, children) => TreeElement(tag, Rendered(attrs), Recorded(events), multiset{}, AllFresh(children))
  }

  function AllFresh(vs: seq<VNode>): (ts: seq<Tree>)
    ensures |ts| == |vs| && forall i :: 0 <= i < |vs| ==> ts[i] == Fresh(vs[i])
  {
    if vs == [] then [] else [Fresh(vs[0])] + AllFresh(vs[1..])
  }

  // ---------------------------------------------------------------- attributes and listeners

  /** Attributes after patching from `before` to `after`. */
  function Patched(attrs: map<string, string>, before: Attrs, after: Attrs): map<string, string> {
    map k | k in attrs.Keys + after.Keys && (if k in after then Shown(k, after[k]) else k !in before) ::
      if k in after then Printed(after[k]) else attrs[k]
  }

  /** Patching gives what building would, if the element has what the old node describes. */
  lemma PatchedIsRendered(attrs: map<string, string>, before: Attrs, after: Attrs)
    requires attrs == Rendered(before)
    ensures Patched(attrs, before, after) == Rendered(after)
  {
  }

  /** The attributes that survive a patch wrongly are those the element has beyond its old node. */
  lemma PatchedIsRenderedIff(attrs: map<string, string>, before: Attrs, after: Attrs)
    ensures Patched(attrs, before, after) == Rendered(after) <==> forall k :: k in attrs ==> k in before || k in after
  {
    if Patched(attrs, before, after) == Rendered(after) {
      forall k | k in attrs ensures k in before || k in after {
        assert k in before || k in after || k in Patched(attrs, before, after);
      }
    }
  }

  /** Recorded listeners after patching from `before` to `after`. */
  function Listened(listeners: map<string, Event>, before: seq<Event>, after: seq<Event>): map<string, Event> {
    map k | k in listeners.Keys + Recorded(after).Keys && (k in Recorded(after) || k !in Recorded(before)) ::
      if k in listeners then listeners[k] else Recorded(after)[k]
  }

  /** The recorded listeners that patching from `before` to `after` forgets without removing them: the
      element registered them under another name than the event of `before` with that key has. */
  function Forgotten(listeners: map<string, Event>, before: seq<Event>, after: seq<Event>): set<Event> {
    set k | k in listeners && k in Recorded(before) && k !in Recorded(after) && Recorded(before)[k].name != listeners[k].name :: listeners[k]
  }

  /** The listeners that removing all of them leaves behind: each is removed under the part of its key
      before the first colon. */
  function LeftBehind(listeners: map<string, Event>): set<Event> {
    set k | k in listeners && FirstPart(k) != listeners[k].name :: listeners[k]
  }

  /** Listeners that were registered for `was` become those of `next`: each is kept for an equal event,
      or is one of `prior` by name. */
  ghost predicate EventsRight(was: seq<Event>, silent: bool, prior: seq<Event>, next: seq<Event>) {
    forall k {:trigger Recorded(was)[k]} :: k in Recorded(was) ==>
      var e := Recorded(was)[k];
      if silent then ColonFree(e)
      else if k in Recorded(next) then Recorded(next)[k] == e
      else k in Recorded(prior) && Recorded(prior)[k].name == e.name
  }

  lemma LeftBehindMeaning(events: seq<Event>)
    ensures LeftBehind(Recorded(events)) == {} <==> forall k {:trigger Recorded(events)[k]} :: k in Recorded(events) ==> ColonFree(Recorded(events)[k])
  {
    var m := Recorded(events);
    forall k | k in m ensures FirstPart(k) != m[k].name <==> !ColonFree(m[k]) {
      RecordedMeaning(events, k);
      FirstPartIff(m[k]);
    }
    if k :| k in m && FirstPart(k) != m[k].name { assert m[k] in LeftBehind(m); }
  }

  lemma EventsRightIff(was: seq<Event>, prior: seq<Event>, next: seq<Event>)
    ensures Listened(Recorded(was), prior, next) == Recorded(next) && Forgotten(Recorded(was), prior, next) == {} <==> EventsRight(was, false, prior, next)
  {
    var w, p, n := Recorded(was), Recorded(prior), Recorded(next);
    var l := Listened(w, prior, next);
    if l == n && Forgotten(w, prior, next) == {} {
      forall k | k in w ensures if k in n then n[k] == w[k] else k in p && p[k].name == w[k].name {
        if k !in n {
          assert k !in l;
          var e := w[k];
          assert p[k].name == e.name || e in Forgotten(w, prior, next);
        }
      }
    }
    if EventsRight(was, false, prior, next) {
      forall k ensures (k in l <==> k in n) && (k in n ==> l[k] == n[k]) {
        if k in w { assert Recorded(was)[k] == w[k]; }
      }
      assert l == n;
    }
  }

  lemma SilentEventsRightIff(was: seq<Event>, prior: seq<Event>, next: seq<Event>)
    ensures Listened(map[], prior, next) == Recorded(next) && Forgotten(map[], prior, next) == {}
    ensures LeftBehind(Recorded(was)) == {} <==> EventsRight(was, true, prior, next)
  {
    LeftBehindMeaning(was);
  }

  // ---------------------------------------------------------------- which old child a new child continues

  predicate SameKind(a: VNode, b: VNode) {
    (a.VText? && b.VText?) || (a.VElement? && b.VElement? && a.tag == b.tag)
  }

  /** The last old child with a key. */
  function KeyedIndex(prior: seq<VNode>, key: string): (i: Option<nat>)
    ensures i.Some? ==> i.value < |prior|
  {
    if prior == [] then None
    else if prior[|prior| - 1].key == key then Some(|prior| - 1)
    else KeyedIndex(prior[..|prior| - 1], key)
  }

  lemma {:induction false} KeyedIndexFinds(prior: seq<VNode>, key: string)
    ensures KeyedIndex(prior, key).Some? ==> KeyedIndex(prior, key).value < |prior| && prior[KeyedIndex(prior, key).value].key == key
    ensures KeyedIndex(prior, key).None? ==> forall i :: 0 <= i < |prior| ==> prior[i].key != key
  {
    if prior != [] && prior[|prior| - 1].key != key {
      KeyedIndexFinds(prior[..|prior| - 1], key);
      if KeyedIndex(prior, key).None? {
        forall i | 0 <= i < |prior| ensures prior[i].key != key {
          if i < |prior| - 1 { assert prior[..|prior| - 1][i].key != key; }
        }
      }
    }
  }

  /** What has become of the old nodes: some are in use for a new child, others have been replaced
      and are out of the list, but are still known by their keys. */
  datatype Marks = Marks(used: set<nat>, gone: set<nat>)

  /** What a new child starts from: nothing, or the old node `node` compared with old child `peer`. */
  datatype Choice = Build | Take(node: nat, peer: nat)

  /** The old child with the key of `v`, of those that have one of the `n` old nodes. */
  function Keyed(n: nat, prior: seq<VNode>, v: VNode): (k: Option<nat>)
    ensures k.Some? ==> k.value < n && k.value < |prior|
  {
    if v.key == "" then None else KeyedIndex(if n < |prior| then prior[..n] else prior, v.key)
  }

  /** Old node `s` has been used or replaced. */
  predicate Dealt(m: Marks, s: nat) {
    s in m.used || s in m.gone
  }

  /** The first old node from `k` on that is still in the list and not in use. */
  function FirstLeft(n: nat, m: Marks, k: nat): (f: Option<nat>)
    ensures f.Some? ==> k <= f.value < n && !Dealt(m, f.value)
    decreases n - k
  {
    if k >= n then None else if Dealt(m, k) then FirstLeft(n, m, k + 1) else Some(k)
  }

  /** What new child `v` at `i` starts from. The compared old child and the node belong together
      only if the child has the key of an old one, or the first node left is that of old child `i`. */
  function Chosen(n: nat, prior: seq<VNode>, v: VNode, i: nat, m: Marks): (c: Choice)
    ensures c.Take? ==> c.node < n && c.peer < |prior| && c.node !in m.used
  {
    var keyed := Keyed(n, prior, v);
    var peer := if keyed.Some? then keyed else if i < |prior| then Some(i) else None;
    var node := if keyed.Some? then keyed else FirstLeft(n, m, 0);
    if node.None? || peer.None? || node.value in m.used then Build else Take(node.value, peer.value)
  }

  function Marked(prior: seq<VNode>, v: VNode, m: Marks, c: Choice): Marks
    requires c.Take? ==> c.peer < |prior|
  {
    if c.Build? then m
    else if SameKind(prior[c.peer], v) then m.(used := m.used + {c.node})
    else m.(gone := m.gone + {c.node})
  }

  /** What has become of the `n` old nodes after `i` new children. */
  function MarksAt(n: nat, prior: seq<VNode>, next: seq<VNode>, i: nat): Marks
    requires i <= |next|
  {
    if i == 0 then Marks({}, {})
    else
      var m := MarksAt(n, prior, next, i - 1);
      Marked(prior, next[i - 1], m, Chosen(n, prior, next[i - 1], i - 1, m))
  }

  function ChoiceAt(n: nat, prior: seq<VNode>, next: seq<VNode>, i: nat): (c: Choice)
    requires i < |next|
    ensures c.Take? ==> c.node < n && c.peer < |prior|
  {
    Chosen(n, prior, next[i], i, MarksAt(n, prior, next, i))
  }

  // ---------------------------------------------------------------- what patching does

  function TextOf(t: Tree): string {
    match t
    case TreeText(value) => value
    case TreeElement(_, _, _, _, children) => TextOfAll(children)
  }

  function TextOfAll(ts: seq<Tree>): string {
    if ts == [] then "" else TextOf(ts[0]) + TextOfAll(ts[1..])
  }

  /** Setting the text of a node replaces the children of an element. */
  function Retexted(t: Tree, value: string): Tree {
    match t
    case TreeText(_) => TreeText(value)
    case TreeElement(_, _, _, _, _) =>
      if TextOf(t) == value then t else t.(children := if value == "" then [] else [TreeText(value)])
  }

  /** A replaced node: the listeners of its whole subtree have been removed under the first parts of
      their keys, and their records are gone. */
  function Quiet(t: Tree): Tree {
    match t
    case TreeText(_) => t
    case TreeElement(tag, attrs, listeners, stray, children) => TreeElement(tag, attrs, map[], stray + multiset(LeftBehind(listeners)), AllQuiet(children))
  }

  function AllQuiet(ts: seq<Tree>): (qs: seq<Tree>)
    ensures |qs| == |ts| && forall i :: 0 <= i < |ts| ==> qs[i] == Quiet(ts[i])
  {
    if ts == [] then [] else [Quiet(ts[0])] + AllQuiet(ts[1..])
  }

  /** Patching node `t` from `prior` to `next`, if no call fails. A text node has no attributes to
      set and takes no children. */
  ghost function PatchedTree(t: Tree, prior: VNode, next: VNode): Option<Tree>
    decreases next, 0
  {
    if !SameKind(prior, next) then Some(Fresh(next))
    else if next.VText? then Some(Retexted(t, next.value))
    else if t.TreeText? then
      if prior.attrs.Keys == {} && next.attrs.Keys == {} && next.children == [] then Some(t) else None
    else
      var kids := PatchedTrees(t.children, prior.children, next.children);
      if kids.None? then None
      else Some(TreeElement(t.tag, Patched(t.attrs, prior.attrs, next.attrs), Listened(t.listeners, prior.events, next.events),
                            t.stray + multiset(Forgotten(t.listeners, prior.events, next.events)), kids.value))
  }

  /** Patching a child list; every new child has its own part of the result. */
  ghost function PatchedTrees(ts: seq<Tree>, prior: seq<VNode>, next: seq<VNode>): (r: Option<seq<Tree>>)
    ensures r.Some? ==> |r.value| == |next|
    decreases next, 2
  {
    if NoneFails(ts, prior, next) then
      Some(seq(|next|, i requires 0 <= i < |next| => PatchedAt(ts, prior, next, i).value))
    else None
  }

  ghost predicate NoneFails(ts: seq<Tree>, prior: seq<VNode>, next: seq<VNode>)
    decreases next, 1, 1
  {
    forall i :: 0 <= i < |next| ==> PatchedAt(ts, prior, next, i).Some?
  }

  lemma PatchedTreesAre(ts: seq<Tree>, prior: seq<VNode>, next: seq<VNode>)
    ensures PatchedTrees(ts, prior, next).Some? ==> forall i :: 0 <= i < |next| ==> PatchedAt(ts, prior, next, i) == Some(PatchedTrees(ts, prior, next).value[i])
  {
  }

  /** New child `i`. A node that is out of the list cannot be replaced once more. */
  ghost function PatchedAt(ts: seq<Tree>, prior: seq<VNode>, next: seq<VNode>, i: nat): Option<Tree>
    requires i < |next|
    decreases next, 1, 0
  {
    var c := ChoiceAt(|ts|, prior, next, i);
    if c.Build? then Some(Fresh(next[i]))
    else if c.node !in MarksAt(|ts|, prior, next, i).gone then PatchedTree(ts[c.node], prior[c.peer], next[i])
    else if SameKind(prior[c.peer], next[i]) then PatchedTree(Quiet(ts[c.node]), prior[c.peer], next[i])
    else None
  }

  // ---------------------------------------------------------------- replaced nodes

  /** No listener is left in a subtree. */
  predicate Deaf(t: Tree) {
    match t
    case TreeText(_) => true
    case TreeElement(_, _, listeners, stray, children) => listeners == map[] && stray == multiset{} && AllDeaf(children)
  }

  predicate AllDeaf(ts: seq<Tree>) {
    forall i :: 0 <= i < |ts| ==> Deaf(ts[i])
  }

  /** No event that is registered in the subtree has a name with a colon. */
  predicate NamesPlain(v: VNode) {
    match v
    case VText(_, _) => true
    case VElement(_, _, _, events, children) =>
      && (forall k :: k in Recorded(events) ==> ColonFree(Recorded(events)[k]))
      && AllNamesPlain(children)
  }

  predicate AllNamesPlain(vs: seq<VNode>) {
    forall i :: 0 <= i < |vs| ==> NamesPlain(vs[i])
  }

  /** Removing the listeners of a subtree leaves none if and only if no registered event has a name
      with a colon. */
  lemma {:induction false} QuietIsDeafIff(v: VNode)
    ensures Deaf(Quiet(Fresh(v))) <==> NamesPlain(v)
    decreases v, 0
  {
    if v.VElement? {
      LeftBehindMeaning(v.events);
      AllQuietIsDeafIff(v.children);
    }
  }

  lemma {:induction false} AllQuietIsDeafIff(vs: seq<VNode>)
    ensures AllDeaf(AllQuiet(AllFresh(vs))) <==> AllNamesPlain(vs)
    decreases vs, 1
  {
    forall i | 0 <= i < |vs| ensures Deaf(AllQuiet(AllFresh(vs))[i]) <==> NamesPlain(vs[i]) { QuietIsDeafIff(vs[i]); }
    if AllDeaf(AllQuiet(AllFresh(vs))) {
      forall i | 0 <= i < |vs| ensures NamesPlain(vs[i]) { assert Deaf(AllQuiet(AllFresh(vs))[i]); }
    }
  }

  /** An event called `app:changed` keeps its listener. */
  lemma ColonKeepsListener()
    ensures var v := VElement("", "p", map[], [Event("app:changed", Handler(5), [], false, false, false, false, false)], []);
            !Deaf(Quiet(Fresh(v)))
  {
    var e := Event("app:changed", Handler(5), [], false, false, false, false, false);
    var v := VElement("", "p", map[], [e], []);
    assert [e][..0] == [];
    assert Recorded([e]) == map[KeyOf(e) := e];
    assert e.name[3] == ':';
    assert !ColonFree(e);
    QuietIsDeafIff(v);
    assert !NamesPlain(v) by { assert KeyOf(e) in Recorded([e]); }
  }

  lemma {:induction false} QuietTwice(t: Tree)
    ensures Quiet(Quiet(t)) == Quiet(t)
  {
    if t.TreeElement? {
      forall i | 0 <= i < |t.children| ensures AllQuiet(AllQuiet(t.children))[i] == AllQuiet(t.children)[i] { QuietTwice(t.children[i]); }
      assert AllQuiet(AllQuiet(t.children)) == AllQuiet(t.children);
      assert multiset(LeftBehind(map[])) == multiset{};
    }
  }

  // ---------------------------------------------------------------- when patching succeeds

  /** Patching a node that was built for `was` from `prior` to `next` goes well: a node that is
      kept is of the right kind, what it has beyond `prior` is not beyond `next`, its listeners are
      right, and so below. A `silent` node was replaced before. */
  ghost predicate Right(was: VNode, silent: bool, prior: VNode, next: VNode)
    decreases next, 0
  {
    SameKind(prior, next) ==>
      && SameKind(was, next)
      && (next.VElement? ==>
            && (forall k :: k in was.attrs && Shown(k, was.attrs[k]) ==> k in prior.attrs || k in next.attrs)
            && EventsRight(was.events, silent, prior.events, next.events)
            && AllRight(was.children, silent, prior.children, next.children))
  }

  ghost predicate AllRight(was: seq<VNode>, silent: bool, prior: seq<VNode>, next: seq<VNode>)
    decreases next, 2
  {
    forall i :: 0 <= i < |next| ==> RightAt(was, silent, prior, next, i)
  }

  ghost predicate RightAt(was: seq<VNode>, silent: bool, prior: seq<VNode>, next: seq<VNode>, i: nat)
    requires i < |next|
    decreases next, 1
  {
    var c := ChoiceAt(|was|, prior, next, i);
    c.Take? ==>
      var gone := c.node in MarksAt(|was|, prior, next, i).gone;
      && (gone ==> SameKind(prior[c.peer], next[i]))
      && Right(was[c.node], silent || gone, prior[c.peer], next[i])
  }

  /** The node that was built for `was`, and was replaced since if it is `silent`. */
  function Start(was: VNode, silent: bool): Tree {
    if silent then Quiet(Fresh(was)) else Fresh(was)
  }

  function AllStart(was: seq<VNode>, silent: bool): (ts: seq<Tree>)
    ensures |ts| == |was| && forall i :: 0 <= i < |was| ==> ts[i] == Start(was[i], silent)
  {
    if silent then AllQuiet(AllFresh(was)) else AllFresh(was)
  }

  /** What patching does to the listeners of an element is right. */
  lemma ListenersRightIff(was: VNode, silent: bool, prior: VNode, next: VNode)
    requires was.VElement? && prior.VElement? && next.VElement?
    ensures var t := Start(was, silent);
            && Listened(t.listeners, prior.events, next.events) == Recorded(next.events)
            && t.stray + multiset(Forgotten(t.listeners, prior.events, next.events)) == multiset{}
            <==> EventsRight(was.events, silent, prior.events, next.events)
  {
    EventsRightIff(was.events, prior.events, next.events);
    SilentEventsRightIff(was.events, prior.events, next.events);
    var f := Forgotten(Start(was, silent).listeners, prior.events, next.events);
    assert multiset(f) == multiset{} <==> f == {} by { if x :| x in f { assert multiset(f)[x] > 0; } }
    var l := LeftBehind(Recorded(was.events));
    assert multiset(l) == multiset{} <==> l == {} by { if x :| x in l { assert multiset(l)[x] > 0; } }
  }

  /** Patching a node gives what building would if and only if it goes well by `Right`, which
      looks only at the three descriptions. */
  lemma {:induction false} PatchedTreeRightIff(was: VNode, silent: bool, prior: VNode, next: VNode)
    ensures PatchedTree(Start(was, silent), prior, next) == Some(Fresh(next)) <==> Right(was, silent, prior, next)
    decreases next, 0
  {
    if SameKind(prior, next) && SameKind(was, next) && next.VElement? {
      PatchedTreesRightIff(was.children, silent, prior.children, next.children);
      PatchedIsRenderedIff(Rendered(was.attrs), prior.attrs, next.attrs);
      ListenersRightIff(was, silent, prior, next);
      hide Listened, Forgotten, EventsRight, Recorded;
    }
  }

  lemma {:induction false} PatchedTreesRightIff(was: seq<VNode>, silent: bool, prior: seq<VNode>, next: seq<VNode>)
    ensures PatchedTrees(AllStart(was, silent), prior, next) == Some(AllFresh(next)) <==> AllRight(was, silent, prior, next)
    decreases next, 1
  {
    var ts := AllStart(was, silent);
    forall i | 0 <= i < |next|
      ensures PatchedAt(ts, prior, next, i) == Some(Fresh(next[i])) <==> RightAt(was, silent, prior, next, i)
    {
      PatchedAtRightIff(was, silent, prior, next, i);
    }
    hide AllStart, Start, PatchedAt, RightAt;
    var r := PatchedTrees(ts, prior, next);
    PatchedTreesAre(ts, prior, next);
    if AllRight(was, silent, prior, next) {
      forall i | 0 <= i < |next| ensures PatchedAt(ts, prior, next, i) == Some(AllFresh(next)[i]) {
        assert RightAt(was, silent, prior, next, i);
      }
      assert NoneFails(ts, prior, next);
      assert r.value == AllFresh(next);
    }
    if r == Some(AllFresh(next)) {
      forall i | 0 <= i < |next| ensures RightAt(was, silent, prior, next, i) {
        assert PatchedAt(ts, prior, next, i) == Some(r.value[i]);
      }
    }
  }

  lemma {:induction false} PatchedAtRightIff(was: seq<VNode>, silent: bool, prior: seq<VNode>, next: seq<VNode>, i: nat)
    requires i < |next|
    ensures PatchedAt(AllStart(was, silent), prior, next, i) == Some(Fresh(next[i])) <==> RightAt(was, silent, prior, next, i)
    decreases next, 0, 1
  {
    var c := ChoiceAt(|was|, prior, next, i);
    if c.Take? {
      var gone := c.node in MarksAt(|was|, prior, next, i).gone;
      PatchedTreeRightIff(was[c.node], silent || gone, prior[c.peer], next[i]);
      QuietTwice(Fresh(was[c.node]));
    }
  }

  // ---------------------------------------------------------------- lists that are always patched well

  /** No new child has a key. */
  predicate Unkeyed(next: seq<VNode>) {
    forall i :: 0 <= i < |next| ==> next[i].key == ""
  }

  /** Every new child has a key of its own that an old child had. */
  predicate Rekeyed(prior: seq<VNode>, next: seq<VNode>) {
    && (forall i :: 0 <= i < |next| ==> next[i].key != "" && KeyedIndex(prior, next[i].key).Some?)
    && (forall i, j :: 0 <= i < j < |next| ==> next[i].key != next[j].key)
  }

  /** The old child that new child `i` continues. */
  function Source(prior: seq<VNode>, next: seq<VNode>, i: nat): Option<nat>
    requires i < |next|
  {
    if next[i].key != "" then KeyedIndex(prior, next[i].key) else if i < |prior| then Some(i) else None
  }

  /** The first old node left is `f` when all before it have been dealt with. */
  lemma {:induction false} FirstLeftIs(n: nat, m: Marks, k: nat, f: nat)
    requires k <= f < n && !Dealt(m, f) && forall s :: k <= s < f ==> Dealt(m, s)
    ensures FirstLeft(n, m, k) == Some(f)
    decreases n - k
  {
    if k < f { FirstLeftIs(n, m, k + 1, f); }
  }

  /** With unkeyed new children old nodes are dealt with from the front. */
  lemma {:induction false} MarksWhenUnkeyed(prior: seq<VNode>, next: seq<VNode>, i: nat)
    requires i <= |next| && Unkeyed(next)
    ensures forall s: nat :: Dealt(MarksAt(|prior|, prior, next, i), s) <==> s < i && s < |prior|
  {
    if i > 0 {
      MarksWhenUnkeyed(prior, next, i - 1);
      var m := MarksAt(|prior|, prior, next, i - 1);
      if i <= |prior| {
        FirstLeftIs(|prior|, m, 0, i - 1);
      }
      forall s: nat ensures Dealt(MarksAt(|prior|, prior, next, i), s) <==> s < i && s < |prior| {
        assert Dealt(MarksAt(|prior|, prior, next, i), s) <==> Dealt(m, s) || (s == i - 1 && i <= |prior|);
      }
    }
  }

  /** With distinct keys each old node is dealt with by the new child that has its key. */
  lemma {:induction false} MarksWhenRekeyed(prior: seq<VNode>, next: seq<VNode>, i: nat, s: nat)
    requires i <= |next| && Rekeyed(prior, next)
    requires Dealt(MarksAt(|prior|, prior, next, i), s)
    ensures exists j :: 0 <= j < i && Source(prior, next, j) == Some(s)
  {
    var m := MarksAt(|prior|, prior, next, i - 1);
    if Dealt(m, s) {
      MarksWhenRekeyed(prior, next, i - 1, s);
    } else {
      assert Source(prior, next, i - 1) == Some(s);
    }
  }

  /** No two new children continue the same old child. */
  lemma SourcesDiffer(prior: seq<VNode>, next: seq<VNode>, i: nat, j: nat)
    requires i < j < |next| && Rekeyed(prior, next)
    ensures Source(prior, next, i) != Source(prior, next, j)
  {
    KeyedIndexFinds(prior, next[i].key);
    KeyedIndexFinds(prior, next[j].key);
  }

  /** In a wholly unkeyed or wholly rekeyed list every child is compared with the old child that
      its node was built for, and no node is needed twice. */
  lemma ChoiceWhenListed(prior: seq<VNode>, next: seq<VNode>, i: nat)
    requires i < |next| && (Unkeyed(next) || Rekeyed(prior, next))
    ensures ChoiceAt(|prior|, prior, next, i) == if Source(prior, next, i).Some? then Take(Source(prior, next, i).value, Source(prior, next, i).value) else Build
    ensures Source(prior, next, i).Some? ==> Source(prior, next, i).value !in MarksAt(|prior|, prior, next, i).gone
  {
    var m := MarksAt(|prior|, prior, next, i);
    var source := Source(prior, next, i);
    if Unkeyed(next) {
      MarksWhenUnkeyed(prior, next, i);
      if i < |prior| { FirstLeftIs(|prior|, m, 0, i); }
    } else if Dealt(m, source.value) {
      MarksWhenRekeyed(prior, next, i, source.value);
      var j :| 0 <= j < i && Source(prior, next, j) == source;
      SourcesDiffer(prior, next, j, i);
    }
  }

  /** Events with the same key are the same events. */
  ghost predicate Alike(prior: seq<Event>, next: seq<Event>) {
    forall k {:trigger Recorded(prior)[k]} :: k in Recorded(prior) && k in Recorded(next) ==> Recorded(prior)[k] == Recorded(next)[k]
  }

  /** So they are where no name contains a colon. */
  lemma PlainNamesAreAlike(prior: seq<Event>, next: seq<Event>)
    requires (forall e :: e in prior ==> ColonFree(e)) && forall e :: e in next ==> ColonFree(e)
    ensures Alike(prior, next)
  {
    forall k | k in Recorded(prior) && k in Recorded(next) ensures Recorded(prior)[k] == Recorded(next)[k] {
      RecordedMeaning(prior, k);
      RecordedMeaning(next, k);
      KeyInjective(Recorded(prior)[k], Recorded(next)[k]);
    }
  }

  /** A child list can be patched when it is wholly unkeyed or wholly rekeyed, and so can the
      children that continue old ones of the same kind. */
  ghost predicate Patchable(prior: VNode, next: VNode)
    decreases next, 1
  {
    SameKind(prior, next) && prior.VElement? && next.VElement? ==> Alike(prior.events, next.events) && AllPatchable(prior.children, next.children)
  }

  ghost predicate AllPatchable(prior: seq<VNode>, next: seq<VNode>)
    decreases next, 0
  {
    && (Unkeyed(next) || Rekeyed(prior, next))
    && forall i :: 0 <= i < |next| ==>
         var source := Source(prior, next, i);
         source.Some? ==> Patchable(prior[source.value], next[i])
  }

  /** Such lists are always patched well. */
  lemma {:induction false} PatchableIsRight(prior: VNode, next: VNode)
    requires Patchable(prior, next)
    ensures Right(prior, false, prior, next)
    decreases next, 0
  {
    if SameKind(prior, next) && next.VElement? { AllPatchableIsRight(prior.children, next.children); }
  }

  lemma {:induction false} AllPatchableIsRight(prior: seq<VNode>, next: seq<VNode>)
    requires AllPatchable(prior, next)
    ensures AllRight(prior, false, prior, next)
    decreases next, 1
  {
    forall i | 0 <= i < |next| ensures RightAt(prior, false, prior, next, i) {
      ChoiceWhenListed(prior, next, i);
      var source := Source(prior, next, i);
      if source.Some? { PatchableIsRight(prior[source.value], next[i]); }
    }
  }

  /** A new key after a move goes wrong: its child gets a node that was built for one old child
      and is compared with another, so an attribute survives. */
  lemma FreshKeyAfterMoveGoesWrong()
    ensures var a := VElement("a", "p", map["title" := Text("x")], [], []);
            var b := VElement("b", "p", map[], [], []);
            var c := VElement("c", "p", map[], [], []);
            && ChoiceAt(2, [a, b], [b, c], 1) == Take(0, 1)
            && PatchedTrees(AllFresh([a, b]), [a, b], [b, c]) != Some(AllFresh([b, c]))
  {
    var a := VElement("a", "p", map["title" := Text("x")], [], []);
    var b := VElement("b", "p", map[], [], []);
    var c := VElement("c", "p", map[], [], []);
    assert KeyedIndex([a, b], "b") == Some(1);
    assert [a, b][..1] == [a] && [a][..0] == [];
    assert KeyedIndex([a], "c") == KeyedIndex([], "c") == None;
    assert KeyedIndex([a, b], "c") == KeyedIndex([a], "c");
    assert MarksAt(2, [a, b], [b, c], 0) == Marks({}, {});
    assert ChoiceAt(2, [a, b], [b, c], 0) == Take(1, 1);
    assert MarksAt(2, [a, b], [b, c], 1) == Marks({1}, {});
    assert ChoiceAt(2, [a, b], [b, c], 1) == Take(0, 1);
    assert !Right(a, false, b, c) by { assert Shown("title", a.attrs["title"]); }
    assert !RightAt([a, b], false, [a, b], [b, c], 1);
    PatchedTreesRightIff([a, b], false, [a, b], [b, c]);
  }

  /** Two new children with the key of an old one of another kind: the second finds a node that
      has been replaced, and replacing it once more fails. */
  lemma DoubledKeyFails()
    ensures var a := VElement("a", "p", map[], [], []);
            var b := VElement("a", "div", map[], [], []);
            PatchedTrees(AllFresh([a]), [a], [b, b]) == None
  {
    var a := VElement("a", "p", map[], [], []);
    var b := VElement("a", "div", map[], [], []);
    assert KeyedIndex([a], "a") == Some(0);
    assert MarksAt(1, [a], [b, b], 0) == Marks({}, {});
    assert ChoiceAt(1, [a], [b, b], 0) == Take(0, 0);
    assert MarksAt(1, [a], [b, b], 1) == Marks({}, {0});
    assert PatchedAt(AllFresh([a]), [a], [b, b], 1) == None;
    assert !NoneFails(AllFresh([a]), [a], [b, b]);
  }

  /** A replaced node that is taken over again keeps the listener of an event with a colon in its name. */
  lemma ReplacedKeepsListener()
    ensures var e := Event("app:changed", Handler(5), [], false, false, false, false, false);
            var a := VElement("a", "p", map[], [e], []);
            var b := VElement("a", "div", map[], [], []);
            PatchedTrees(AllFresh([a]), [a], [b, a]) != Some(AllFresh([b, a]))
  {
    var e := Event("app:changed", Handler(5), [], false, false, false, false, false);
    var a := VElement("a", "p", map[], [e], []);
    var b := VElement("a", "div", map[], [], []);
    assert [e][..0] == [] && e.name[3] == ':';
    assert KeyOf(e) in Recorded([e]) && Recorded([e])[KeyOf(e)] == e && !ColonFree(e);
    assert KeyedIndex([a], "a") == Some(0);
    assert MarksAt(1, [a], [b, a], 0) == Marks({}, {});
    assert ChoiceAt(1, [a], [b, a], 0) == Take(0, 0);
    assert MarksAt(1, [a], [b, a], 1) == Marks({}, {0});
    assert ChoiceAt(1, [a], [b, a], 1) == Take(0, 0);
    assert !Right(a, true, a, a);
    assert !RightAt([a], false, [a], [b, a], 1);
    PatchedTreesRightIff([a], false, [a], [b, a]);
  }
}
