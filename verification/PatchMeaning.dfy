/** What building and patching a node leave, case by case, told from the descriptions alone. */
module PatchMeaning {
  import opened Options
  import opened EventKeys
  import opened PatchModel

  // ---------------------------------------------------------------- attributes

  predicate Has(attrs: map<string, string>, k: string, x: string) {
    k in attrs && attrs[k] == x
  }

  /** A described value shows as text `x`: a text as it is, `true` as the empty text; `false`, an
      absent value and the name `key` do not show. */
  predicate ShowsAs(k: string, value: AttrValue, x: string) {
    k != "key" && (value == Text(x) || (value == Flag(true) && x == ""))
  }

  /** An element has the attributes described, and no others. */
  ghost predicate AttrsBuilt(attrs: map<string, string>, described: Attrs) {
    forall k, x :: Has(attrs, k, x) <==> k in described && ShowsAs(k, described[k], x)
  }

  /** Patching sets what is described now, and drops what only was described before. */
  ghost predicate AttrsPatched(was: map<string, string>, before: Attrs, after: Attrs, attrs: map<string, string>) {
    forall k, x :: Has(attrs, k, x) <==> if k in after then ShowsAs(k, after[k], x) else Has(was, k, x) && k !in before
  }

  lemma PatchedIff(was: map<string, string>, before: Attrs, after: Attrs, attrs: map<string, string>)
    ensures AttrsPatched(was, before, after, attrs) <==> attrs == Patched(was, before, after)
  {
    var p := Patched(was, before, after);
    forall k, x ensures Has(p, k, x) <==> if k in after then ShowsAs(k, after[k], x) else Has(was, k, x) && k !in before {}
    if AttrsPatched(was, before, after, attrs) {
      SameAttrs(attrs, p);
    }
  }

  lemma RenderedIff(attrs: map<string, string>, described: Attrs)
    ensures AttrsBuilt(attrs, described) <==> attrs == Rendered(described)
  {
    var p := Rendered(described);
    forall k, x ensures Has(p, k, x) <==> k in described && ShowsAs(k, described[k], x) {}
    if AttrsBuilt(attrs, described) {
      SameAttrs(attrs, p);
    }
  }

  lemma SameAttrs(a: map<string, string>, b: map<string, string>)
    requires forall k, x :: Has(a, k, x) <==> Has(b, k, x)
    ensures a == b
  {
    forall k | k in a ensures k in b && b[k] == a[k] { assert Has(a, k, a[k]) && Has(b, k, a[k]); }
    forall k | k in b ensures k in a { assert Has(b, k, b[k]) && Has(a, k, b[k]); }
  }

  // ---------------------------------------------------------------- listeners

  predicate HasListener(listeners: map<string, Event>, k: string, e: Event) {
    k in listeners && listeners[k] == e
  }

  /** Some event has this key. */
  predicate KeyIn(events: seq<Event>, k: string) {
    exists i :: 0 <= i < |events| && KeyOf(events[i]) == k
  }

  /** The first event with this key. */
  predicate FirstWith(events: seq<Event>, k: string, e: Event) {
    exists i :: 0 <= i < |events| && events[i] == e && KeyOf(e) == k && !KeyIn(events[..i], k)
  }

  lemma {:induction false} RecordedIff(events: seq<Event>, k: string, e: Event)
    ensures HasListener(Recorded(events), k, e) <==> FirstWith(events, k, e)
    ensures k in Recorded(events) <==> KeyIn(events, k)
  {
    hide KeyOf;
    RecordedMeaning(events, k);
    if events != [] {
      var n := |events| - 1;
      RecordedMeaning(events[..n], k);
      RecordedIff(events[..n], k, e);
      assert forall i :: 0 <= i <= n ==> events[..n][..i] == events[..i];
      if FirstWith(events[..n], k, e) {
        var i :| 0 <= i < n && events[..n][i] == e && KeyOf(e) == k && !KeyIn(events[..n][..i], k);
        assert events[i] == e && !KeyIn(events[..i], k);
      }
      if FirstWith(events, k, e) {
        var i :| 0 <= i < |events| && events[i] == e && KeyOf(e) == k && !KeyIn(events[..i], k);
        if i < n { assert events[..n][i] == e && !KeyIn(events[..n][..i], k); }
      }
    }
  }

  /** An element registers the first event with each key. */
  ghost predicate ListenersBuilt(listeners: map<string, Event>, events: seq<Event>) {
    forall k, e :: HasListener(listeners, k, e) <==> FirstWith(events, k, e)
  }

  /** Patching keeps a record under a key that is described now, adds a missing one, and drops one
      that only was described before. */
  ghost predicate ListenersPatched(was: map<string, Event>, before: seq<Event>, after: seq<Event>, listeners: map<string, Event>) {
    forall k, e :: HasListener(listeners, k, e) <==>
      if k in was then HasListener(was, k, e) && (KeyIn(after, k) || !KeyIn(before, k)) else FirstWith(after, k, e)
  }

  /** The record of `e` is dropped, but `e` was not registered under the name that is removed. */
  ghost predicate LosesTrack(was: map<string, Event>, before: seq<Event>, after: seq<Event>, e: Event) {
    exists k, b :: HasListener(was, k, e) && FirstWith(before, k, b) && !KeyIn(after, k) && b.name != e.name
  }

  lemma SameListeners(a: map<string, Event>, b: map<string, Event>)
    requires forall k, e :: HasListener(a, k, e) <==> HasListener(b, k, e)
    ensures a == b
  {
    forall k | k in a ensures k in b && b[k] == a[k] { assert HasListener(a, k, a[k]) && HasListener(b, k, a[k]); }
    forall k | k in b ensures k in a { assert HasListener(b, k, b[k]) && HasListener(a, k, b[k]); }
  }

  lemma ListenersBuiltIff(listeners: map<string, Event>, events: seq<Event>)
    ensures ListenersBuilt(listeners, events) <==> listeners == Recorded(events)
  {
    forall k, e ensures HasListener(Recorded(events), k, e) <==> FirstWith(events, k, e) { RecordedIff(events, k, e); }
    hide Recorded, FirstWith;
    if ListenersBuilt(listeners, events) { SameListeners(listeners, Recorded(events)); }
  }

  lemma ListenedIff(was: map<string, Event>, before: seq<Event>, after: seq<Event>, listeners: map<string, Event>)
    ensures ListenersPatched(was, before, after, listeners) <==> listeners == Listened(was, before, after)
  {
    var l := Listened(was, before, after);
    forall k, e ensures HasListener(l, k, e) <==>
      if k in was then HasListener(was, k, e) && (KeyIn(after, k) || !KeyIn(before, k)) else FirstWith(after, k, e)
    {
      RecordedIff(after, k, e);
      RecordedIff(before, k, e);
      hide Recorded, FirstWith, KeyIn;
    }
    hide Listened, FirstWith, KeyIn;
    if ListenersPatched(was, before, after, listeners) { SameListeners(listeners, l); }
  }

  lemma ForgottenIff(was: map<string, Event>, before: seq<Event>, after: seq<Event>, e: Event)
    ensures e in Forgotten(was, before, after) <==> LosesTrack(was, before, after, e)
  {
    forall k ensures (k in Recorded(before) <==> KeyIn(before, k)) && (k in Recorded(after) <==> KeyIn(after, k))
    {
      RecordedIff(before, k, e);
      RecordedIff(after, k, e);
    }
    forall k, b ensures HasListener(Recorded(before), k, b) <==> FirstWith(before, k, b) { RecordedIff(before, k, b); }
    hide Recorded, FirstWith, KeyIn;
    if e in Forgotten(was, before, after) {
      var k :| k in was && k in Recorded(before) && k !in Recorded(after) && Recorded(before)[k].name != was[k].name && was[k] == e;
      assert HasListener(was, k, e) && HasListener(Recorded(before), k, Recorded(before)[k]);
    }
    if LosesTrack(was, before, after, e) {
      var k, b :| HasListener(was, k, e) && FirstWith(before, k, b) && !KeyIn(after, k) && b.name != e.name;
      assert HasListener(Recorded(before), k, b);
    }
  }

  /** Removing all listeners leaves those with a colon in their names. */
  lemma LeftBehindIff(listeners: map<string, Event>, e: Event)
    requires forall k :: k in listeners ==> KeyOf(listeners[k]) == k
    ensures e in LeftBehind(listeners) <==> HasListener(listeners, KeyOf(e), e) && ':' in e.name
  {
    FirstPartIff(e);
    if e in LeftBehind(listeners) {
      var k :| k in listeners && FirstPart(k) != listeners[k].name && listeners[k] == e;
      assert k == KeyOf(e);
    }
  }

  /** What keys look like. */
  lemma HandlerKey(e: Event)
    requires e.name == "click" && e.mappers == [3, 40] && e.action == Handler(12)
    ensures KeyOf(e) == "click:12:3,40:" + Flags(e)
  {
    assert Decimal(12) == "12" && Decimal(3) == "3" && Decimal(40) == "40" by { assert Decimal(1) == "1" && Decimal(4) == "4"; }
    assert Joined([3, 40]) == "3,40" by { assert [3, 40][1..] == [40]; }
    hide Flags, Decimal, Joined;
    assert "click" + [':'] + ("12" + [':'] + "3,40" + [':'] + Flags(e)) == "click:12:3,40:" + Flags(e);
  }

  lemma MessageKey(e: Event)
    requires e.name == "click" && e.mappers == [] && e.action == Message("m")
    ensures KeyOf(e) == "click:message:m::" + Flags(e)
  {
    hide Flags, Decimal;
    assert "message:" + "m" == "message:m";
    assert "click" + [':'] + ("message:m" + [':'] + "" + [':'] + Flags(e)) == "click:message:m::" + Flags(e);
  }

  lemma FlagsLookLike(e: Event)
    ensures |Flags(e)| == 9 && Flags(e)[1] == Flags(e)[3] == Flags(e)[5] == Flags(e)[7] == ':'
    ensures Flags(e)[0] == (if e.capture then '1' else '0') && Flags(e)[2] == (if e.passive then '1' else '0')
    ensures Flags(e)[4] == (if e.preventDefault then '1' else '0') && Flags(e)[6] == (if e.stopPropagation then '1' else '0')
    ensures Flags(e)[8] == (if e.pointerCapture then '1' else '0')
  {
  }

  // ---------------------------------------------------------------- building

  /** A subtree is what a description asks for. */
  ghost predicate Builds(t: Tree, v: VNode)
    decreases v
  {
    match v
    case VText(_, value) => t == TreeText(value)
    case VElement(_, tag, attrs, events, children) =>
      && t.TreeElement? && t.tag == tag && AttrsBuilt(t.attrs, attrs) && ListenersBuilt(t.listeners, events) && t.stray == multiset{}
      && |t.children| == |children| && forall i :: 0 <= i < |children| ==> Builds(t.children[i], children[i])
  }

  lemma {:induction false} BuildsIff(t: Tree, v: VNode)
    ensures Builds(t, v) <==> t == Fresh(v)
    decreases v
  {
    if v.VElement? && t.TreeElement? {
      RenderedIff(t.attrs, v.attrs);
      ListenersBuiltIff(t.listeners, v.events);
      if |t.children| == |v.children| {
        forall i | 0 <= i < |v.children| ensures Builds(t.children[i], v.children[i]) <==> t.children[i] == AllFresh(v.children)[i] {
          BuildsIff(t.children[i], v.children[i]);
        }
        hide Builds, AttrsBuilt, ListenersBuilt, Recorded, Rendered;
        assert (forall i :: 0 <= i < |v.children| ==> Builds(t.children[i], v.children[i])) <==> t.children == AllFresh(v.children);
      }
    }
  }

  // ---------------------------------------------------------------- patching a node

  /** Texts, and elements with one tag, are patched; anything else is built anew. */
  predicate Continues(prior: VNode, next: VNode) {
    (prior.VText? && next.VText?) || (prior.VElement? && next.VElement? && prior.tag == next.tag)
  }

  /** The text of a node is set: a node that has this text already stays as it is. */
  ghost predicate TextSet(t: Tree, value: string, r: Tree) {
    && TextOf(r) == value
    && (t.TreeText? ==> r.TreeText?)
    && (t.TreeElement? ==> r.TreeElement? && r == t.(children := r.children))
    && (TextOf(t) == value ==> r == t)
    && (t.TreeElement? && TextOf(t) != value ==> r.children == if value == "" then [] else [TreeText(value)])
  }

  lemma TextSetIff(t: Tree, value: string, r: Tree)
    ensures TextSet(t, value, r) <==> r == Retexted(t, value)
  {
    assert TextOfAll([]) == "" && [TreeText(value)][1..] == [];
    assert TextOfAll([TreeText(value)]) == value + "";
  }

  /** The text of a list of nodes is that of its parts, in order. */
  lemma {:induction false} TextJoined(ts: seq<Tree>, us: seq<Tree>)
    ensures TextOfAll(ts + us) == TextOfAll(ts) + TextOfAll(us)
  {
    if ts == [] {
      assert ts + us == us;
    } else {
      assert (ts + us)[0] == ts[0] && (ts + us)[1..] == ts[1..] + us;
      TextJoined(ts[1..], us);
    }
  }

  /** What patching an element does to it besides its children. */
  ghost predicate ElementPatched(t: Tree, prior: VNode, next: VNode, r: Tree)
    requires t.TreeElement? && prior.VElement? && next.VElement?
  {
    && r.TreeElement? && r.tag == t.tag
    && AttrsPatched(t.attrs, prior.attrs, next.attrs, r.attrs)
    && ListenersPatched(t.listeners, prior.events, next.events, r.listeners)
    && forall e :: r.stray[e] == t.stray[e] + if LosesTrack(t.listeners, prior.events, next.events, e) then 1 else 0
  }

  /** What patching a node leaves: a text node that is taken for an element cannot have attributes set
      or take children. */
  ghost predicate NodePatched(t: Tree, prior: VNode, next: VNode, r: Option<Tree>) {
    if !Continues(prior, next) then r.Some? && Builds(r.value, next)
    else if next.VText? then r.Some? && TextSet(t, next.value, r.value)
    else if t.TreeText? then
      if next.children == [] && (forall k :: k !in prior.attrs && k !in next.attrs) then r == Some(t) else r == None
    else
      var kids := PatchedTrees(t.children, prior.children, next.children);
      if kids.None? then r == None else r.Some? && ElementPatched(t, prior, next, r.value) && r.value.children == kids.value
  }

  lemma NodePatchedIff(t: Tree, prior: VNode, next: VNode, r: Option<Tree>)
    ensures NodePatched(t, prior, next, r) <==> r == PatchedTree(t, prior, next)
  {
    if !Continues(prior, next) {
      if r.Some? { BuildsIff(r.value, next); }
    } else if next.VText? {
      if r.Some? { TextSetIff(t, next.value, r.value); }
    } else if t.TreeText? {
      assert (forall k :: k !in prior.attrs && k !in next.attrs) <==> prior.attrs.Keys == {} && next.attrs.Keys == {};
    } else if r.Some? && r.value.TreeElement? {
      ElementPatchedIff(t, prior, next, r.value);
      hide ElementPatched, Patched, Listened, Forgotten, PatchedTrees;
    }
  }

  lemma ElementPatchedIff(t: Tree, prior: VNode, next: VNode, r: Tree)
    requires t.TreeElement? && prior.VElement? && next.VElement? && r.TreeElement?
    ensures ElementPatched(t, prior, next, r) <==>
              && r.tag == t.tag && r.attrs == Patched(t.attrs, prior.attrs, next.attrs)
              && r.listeners == Listened(t.listeners, prior.events, next.events)
              && r.stray == t.stray + multiset(Forgotten(t.listeners, prior.events, next.events))
  {
    PatchedIff(t.attrs, prior.attrs, next.attrs, r.attrs);
    ListenedIff(t.listeners, prior.events, next.events, r.listeners);
    var f := Forgotten(t.listeners, prior.events, next.events);
    forall e ensures e in f <==> LosesTrack(t.listeners, prior.events, next.events, e) { ForgottenIff(t.listeners, prior.events, next.events, e); }
    hide AttrsPatched, ListenersPatched, LosesTrack, Forgotten, Patched, Listened;
    SameCounts(r.stray, t.stray, f);
  }

  lemma SameCounts(a: multiset<Event>, b: multiset<Event>, f: set<Event>)
    ensures a == b + multiset(f) <==> forall e :: a[e] == b[e] + if e in f then 1 else 0
  {
    assert forall e :: (b + multiset(f))[e] == b[e] + if e in f then 1 else 0;
  }

  // ---------------------------------------------------------------- which node a child takes

  /** The last of the old children that have a node and this key. */
  ghost predicate LastKeyed(n: nat, prior: seq<VNode>, key: string, j: nat) {
    j < n && j < |prior| && prior[j].key == key && forall k :: j < k < n && k < |prior| ==> prior[k].key != key
  }

  /** An earlier child started from old node `s`. */
  ghost predicate Touched(n: nat, prior: seq<VNode>, next: seq<VNode>, i: nat, s: nat)
    requires i <= |next|
  {
    exists j :: 0 <= j < i && TakesNode(ChoiceAt(n, prior, next, j), s)
  }

  predicate TakesNode(c: Choice, s: nat) {
    c.Take? && c.node == s
  }

  /** An earlier child keeps old node `s`. */
  ghost predicate Kept(n: nat, prior: seq<VNode>, next: seq<VNode>, i: nat, s: nat)
    requires i <= |next|
  {
    exists j :: 0 <= j < i && TakesNode(ChoiceAt(n, prior, next, j), s) && Continues(prior[ChoiceAt(n, prior, next, j).peer], next[j])
  }

  /** An earlier child replaced old node `s`. */
  ghost predicate Replaced(n: nat, prior: seq<VNode>, next: seq<VNode>, i: nat, s: nat)
    requires i <= |next|
  {
    exists j :: 0 <= j < i && TakesNode(ChoiceAt(n, prior, next, j), s) && !Continues(prior[ChoiceAt(n, prior, next, j).peer], next[j])
  }

  lemma {:induction false} MarksMeaning(n: nat, prior: seq<VNode>, next: seq<VNode>, i: nat, s: nat)
    requires i <= |next|
    ensures s in MarksAt(n, prior, next, i).used <==> Kept(n, prior, next, i, s)
    ensures s in MarksAt(n, prior, next, i).gone <==> Replaced(n, prior, next, i, s)
  {
    hide Chosen, ChoiceAt, Continues;
    if i > 0 {
      hide MarksAt, Kept, Replaced;
      MarksMeaning(n, prior, next, i - 1, s);
      KeptNext(n, prior, next, i, s);
      MarksNext(n, prior, next, i, s);
    }
  }

  lemma MarksNext(n: nat, prior: seq<VNode>, next: seq<VNode>, i: nat, s: nat)
    requires 0 < i <= |next|
    ensures var c := ChoiceAt(n, prior, next, i - 1); var m, m' := MarksAt(n, prior, next, i - 1), MarksAt(n, prior, next, i);
            && (s in m'.used <==> s in m.used || (TakesNode(c, s) && Continues(prior[c.peer], next[i - 1])))
            && (s in m'.gone <==> s in m.gone || (TakesNode(c, s) && !Continues(prior[c.peer], next[i - 1])))
  {
    hide Chosen;
    assert MarksAt(n, prior, next, i) == Marked(prior, next[i - 1], MarksAt(n, prior, next, i - 1), ChoiceAt(n, prior, next, i - 1));
    hide MarksAt, ChoiceAt;
  }

  lemma KeptNext(n: nat, prior: seq<VNode>, next: seq<VNode>, i: nat, s: nat)
    requires 0 < i <= |next|
    ensures var c := ChoiceAt(n, prior, next, i - 1);
            && (Kept(n, prior, next, i, s) <==> Kept(n, prior, next, i - 1, s) || (TakesNode(c, s) && Continues(prior[c.peer], next[i - 1])))
            && (Replaced(n, prior, next, i, s) <==> Replaced(n, prior, next, i - 1, s) || (TakesNode(c, s) && !Continues(prior[c.peer], next[i - 1])))
  {
    hide ChoiceAt, Continues;
    var c := ChoiceAt(n, prior, next, i - 1);
    if TakesNode(c, s) {
      assert Continues(prior[c.peer], next[i - 1]) ==> Kept(n, prior, next, i, s);
      assert !Continues(prior[c.peer], next[i - 1]) ==> Replaced(n, prior, next, i, s);
    }
  }

  lemma {:induction false} KeyedIndexMeaning(prior: seq<VNode>, key: string, j: nat)
    ensures KeyedIndex(prior, key) == Some(j) <==> LastKeyed(|prior|, prior, key, j)
  {
    if prior != [] && prior[|prior| - 1].key != key {
      KeyedIndexMeaning(prior[..|prior| - 1], key, j);
      assert forall k :: 0 <= k < |prior| - 1 ==> prior[..|prior| - 1][k] == prior[k];
    }
  }

  lemma KeyedMeaning(n: nat, prior: seq<VNode>, v: VNode, j: nat)
    ensures Keyed(n, prior, v) == Some(j) <==> v.key != "" && LastKeyed(n, prior, v.key, j)
  {
    KeyedIndexMeaning(if n < |prior| then prior[..n] else prior, v.key, j);
  }

  lemma {:induction false} FirstLeftMeaning(n: nat, m: Marks, k: nat)
    ensures var f := FirstLeft(n, m, k);
            if f.Some? then k <= f.value < n && !Dealt(m, f.value) && forall s :: k <= s < f.value ==> Dealt(m, s)
            else forall s :: k <= s < n ==> Dealt(m, s)
    decreases n - k
  {
    if k < n && Dealt(m, k) { FirstLeftMeaning(n, m, k + 1); }
  }

  /** A child with the key of an old one takes that node, unless an earlier child keeps it. */
  lemma KeyedChoice(n: nat, prior: seq<VNode>, next: seq<VNode>, i: nat, j: nat)
    requires i < |next| && next[i].key != "" && LastKeyed(n, prior, next[i].key, j)
    ensures ChoiceAt(n, prior, next, i) == if Kept(n, prior, next, i, j) then Build else Take(j, j)
  {
    KeyedMeaning(n, prior, next[i], j);
    MarksMeaning(n, prior, next, i, j);
    hide Keyed, MarksAt, Kept, FirstLeft;
  }

  /** Any other child takes the first node from which no earlier child started, and is compared with
      the old child at its own place; without such a node or such an old child it is built. */
  lemma UnkeyedChoice(n: nat, prior: seq<VNode>, next: seq<VNode>, i: nat)
    requires i < |next| && (next[i].key == "" || forall k :: 0 <= k < n && k < |prior| ==> prior[k].key != next[i].key)
    ensures var c := ChoiceAt(n, prior, next, i);
            if i < |prior| && (exists s :: 0 <= s < n && !Touched(n, prior, next, i, s)) then
              c.Take? && c.peer == i && c.node < n && !Touched(n, prior, next, i, c.node) && forall s :: 0 <= s < c.node ==> Touched(n, prior, next, i, s)
            else c == Build
  {
    var keyed := Keyed(n, prior, next[i]);
    if keyed.Some? { KeyedMeaning(n, prior, next[i], keyed.value); }
    var m := MarksAt(n, prior, next, i);
    FirstLeftMeaning(n, m, 0);
    forall s: nat ensures Dealt(m, s) <==> Touched(n, prior, next, i, s) {
      MarksMeaning(n, prior, next, i, s);
      hide ChoiceAt, MarksAt, Continues;
    }
    hide Keyed, MarksAt, Touched, FirstLeft;
  }

  /** Every new child has a key of its own, which an old child has. */
  lemma RekeyedIff(prior: seq<VNode>, next: seq<VNode>)
    ensures Rekeyed(prior, next) <==>
              && (forall i :: 0 <= i < |next| ==> next[i].key != "" && exists j :: 0 <= j < |prior| && prior[j].key == next[i].key)
              && (forall i, j :: 0 <= i < |next| && 0 <= j < |next| && next[i].key == next[j].key ==> i == j)
  {
    forall i | 0 <= i < |next| ensures KeyedIndex(prior, next[i].key).Some? <==> exists j :: 0 <= j < |prior| && prior[j].key == next[i].key {
      KeyedIndexFinds(prior, next[i].key);
    }
    hide KeyedIndex;
    assert (forall i, j :: 0 <= i < j < |next| ==> next[i].key != next[j].key) <==>
           forall i, j :: 0 <= i < |next| && 0 <= j < |next| && next[i].key == next[j].key ==> i == j;
    assert Rekeyed(prior, next) <==>
             && (forall i :: 0 <= i < |next| ==> next[i].key != "" && KeyedIndex(prior, next[i].key).Some?)
             && (forall i, j :: 0 <= i < j < |next| ==> next[i].key != next[j].key);
  }

  // ---------------------------------------------------------------- patching a child list

  /** What patching a child list leaves of child `j`: a child that takes a node patches it, also one
      that was replaced before, but such a node cannot be replaced again. */
  ghost predicate ChildPatched(ts: seq<Tree>, prior: seq<VNode>, next: seq<VNode>, j: nat, r: Option<Tree>)
    requires j < |next|
  {
    var c := ChoiceAt(|ts|, prior, next, j);
    if c.Build? then r.Some? && Builds(r.value, next[j])
    else if !Replaced(|ts|, prior, next, j, c.node) then NodePatched(ts[c.node], prior[c.peer], next[j], r)
    else if Continues(prior[c.peer], next[j]) then NodePatched(Quiet(ts[c.node]), prior[c.peer], next[j], r)
    else r == None
  }

  lemma ChildPatchedIff(ts: seq<Tree>, prior: seq<VNode>, next: seq<VNode>, j: nat, r: Option<Tree>)
    requires j < |next|
    ensures ChildPatched(ts, prior, next, j, r) <==> r == PatchedAt(ts, prior, next, j)
  {
    var c := ChoiceAt(|ts|, prior, next, j);
    hide ChoiceAt, MarksAt, Builds, NodePatched, Fresh, PatchedTree, Quiet, Replaced;
    if c.Build? {
      if r.Some? { BuildsIff(r.value, next[j]); }
    } else {
      MarksMeaning(|ts|, prior, next, j, c.node);
      NodePatchedIff(ts[c.node], prior[c.peer], next[j], r);
      NodePatchedIff(Quiet(ts[c.node]), prior[c.peer], next[j], r);
    }
  }

  /** A child list is patched child by child, and fails if one of them does. */
  lemma ChildrenPatchedIff(ts: seq<Tree>, prior: seq<VNode>, next: seq<VNode>, r: seq<Tree>)
    ensures PatchedTrees(ts, prior, next) == Some(r) <==> |r| == |next| && forall j :: 0 <= j < |next| ==> ChildPatched(ts, prior, next, j, Some(r[j]))
    ensures PatchedTrees(ts, prior, next) == None <==> exists j :: 0 <= j < |next| && ChildPatched(ts, prior, next, j, None)
  {
    PatchedTreesAre(ts, prior, next);
    forall j | 0 <= j < |next|
      ensures ChildPatched(ts, prior, next, j, None) <==> PatchedAt(ts, prior, next, j) == None
      ensures j < |r| ==> (ChildPatched(ts, prior, next, j, Some(r[j])) <==> PatchedAt(ts, prior, next, j) == Some(r[j]))
    {
      ChildPatchedIff(ts, prior, next, j, None);
      if j < |r| { ChildPatchedIff(ts, prior, next, j, Some(r[j])); }
    }
    hide ChildPatched, PatchedAt;
    if PatchedTrees(ts, prior, next) == None {
      assert !NoneFails(ts, prior, next);
      var j :| 0 <= j < |next| && PatchedAt(ts, prior, next, j) == None;
      assert ChildPatched(ts, prior, next, j, None);
    } else {
      assert NoneFails(ts, prior, next);
      if |r| == |next| && forall j :: 0 <= j < |next| ==> ChildPatched(ts, prior, next, j, Some(r[j])) {
        assert PatchedTrees(ts, prior, next).value == r;
      }
    }
  }

  /** A replaced subtree has the same attributes and children, keeps no record of a listener, and is
      left with the listeners that have a colon in their names. */
  ghost predicate QuietAs(t: Tree, q: Tree) {
    if t.TreeText? then q == t
    else
      && q.TreeElement? && q.tag == t.tag && q.attrs == t.attrs && q.listeners == map[]
      && (forall e :: q.stray[e] == t.stray[e] + if HasListener(t.listeners, KeyOf(e), e) && ':' in e.name then 1 else 0)
      && |q.children| == |t.children| && forall i :: 0 <= i < |t.children| ==> QuietAs(t.children[i], q.children[i])
  }

  /** Every record of a listener is kept under the key of its event. */
  ghost predicate KeysKept(t: Tree) {
    t.TreeElement? ==>
      && (forall k :: k in t.listeners ==> KeyOf(t.listeners[k]) == k)
      && forall i :: 0 <= i < |t.children| ==> KeysKept(t.children[i])
  }

  lemma {:induction false} QuietMeaning(t: Tree)
    requires KeysKept(t)
    ensures QuietAs(t, Quiet(t))
  {
    if t.TreeElement? {
      forall i | 0 <= i < |t.children| ensures QuietAs(t.children[i], AllQuiet(t.children)[i]) { QuietMeaning(t.children[i]); }
      var f := LeftBehind(t.listeners);
      forall e ensures e in f <==> HasListener(t.listeners, KeyOf(e), e) && ':' in e.name { LeftBehindIff(t.listeners, e); }
      hide LeftBehind, HasListener, KeyOf;
      SameCounts(Quiet(t).stray, t.stray, f);
    }
  }
}
