/** Patching child lists in place, as `PatchModel` describes, and which nodes stay. Nodes are
    values here, told apart by their ids; a parent's child list is updated step by step. */
module ChildPatch {
  import opened Options
  import opened EventKeys
  import opened PatchModel
  import opened PatchMeaning

  type NodeId = nat

  datatype Dom =
    | DomText(id: NodeId, value: string)
    | DomElement(id: NodeId, tag: string, attrs: map<string, string>, listeners: map<string, Event>, stray: multiset<Event>, children: seq<Dom>)

  function Shape(d: Dom): Tree {
    match d
    case DomText(_, value) => TreeText(value)
    case DomElement(_, tag, attrs, listeners, stray, children) => TreeElement(tag, attrs, listeners, stray, Shapes(children))
  }

  function Shapes(ds: seq<Dom>): (ts: seq<Tree>)
    ensures |ts| == |ds| && forall i :: 0 <= i < |ds| ==> ts[i] == Shape(ds[i])
  {
    if ds == [] then [] else [Shape(ds[0])] + Shapes(ds[1..])
  }

  // ---------------------------------------------------------------- identity

  ghost predicate DistinctIds(ds: seq<Dom>) {
    forall i, j :: 0 <= i < j < |ds| ==> ds[i].id != ds[j].id
  }

  /** Every record of a listener is kept under the key of its event. */
  ghost predicate WellKeyed(listeners: map<string, Event>) {
    forall k :: k in listeners ==> KeyOf(listeners[k]) == k
  }

  /** Siblings have different ids, all below `n`, and listeners are recorded under their keys. */
  ghost predicate Sound(d: Dom, n: NodeId) {
    d.id < n && (d.DomElement? ==> WellKeyed(d.listeners) && AllSound(d.children, n))
  }

  ghost predicate AllSound(ds: seq<Dom>, n: NodeId) {
    DistinctIds(ds) && forall i :: 0 <= i < |ds| ==> Sound(ds[i], n)
  }

  lemma {:induction false} SoundLater(d: Dom, n: NodeId, m: NodeId)
    requires Sound(d, n) && n <= m
    ensures Sound(d, m)
  {
    if d.DomElement? {
      forall i | 0 <= i < |d.children| ensures Sound(d.children[i], m) { SoundLater(d.children[i], n, m); }
    }
  }

  lemma AllSoundLater(ds: seq<Dom>, n: NodeId, m: NodeId)
    requires AllSound(ds, n) && n <= m
    ensures AllSound(ds, m)
  {
    forall i | 0 <= i < |ds| ensures Sound(ds[i], m) { SoundLater(ds[i], n, m); }
  }

  // ---------------------------------------------------------------- replaced nodes

  /** A replaced node: the listeners of its whole subtree have been removed under the first parts of
      their keys, and their records are gone. */
  function Silenced(d: Dom): Dom {
    match d
    case DomText(_, _) => d
    case DomElement(id, tag, attrs, listeners, stray, children) =>
      DomElement(id, tag, attrs, map[], stray + multiset(LeftBehind(listeners)), AllSilenced(children))
  }

  function AllSilenced(ds: seq<Dom>): (rs: seq<Dom>)
    ensures |rs| == |ds| && forall i :: 0 <= i < |ds| ==> rs[i] == Silenced(ds[i])
  {
    if ds == [] then [] else [Silenced(ds[0])] + AllSilenced(ds[1..])
  }

  lemma {:induction false} SilencedIsQuiet(d: Dom)
    ensures Shape(Silenced(d)) == Quiet(Shape(d))
  {
    if d.DomElement? {
      forall i | 0 <= i < |d.children| ensures Shapes(AllSilenced(d.children))[i] == AllQuiet(Shapes(d.children))[i] {
        SilencedIsQuiet(d.children[i]);
      }
      assert Shapes(AllSilenced(d.children)) == AllQuiet(Shapes(d.children));
    }
  }

  lemma {:induction false} SilencedSound(d: Dom, n: NodeId)
    requires Sound(d, n)
    ensures Sound(Silenced(d), n) && Silenced(d).id == d.id
  {
    if d.DomElement? {
      var rs := AllSilenced(d.children);
      forall i | 0 <= i < |rs| ensures Sound(rs[i], n) && rs[i].id == d.children[i].id { SilencedSound(d.children[i], n); }
    }
  }

  // ---------------------------------------------------------------- attributes and listeners

  method PatchAttrs(attrs: map<string, string>, before: Attrs, after: Attrs) returns (patched: map<string, string>)
    ensures patched == Patched(attrs, before, after) && AttrsPatched(attrs, before, after, patched)
  {
    var kept := RemoveAttrs(attrs, before, after);
    patched := SetAttrs(kept, after);
    PatchedIff(attrs, before, after, patched);
  }

  /** Drops the attributes that only the old node describes. */
  method RemoveAttrs(attrs: map<string, string>, before: Attrs, after: Attrs) returns (kept: map<string, string>)
    ensures forall k :: k in kept <==> k in attrs && (k !in before || k in after)
    ensures forall k :: k in kept ==> kept[k] == attrs[k]
  {
    kept := attrs;
    var left := before.Keys;
    while left != {}
      invariant left <= before.Keys
      invariant forall k :: k in kept <==> k in attrs && (k in left || k !in before || k in after)
      invariant forall k :: k in kept ==> kept[k] == attrs[k]
      decreases |left|
    {
      var k: string :| k in left;
      if k !in after { kept := kept - {k}; }
      left := left - {k};
    }
  }

  /** Sets or removes what the new node describes. */
  method SetAttrs(kept: map<string, string>, after: Attrs) returns (shown: map<string, string>)
    ensures forall k :: k in shown <==> if k in after then Shown(k, after[k]) else k in kept
    ensures forall k :: k in shown ==> shown[k] == if k in after then Printed(after[k]) else kept[k]
  {
    shown := kept;
    var left := after.Keys;
    while left != {}
      invariant left <= after.Keys
      invariant forall k :: k in shown <==> if k in after && k !in left then Shown(k, after[k]) else k in kept
      invariant forall k :: k in shown ==> shown[k] == if k in after && k !in left then Printed(after[k]) else kept[k]
      decreases |left|
    {
      var k: string :| k in left;
      if Shown(k, after[k]) {
        shown := shown[k := Printed(after[k])];
      } else {
        shown := shown - {k};
      }
      left := left - {k};
    }
  }

  /** Listeners of events that are gone are removed, and missing ones are added. A listener whose
      record has the key of such an event but another name is forgotten instead. */
  method PatchEvents(current: map<string, Event>, before: seq<Event>, after: seq<Event>) returns (listening: map<string, Event>, lost: multiset<Event>)
    requires WellKeyed(current)
    ensures listening == Listened(current, before, after) && lost == multiset(Forgotten(current, before, after)) && WellKeyed(listening)
    ensures ListenersPatched(current, before, after, listening) && forall e :: lost[e] == if LosesTrack(current, before, after, e) then 1 else 0
  {
    hide KeyOf, Recorded, Forgotten, ListenersPatched, LosesTrack;
    var kept;
    kept, lost := DropEvents(current, before, after);
    listening := AddEvents(kept, after);
    ListenedKeyed(current, before, after);
    ListenedIff(current, before, after, listening);
    forall e ensures e in Forgotten(current, before, after) <==> LosesTrack(current, before, after, e) { ForgottenIff(current, before, after, e); }
  }

  lemma ListenedKeyed(current: map<string, Event>, before: seq<Event>, after: seq<Event>)
    requires WellKeyed(current)
    ensures WellKeyed(Listened(current, before, after))
  {
    hide KeyOf, Recorded;
    forall k | k in Recorded(after) ensures KeyOf(Recorded(after)[k]) == k { RecordedMeaning(after, k); }
  }

  method DropEvents(current: map<string, Event>, before: seq<Event>, after: seq<Event>) returns (kept: map<string, Event>, lost: multiset<Event>)
    requires WellKeyed(current)
    ensures kept == (map k | k in current && (k in Recorded(after) || k !in Recorded(before)) :: current[k])
    ensures lost == multiset(Forgotten(current, before, after))
  {
    hide KeyOf, Recorded;
    kept, lost := current, multiset{};
    var i := 0;
    RecordedNone();
    assert before[..0] == [];
    while i < |before|
      invariant 0 <= i <= |before|
      invariant kept == (map k | k in current && (k in Recorded(after) || k !in Recorded(before[..i])) :: current[k])
      invariant lost == multiset(Forgotten(current, before[..i], after))
    {
      var k := KeyOf(before[i]);
      RecordedNext(before, i);
      if k !in Recorded(after) && k in kept {
        ForgottenNext(current, before, after, i);
        if before[i].name != kept[k].name { lost := lost + multiset{kept[k]}; }
        kept := kept - {k};
      } else {
        assert Forgotten(current, before[..i + 1], after) == Forgotten(current, before[..i], after);
      }
      i := i + 1;
    }
    assert before[..|before|] == before;
  }

  method AddEvents(kept: map<string, Event>, after: seq<Event>) returns (listening: map<string, Event>)
    ensures listening == map k | k in kept.Keys + Recorded(after).Keys :: if k in kept then kept[k] else Recorded(after)[k]
  {
    hide KeyOf, Recorded;
    listening := kept;
    var i := 0;
    RecordedNone();
    assert after[..0] == [];
    while i < |after|
      invariant 0 <= i <= |after|
      invariant listening == map k | k in kept.Keys + Recorded(after[..i]).Keys :: if k in kept then kept[k] else Recorded(after[..i])[k]
    {
      var k := KeyOf(after[i]);
      RecordedNext(after, i);
      if k !in listening { listening := listening[k := after[i]]; }
      i := i + 1;
    }
    assert after[..|after|] == after;
  }

  /** An element built from scratch records the first event with each key and forgets none. */
  lemma ListenedFresh(events: seq<Event>)
    ensures Listened(map[], [], events) == Recorded(events) && multiset(Forgotten(map[], [], events)) == multiset{}
  {
    assert Forgotten(map[], [], events) == {};
  }

  lemma RecordedNone()
    ensures Recorded([]) == map[]
  {
  }

  lemma RecordedNext(events: seq<Event>, i: nat)
    requires i < |events|
    ensures var m := Recorded(events[..i]); var k := KeyOf(events[i]);
            Recorded(events[..i + 1]) == if k in m then m else m[k := events[i]]
  {
    assert events[..i + 1][..i] == events[..i];
  }

  /** One more event is dropped: its listener is forgotten if that has another name. */
  lemma ForgottenNext(current: map<string, Event>, before: seq<Event>, after: seq<Event>, i: nat)
    requires WellKeyed(current) && i < |before|
    requires var k := KeyOf(before[i]); k in current && k !in Recorded(after) && k !in Recorded(before[..i])
    ensures var e := current[KeyOf(before[i])];
            && multiset(Forgotten(current, before[..i + 1], after))
               == multiset(Forgotten(current, before[..i], after)) + (if before[i].name != e.name then multiset{e} else multiset{})
  {
    hide KeyOf, Recorded;
    RecordedNext(before, i);
    var k := KeyOf(before[i]);
    var e := current[k];
    var f, g := Forgotten(current, before[..i], after), Forgotten(current, before[..i + 1], after);
    assert e !in f;
    if before[i].name != e.name {
      assert g == f + {e};
      assert multiset(g) == multiset(f) + multiset{e};
    } else {
      assert g == f;
    }
  }

  // ---------------------------------------------------------------- the child list

  function FindId(ds: seq<Dom>, id: NodeId): Option<nat> {
    if ds == [] then None
    else if ds[|ds| - 1].id == id then Some(|ds| - 1)
    else FindId(ds[..|ds| - 1], id)
  }

  lemma {:induction false} FindsId(ds: seq<Dom>, p: nat)
    requires DistinctIds(ds) && p < |ds|
    ensures FindId(ds, ds[p].id) == Some(p)
  {
    if p < |ds| - 1 {
      var front := ds[..|ds| - 1];
      assert front[p] == ds[p];
      FindsId(front, p);
    }
  }

  /** The nodes that were built or patched. */
  function Keep(ds: seq<Dom>, used: set<NodeId>): seq<Dom> {
    if ds == [] then [] else (if ds[0].id in used then [ds[0]] else []) + Keep(ds[1..], used)
  }

  lemma {:induction false} KeepsFront(ds: seq<Dom>, used: set<NodeId>, n: nat)
    requires n <= |ds| && forall i :: 0 <= i < |ds| ==> (ds[i].id in used <==> i < n)
    ensures Keep(ds, used) == ds[..n]
  {
    if ds != [] {
      assert forall i :: 0 <= i < |ds[1..]| ==> ds[1..][i] == ds[i + 1];
      if n > 0 {
        KeepsFront(ds[1..], used, n - 1);
        assert ds[..n] == [ds[0]] + ds[1..][..n - 1];
      } else {
        KeepsFront(ds[1..], used, 0);
      }
    }
  }

  /** Node `x` takes the place of the node at `p` and is moved to the front of the unused ones. */
  function Moved(ds: seq<Dom>, i: nat, p: nat, x: Dom): seq<Dom>
    requires i <= p < |ds|
  {
    ds[..i] + [x] + ds[i..p] + ds[p + 1..]
  }

  lemma MovedAt(ds: seq<Dom>, i: nat, p: nat, x: Dom, j: nat)
    requires i <= p < |ds| && j < |ds|
    ensures |Moved(ds, i, p, x)| == |ds|
    ensures Moved(ds, i, p, x)[j] == if j < i then ds[j] else if j == i then x else if j <= p then ds[j - 1] else ds[j]
  {
  }

  lemma MovedSound(ds: seq<Dom>, i: nat, p: nat, x: Dom, n: NodeId, m: NodeId)
    requires i <= p < |ds| && AllSound(ds, n) && n <= m && Sound(x, m) && (x.id == ds[p].id || x.id >= n)
    ensures AllSound(Moved(ds, i, p, x), m)
  {
    AllSoundLater(ds, n, m);
    var moved := Moved(ds, i, p, x);
    forall j | 0 <= j < |moved| ensures Sound(moved[j], m) { MovedAt(ds, i, p, x, j); }
    forall j, k | 0 <= j < k < |moved| ensures moved[j].id != moved[k].id {
      MovedAt(ds, i, p, x, j);
      MovedAt(ds, i, p, x, k);
      assert Sound(ds[j], n) && Sound(ds[k], n);
    }
  }

  lemma InsertedSound(ds: seq<Dom>, i: nat, x: Dom, n: NodeId, m: NodeId)
    requires i <= |ds| && AllSound(ds, n) && n <= m && Sound(x, m) && forall j :: 0 <= j < |ds| ==> ds[j].id != x.id
    ensures AllSound(ds[..i] + [x] + ds[i..], m)
  {
    AllSoundLater(ds, n, m);
    var after := ds[..i] + [x] + ds[i..];
    forall j | 0 <= j < |after| ensures Sound(after[j], m) && (j != i ==> after[j] == ds[if j < i then j else j - 1]) {
      if j != i { assert after[j] == ds[if j < i then j else j - 1]; }
    }
  }

  lemma {:induction false} FindsNone(ds: seq<Dom>, id: NodeId)
    requires forall p :: 0 <= p < |ds| ==> ds[p].id != id
    ensures FindId(ds, id) == None
  {
    if ds != [] {
      var front := ds[..|ds| - 1];
      assert forall p :: 0 <= p < |front| ==> front[p] == ds[p];
      FindsNone(front, id);
    }
  }

  // ---------------------------------------------------------------- the old nodes still to be dealt with

  /** The old nodes from `k` on that are still to be dealt with, in order. */
  ghost function Left(kids: seq<Dom>, m: Marks, k: nat): seq<Dom>
    decreases |kids| - k
  {
    if k >= |kids| then [] else (if Dealt(m, k) then [] else [kids[k]]) + Left(kids, m, k + 1)
  }

  lemma {:induction false} LeftAgrees(kids: seq<Dom>, m: Marks, m': Marks, k: nat)
    requires forall t :: t >= k ==> (Dealt(m, t) <==> Dealt(m', t))
    ensures Left(kids, m, k) == Left(kids, m', k)
    decreases |kids| - k
  {
    if k < |kids| { LeftAgrees(kids, m, m', k + 1); }
  }

  lemma {:induction false} LeftAll(kids: seq<Dom>, k: nat)
    requires k <= |kids|
    ensures Left(kids, Marks({}, {}), k) == kids[k..]
    decreases |kids| - k
  {
    if k < |kids| { LeftAll(kids, k + 1); }
  }

  lemma {:induction false} LeftOnly(kids: seq<Dom>, m: Marks, k: nat, q: nat) returns (s: nat)
    requires q < |Left(kids, m, k)|
    ensures k <= s < |kids| && !Dealt(m, s) && Left(kids, m, k)[q] == kids[s]
    decreases |kids| - k
  {
    if Dealt(m, k) { s := LeftOnly(kids, m, k + 1, q); }
    else if q == 0 { s := k; }
    else { s := LeftOnly(kids, m, k + 1, q - 1); }
  }

  lemma {:induction false} LeftNone(kids: seq<Dom>, m: Marks, k: nat)
    requires FirstLeft(|kids|, m, k).None?
    ensures Left(kids, m, k) == []
    decreases |kids| - k
  {
    if k < |kids| { LeftNone(kids, m, k + 1); }
  }

  lemma Prefixed(x: Dom, rest: seq<Dom>, without: seq<Dom>, q: nat)
    requires q < |rest| && without == rest[..q] + rest[q + 1..]
    ensures var l := [x] + rest; l[q + 1] == rest[q] && [x] + without == l[..q + 1] + l[q + 2..]
  {
  }

  lemma Headless(x: Dom, rest: seq<Dom>)
    ensures var l := [x] + rest; l[0] == x && l[..0] + l[1..] == rest
  {
  }

  lemma LeftHere(kids: seq<Dom>, m: Marks, m': Marks, k: nat)
    requires k < |kids| && !Dealt(m, k) && forall t :: Dealt(m', t) <==> Dealt(m, t) || t == k
    ensures var left := Left(kids, m, k); |left| > 0 && left[0] == kids[k] && Left(kids, m', k) == left[..0] + left[1..]
  {
    hide Dealt;
    LeftStep(kids, m, k);
    LeftStep(kids, m', k);
    LeftAgrees(kids, m, m', k + 1);
    hide Left;
    Headless(kids[k], Left(kids, m, k + 1));
  }

  /** Dealing with old node `s` takes it out of those left, and leaves the others in order. */
  lemma {:induction false} LeftWithout(kids: seq<Dom>, m: Marks, m': Marks, s: nat, k: nat) returns (q: nat)
    requires k <= s < |kids| && !Dealt(m, s) && forall t :: Dealt(m', t) <==> Dealt(m, t) || t == s
    ensures var left := Left(kids, m, k); q < |left| && left[q] == kids[s] && Left(kids, m', k) == left[..q] + left[q + 1..]
    ensures FirstLeft(|kids|, m, k) == Some(s) ==> q == 0
    decreases |kids| - k
  {
    hide Left, FirstLeft;
    if k == s {
      LeftHere(kids, m, m', k);
      q := 0;
    } else {
      q := LeftWithout(kids, m, m', s, k + 1);
      LeftStep(kids, m, k);
      LeftStep(kids, m', k);
      FirstLeftStep(|kids|, m, k);
      assert Dealt(m', k) <==> Dealt(m, k);
      hide Dealt;
      if !Dealt(m, k) {
        Prefixed(kids[k], Left(kids, m, k + 1), Left(kids, m', k + 1), q);
        q := q + 1;
      }
    }
  }

  lemma FirstLeftStep(n: nat, m: Marks, k: nat)
    requires k < n
    ensures FirstLeft(n, m, k) == if Dealt(m, k) then FirstLeft(n, m, k + 1) else Some(k)
  {
  }

  lemma LeftStep(kids: seq<Dom>, m: Marks, k: nat)
    requires k < |kids|
    ensures Left(kids, m, k) == if Dealt(m, k) then Left(kids, m, k + 1) else [kids[k]] + Left(kids, m, k + 1)
  {
  }

  // ---------------------------------------------------------------- where the loop over the new children stands

  /** New child `j` has the node that it starts from if that was compared with an old child of the
      same kind, and a new one otherwise. */
  ghost predicate Keeps(kids: seq<Dom>, prior: seq<VNode>, next: seq<VNode>, j: nat, id: NodeId, n: NodeId)
    requires j < |next|
  {
    var c := ChoiceAt(|kids|, prior, next, j);
    if c.Take? && SameKind(prior[c.peer], next[j]) then id == kids[c.node].id else id >= n
  }

  ghost predicate Done(kids: seq<Dom>, prior: seq<VNode>, next: seq<VNode>, j: nat, d: Dom, n: NodeId)
    requires j < |next|
  {
    PatchedAt(Shapes(kids), prior, next, j) == Some(Shape(d)) && Keeps(kids, prior, next, j, d.id, n)
  }

  /** `now` is the child list when `i` new children are done: these, and the old nodes left. */
  ghost predicate Lined(kids: seq<Dom>, prior: seq<VNode>, next: seq<VNode>, i: nat, now: seq<Dom>, n: NodeId)
    requires i <= |next|
  {
    && i <= |now|
    && (forall j :: 0 <= j < i ==> Done(kids, prior, next, j, now[j], n))
    && now[i..] == Left(kids, MarksAt(|kids|, prior, next, i), 0)
  }

  /** The ids in use are those of the first `i` nodes of the list, and the old ones among them are marked. */
  ghost predicate InUse(kids: seq<Dom>, m: Marks, i: nat, now: seq<Dom>, used: set<NodeId>) {
    && (forall j :: 0 <= j < |now| ==> (now[j].id in used <==> j < i))
    && (forall k :: 0 <= k < |kids| ==> (kids[k].id in used <==> k in m.used))
  }

  /** A replaced node is out of the list. */
  lemma NotLocated(kids: seq<Dom>, m: Marks, i: nat, now: seq<Dom>, used: set<NodeId>, s: nat)
    requires DistinctIds(kids) && i <= |now| && now[i..] == Left(kids, m, 0) && InUse(kids, m, i, now, used)
    requires s < |kids| && Dealt(m, s) && s !in m.used
    ensures FindId(now, kids[s].id) == None
  {
    forall j | 0 <= j < |now| ensures now[j].id != kids[s].id {
      if j >= i {
        var t := LeftOnly(kids, m, 0, j - i);
        assert now[j] == now[i..][j - i] == kids[t];
        assert if t < s then kids[t].id != kids[s].id else kids[s].id != kids[t].id;
      }
    }
    FindsNone(now, kids[s].id);
  }

  /** Any other old node is behind the done ones, and taking it out leaves the others as they are. */
  lemma Located(kids: seq<Dom>, m: Marks, m': Marks, i: nat, now: seq<Dom>, s: nat) returns (p: nat)
    requires DistinctIds(now) && i <= |now| && now[i..] == Left(kids, m, 0)
    requires s < |kids| && !Dealt(m, s) && forall t :: Dealt(m', t) <==> Dealt(m, t) || t == s
    ensures i <= p < |now| && now[p] == kids[s] && FindId(now, kids[s].id) == Some(p)
    ensures now[i..p] + now[p + 1..] == Left(kids, m', 0)
  {
    hide Dealt;
    var q := LeftWithout(kids, m, m', s, 0);
    p := i + q;
    assert now[p] == now[i..][q];
    FindsId(now, p);
    assert now[i..][..q] == now[i..p] && now[i..][q + 1..] == now[p + 1..];
  }

  /** Without the key of an old child, new child `i` finds the first old node left at its place. */
  lemma FindsFirst(kids: seq<Dom>, prior: seq<VNode>, next: seq<VNode>, i: nat, now: seq<Dom>, n: NodeId)
    requires i < |next| && Lined(kids, prior, next, i, now, n)
    ensures i <= |now|
    ensures var f := FirstLeft(|kids|, MarksAt(|kids|, prior, next, i), 0); if f.Some? then i < |now| && now[i] == kids[f.value] else i == |now|
  {
    var m := MarksAt(|kids|, prior, next, i);
    var f := FirstLeft(|kids|, m, 0);
    if f.Some? {
      var q := LeftWithout(kids, m, m.(used := m.used + {f.value}), f.value, 0);
      assert now[i] == now[i..][0];
    } else {
      LeftNone(kids, m, 0);
    }
  }

  /** A node behind the done ones is patched or replaced, and moved into place. */
  lemma LinedMoved(kids: seq<Dom>, prior: seq<VNode>, next: seq<VNode>, i: nat, now: seq<Dom>, n: NodeId, p: nat, x: Dom)
    requires i < |next| && Lined(kids, prior, next, i, now, n) && Done(kids, prior, next, i, x, n) && i <= p < |now|
    requires now[i..p] + now[p + 1..] == Left(kids, MarksAt(|kids|, prior, next, i + 1), 0)
    ensures Lined(kids, prior, next, i + 1, Moved(now, i, p, x), n)
  {
    var moved := Moved(now, i, p, x);
    forall j | 0 <= j < i + 1 ensures Done(kids, prior, next, j, moved[j], n) { MovedAt(now, i, p, x, j); }
    assert moved[i + 1..] == now[i..p] + now[p + 1..];
  }

  /** A new node, or one that was out of the list, is put into place. */
  lemma LinedInserted(kids: seq<Dom>, prior: seq<VNode>, next: seq<VNode>, i: nat, now: seq<Dom>, n: NodeId, x: Dom)
    requires i < |next| && Lined(kids, prior, next, i, now, n) && Done(kids, prior, next, i, x, n)
    requires forall t :: Dealt(MarksAt(|kids|, prior, next, i + 1), t) <==> Dealt(MarksAt(|kids|, prior, next, i), t)
    ensures i <= |now| && Lined(kids, prior, next, i + 1, now[..i] + [x] + now[i..], n)
  {
    LeftAgrees(kids, MarksAt(|kids|, prior, next, i), MarksAt(|kids|, prior, next, i + 1), 0);
    var after := now[..i] + [x] + now[i..];
    forall j | 0 <= j < i + 1 ensures Done(kids, prior, next, j, after[j], n) { assert j < i ==> after[j] == now[j]; }
    assert after[i + 1..] == now[i..];
  }

  lemma UsedMoved(kids: seq<Dom>, m: Marks, m': Marks, i: nat, now: seq<Dom>, used: set<NodeId>, p: nat, x: Dom, b: NodeId, s: nat)
    requires i <= p < |now| && AllSound(now, b) && InUse(kids, m, i, now, used) && s < |kids| && DistinctIds(kids)
    requires forall k :: 0 <= k < |kids| ==> kids[k].id < b
    requires now[p] == kids[s] && if x.id == kids[s].id then m'.used == m.used + {s} else x.id >= b && m'.used == m.used
    ensures InUse(kids, m', i + 1, Moved(now, i, p, x), used + {x.id})
  {
    var after := Moved(now, i, p, x);
    forall j | 0 <= j < |after| ensures after[j].id in used + {x.id} <==> j < i + 1 {
      MovedAt(now, i, p, x, j);
      if j > i {
        var k := if j <= p then j - 1 else j;
        assert after[j] == now[k] && k != p && Sound(now[k], b);
      }
    }
  }

  lemma UsedInserted(kids: seq<Dom>, m: Marks, m': Marks, i: nat, now: seq<Dom>, used: set<NodeId>, x: Dom)
    requires i <= |now| && InUse(kids, m, i, now, used) && forall j :: 0 <= j < |now| ==> now[j].id != x.id
    requires forall k :: 0 <= k < |kids| ==> (k in m'.used <==> k in m.used || kids[k].id == x.id)
    ensures InUse(kids, m', i + 1, now[..i] + [x] + now[i..], used + {x.id})
  {
    var after := now[..i] + [x] + now[i..];
    forall j | 0 <= j < |after| ensures after[j].id in used + {x.id} <==> j < i + 1 {
      if j < i { assert after[j] == now[j]; } else if j > i { assert after[j] == now[j - 1]; }
    }
  }

  // ---------------------------------------------------------------- building and patching

  class Patcher {
    var nextId: NodeId

    constructor ()
      ensures nextId == 0
    {
      nextId := 0;
    }

    method CreateDom(v: VNode) returns (d: Dom)
      modifies this
      ensures nextId > old(nextId) && Sound(d, nextId) && d.id >= old(nextId) && Shape(d) == Fresh(v) && Builds(Shape(d), v)
      decreases v, 1
    {
      BuildsIff(Fresh(v), v);
      hide Builds, AttrsPatched, ListenersPatched, LosesTrack;
      var id := nextId;
      nextId := nextId + 1;
      match v
      case VText(_, value) => d := DomText(id, value);
      case VElement(_, tag, attrs, events, children) =>
        var rendered := PatchAttrs(map[], map[], attrs);
        PatchedIsRendered(map[], map[], attrs);
        var listeners, lost := PatchEvents(map[], [], events);
        var kids := CreateAll(children);
        d := DomElement(id, tag, rendered, listeners, lost, kids);
        ListenedFresh(events);
    }

    method CreateAll(vs: seq<VNode>) returns (ds: seq<Dom>)
      modifies this
      ensures nextId >= old(nextId) && AllSound(ds, nextId) && Shapes(ds) == AllFresh(vs)
      ensures forall i :: 0 <= i < |ds| ==> ds[i].id >= old(nextId)
      decreases vs, 0
    {
      if vs == [] { return []; }
      var first := CreateDom(vs[0]);
      ghost var n := nextId;
      var rest := CreateAll(vs[1..]);
      SoundLater(first, n, nextId);
      ds := [first] + rest;
    }

    method SetText(d: Dom, value: string) returns (r: Dom)
      requires Sound(d, nextId)
      modifies this
      ensures nextId >= old(nextId) && Sound(r, nextId) && r.id == d.id && Shape(r) == Retexted(Shape(d), value) && TextSet(Shape(d), value, Shape(r))
    {
      TextSetIff(Shape(d), value, Retexted(Shape(d), value));
      hide TextSet;
      if d.DomText? { return DomText(d.id, value); }
      if TextOf(Shape(d)) == value { return d; }
      var id := nextId;
      nextId := nextId + 1;
      var kids := if value == "" then [] else [DomText(id, value)];
      assert AllSound(kids, nextId);
      r := DomElement(d.id, d.tag, d.attrs, d.listeners, d.stray, kids);
    }

    /** Patches one node, or builds its replacement when the kinds of the descriptions differ. */
    method PatchNode(d: Dom, prior: VNode, next: VNode) returns (r: Option<Dom>)
      requires Sound(d, nextId)
      modifies this
      ensures nextId >= old(nextId) && (r.Some? ==> Sound(r.value, nextId))
      ensures PatchedTree(Shape(d), prior, next) == if r.Some? then Some(Shape(r.value)) else None
      ensures NodePatched(Shape(d), prior, next, if r.Some? then Some(Shape(r.value)) else None)
      ensures r.Some? ==> if Continues(prior, next) then r.value.id == d.id else r.value.id >= old(nextId)
      decreases next, 1
    {
      NodePatchedIff(Shape(d), prior, next, PatchedTree(Shape(d), prior, next));
      hide NodePatched, Builds, TextSet, AttrsPatched, ListenersPatched, LosesTrack;
      if !SameKind(prior, next) {
        var built := CreateDom(next);
        return Some(built);
      }
      match next
      case VText(_, value) =>
        var texted := SetText(d, value);
        r := Some(texted);
      case VElement(_, tag, attrs, events, children) =>
        if d.DomText? {
          return if prior.attrs.Keys != {} || attrs.Keys != {} || children != [] then None else Some(d);
        }
        var patched := PatchAttrs(d.attrs, prior.attrs, attrs);
        var listeners, lost := PatchEvents(d.listeners, prior.events, events);
        var kids := PatchChildren(d.children, prior.children, children);
        if kids.None? { return None; }
        r := Some(DomElement(d.id, d.tag, patched, listeners, d.stray + lost, kids.value));
    }

    /** Patches a child list of whatever nodes. A child keeps a node exactly as `Keeps` says. */
    method PatchChildren(kids: seq<Dom>, prior: seq<VNode>, next: seq<VNode>) returns (patched: Option<seq<Dom>>)
      requires AllSound(kids, nextId)
      modifies this
      ensures nextId >= old(nextId) && (patched.Some? ==> AllSound(patched.value, nextId))
      ensures PatchedTrees(Shapes(kids), prior, next) == if patched.Some? then Some(Shapes(patched.value)) else None
      ensures patched.Some? ==> |patched.value| == |next| && forall j :: 0 <= j < |next| ==> Keeps(kids, prior, next, j, patched.value[j].id, old(nextId))
      ensures patched.Some? ==> forall j :: 0 <= j < |next| ==> ChildPatched(Shapes(kids), prior, next, j, Some(Shape(patched.value[j])))
      ensures patched.None? ==> exists j :: 0 <= j < |next| && ChildPatched(Shapes(kids), prior, next, j, None)
      decreases next, 1
    {
      hide AllSound, Lined, Done, Sound, InUse, PatchedTrees, Keeps, ChildPatched;
      ghost var n := nextId;
      var now := kids;
      var used: set<NodeId> := {};
      Starts(kids, prior, next, n);
      var i := 0;
      while i < |next|
        invariant 0 <= i <= |next| && nextId >= n
        invariant AllSound(now, nextId) && Lined(kids, prior, next, i, now, n) && InUse(kids, MarksAt(|kids|, prior, next, i), i, now, used)
      {
        var ok;
        ok, now, used := PatchOne(kids, prior, next, i, now, used, n);
        if !ok {
          Fails(Shapes(kids), prior, next, i);
          ChildrenPatchedIff(Shapes(kids), prior, next, []);
          return None;
        }
        i := i + 1;
      }
      patched := Some(Keep(now, used));
      Ends(kids, prior, next, now, used, n, nextId);
      ChildrenPatchedIff(Shapes(kids), prior, next, Shapes(patched.value));
    }

    /** Deals with new child `i`: it is built when there is nothing to start from, and otherwise
        the node is patched, or replaced, and moved into place. A node that is out of the list
        cannot be replaced. */
    method PatchOne(kids: seq<Dom>, prior: seq<VNode>, next: seq<VNode>, i: nat, now: seq<Dom>, used: set<NodeId>, ghost n: NodeId)
      returns (ok: bool, after: seq<Dom>, nowUsed: set<NodeId>)
      requires i < |next| && AllSound(kids, n) && n <= nextId && AllSound(now, nextId)
      requires Lined(kids, prior, next, i, now, n) && InUse(kids, MarksAt(|kids|, prior, next, i), i, now, used)
      modifies this
      ensures nextId >= old(nextId) && (!ok ==> PatchedAt(Shapes(kids), prior, next, i) == None)
      ensures ok ==> AllSound(after, nextId) && Lined(kids, prior, next, i + 1, after, n) && InUse(kids, MarksAt(|kids|, prior, next, i + 1), i + 1, after, nowUsed)
      decreases next, 0
    {
      hide AllSound, Lined, Done, Sound, InUse, PatchedTree, Keeps, FindId, NodePatched;
      var v := next[i];
      var keyed := Keyed(|kids|, prior, v);
      var peer := if keyed.Some? then keyed else if i < |prior| then Some(i) else None;
      var candidate := if keyed.Some? then Some(kids[keyed.value]) else if i < |now| then Some(now[i]) else None;
      Chooses(kids, prior, next, i, now, used, n);
      if candidate.None? || peer.None? || candidate.value.id in used {
        after, nowUsed := BuildOne(kids, prior, next, i, now, used, n);
        return true, after, nowUsed;
      }
      ghost var c := ChoiceAt(|kids|, prior, next, i);
      var p := FindId(now, candidate.value.id);
      Locates(kids, prior, next, i, now, used, n, c, nextId);
      if p.None? && !SameKind(prior[peer.value], v) { return false, now, used; }
      ghost var b := nextId;
      var x := PatchNode(if p.None? then Silenced(candidate.value) else now[p.value], prior[peer.value], v);
      if x.None? { return false, now, used; }
      ok, nowUsed := true, used + {x.value.id};
      if p.None? {
        after := now[..i] + [x.value] + now[i..];
        Reinserted(kids, prior, next, i, now, used, n, c, x.value, b, nextId);
      } else {
        after := now[..i] + [x.value] + now[i..p.value] + now[p.value + 1..];
        Placed(kids, prior, next, i, now, used, n, c, p.value, x.value, b, nextId);
      }
    }

    method BuildOne(kids: seq<Dom>, prior: seq<VNode>, next: seq<VNode>, i: nat, now: seq<Dom>, used: set<NodeId>, ghost n: NodeId)
      returns (after: seq<Dom>, nowUsed: set<NodeId>)
      requires i < |next| && AllSound(kids, n) && n <= nextId && AllSound(now, nextId)
      requires Lined(kids, prior, next, i, now, n) && InUse(kids, MarksAt(|kids|, prior, next, i), i, now, used)
      requires i <= |now| && ChoiceAt(|kids|, prior, next, i) == Build
      modifies this
      ensures nextId >= old(nextId) && AllSound(after, nextId)
      ensures Lined(kids, prior, next, i + 1, after, n) && InUse(kids, MarksAt(|kids|, prior, next, i + 1), i + 1, after, nowUsed)
      decreases next, 0
    {
      var x := CreateDom(next[i]);
      after, nowUsed := now[..i] + [x] + now[i..], used + {x.id};
      Built(kids, prior, next, i, now, used, n, x, old(nextId), nextId);
    }
  }

  // ---------------------------------------------------------------- steps of the loop

  lemma Starts(kids: seq<Dom>, prior: seq<VNode>, next: seq<VNode>, n: NodeId)
    ensures Lined(kids, prior, next, 0, kids, n) && InUse(kids, MarksAt(|kids|, prior, next, 0), 0, kids, {})
  {
    LeftAll(kids, 0);
  }

  lemma Fails(ts: seq<Tree>, prior: seq<VNode>, next: seq<VNode>, i: nat)
    requires i < |next| && PatchedAt(ts, prior, next, i) == None
    ensures PatchedTrees(ts, prior, next) == None
  {
    assert !NoneFails(ts, prior, next);
  }

  lemma PrefixSound(ds: seq<Dom>, n: nat, b: NodeId)
    requires n <= |ds| && AllSound(ds, b)
    ensures AllSound(ds[..n], b)
  {
    hide Sound;
  }

  /** When the loop is over, the nodes in use are the new children, in order. */
  lemma Ends(kids: seq<Dom>, prior: seq<VNode>, next: seq<VNode>, now: seq<Dom>, used: set<NodeId>, n: NodeId, b: NodeId)
    requires AllSound(now, b) && Lined(kids, prior, next, |next|, now, n) && InUse(kids, MarksAt(|kids|, prior, next, |next|), |next|, now, used)
    ensures var patched := Keep(now, used);
            && |patched| == |next| && AllSound(patched, b) && PatchedTrees(Shapes(kids), prior, next) == Some(Shapes(patched))
            && forall j :: 0 <= j < |next| ==> Keeps(kids, prior, next, j, patched[j].id, n)
  {
    KeepsFront(now, used, |next|);
    var ts := Shapes(kids);
    var patched := now[..|next|];
    PrefixSound(now, |next|, b);
    hide Keep, AllSound, Left, PatchedAt, Keeps, Shape, Chosen, InUse;
    forall j | 0 <= j < |next| ensures PatchedAt(ts, prior, next, j) == Some(Shapes(patched)[j]) && Keeps(kids, prior, next, j, patched[j].id, n) {
      assert Done(kids, prior, next, j, now[j], n);
    }
    assert NoneFails(ts, prior, next);
    PatchedTreesAre(ts, prior, next);
    assert PatchedTrees(ts, prior, next).value == Shapes(patched);
  }

  /** The node and the old child that the loop picks are those of the choice. */
  lemma Chooses(kids: seq<Dom>, prior: seq<VNode>, next: seq<VNode>, i: nat, now: seq<Dom>, used: set<NodeId>, n: NodeId)
    requires i < |next| && Lined(kids, prior, next, i, now, n) && InUse(kids, MarksAt(|kids|, prior, next, i), i, now, used)
    ensures var keyed := Keyed(|kids|, prior, next[i]);
            var candidate := if keyed.Some? then Some(kids[keyed.value]) else if i < |now| then Some(now[i]) else None;
            var c := ChoiceAt(|kids|, prior, next, i);
            && i <= |now|
            && (c.Build? <==> candidate.None? || (keyed.None? && i >= |prior|) || candidate.value.id in used)
            && (c.Take? ==> candidate == Some(kids[c.node]) && c.peer == (if keyed.Some? then keyed.value else i) && c.node !in MarksAt(|kids|, prior, next, i).used)
  {
    hide Left, KeyedIndex;
    FindsFirst(kids, prior, next, i, now, n);
  }

  lemma Locates(kids: seq<Dom>, prior: seq<VNode>, next: seq<VNode>, i: nat, now: seq<Dom>, used: set<NodeId>, n: NodeId, c: Choice, b: NodeId)
    requires i < |next| && AllSound(kids, n) && AllSound(now, b) && n <= b && Lined(kids, prior, next, i, now, n)
    requires InUse(kids, MarksAt(|kids|, prior, next, i), i, now, used)
    requires c == ChoiceAt(|kids|, prior, next, i) && c.Take? && c.node !in MarksAt(|kids|, prior, next, i).used
    ensures var p := FindId(now, kids[c.node].id);
            && i <= |now|
            && (p.None? <==> c.node in MarksAt(|kids|, prior, next, i).gone)
            && (p.None? ==> Sound(Silenced(kids[c.node]), b) && Silenced(kids[c.node]).id == kids[c.node].id
                            && Shape(Silenced(kids[c.node])) == Quiet(Shapes(kids)[c.node]))
            && (p.Some? ==> i <= p.value < |now| && now[p.value] == kids[c.node] && Sound(now[p.value], b)
                            && now[i..p.value] + now[p.value + 1..] == Left(kids, MarksAt(|kids|, prior, next, i + 1), 0))
  {
    hide Left, Chosen, FindId, Lined, InUse, AllSound, Sound;
    var m := MarksAt(|kids|, prior, next, i);
    LinedIs(kids, prior, next, i, now, n);
    SiblingsDiffer(kids, n);
    SiblingsDiffer(now, b);
    if c.node in m.gone {
      NotLocated(kids, m, i, now, used, c.node);
      SilencedIsQuiet(kids[c.node]);
      SoundLater(kids[c.node], n, b);
      SilencedSound(kids[c.node], b);
    } else {
      var p := Located(kids, m, MarksAt(|kids|, prior, next, i + 1), i, now, c.node);
    }
  }

  lemma LinedIs(kids: seq<Dom>, prior: seq<VNode>, next: seq<VNode>, i: nat, now: seq<Dom>, n: NodeId)
    requires i < |next| && Lined(kids, prior, next, i, now, n)
    ensures i <= |now| && now[i..] == Left(kids, MarksAt(|kids|, prior, next, i), 0)
  {
  }

  lemma SiblingsDiffer(ds: seq<Dom>, n: NodeId)
    requires AllSound(ds, n)
    ensures DistinctIds(ds) && forall i :: 0 <= i < |ds| ==> Sound(ds[i], n) && ds[i].id < n
  {
  }

  /** The node of the choice, patched or replaced at `p`, is moved to its place. */
  lemma Placed(kids: seq<Dom>, prior: seq<VNode>, next: seq<VNode>, i: nat, now: seq<Dom>, used: set<NodeId>, n: NodeId, c: Choice, p: nat, x: Dom, b: NodeId, b': NodeId)
    requires i < |next| && AllSound(kids, n) && AllSound(now, b) && n <= b <= b' && Lined(kids, prior, next, i, now, n)
    requires InUse(kids, MarksAt(|kids|, prior, next, i), i, now, used) && c == ChoiceAt(|kids|, prior, next, i) && c.Take?
    requires i <= p < |now| && now[p] == kids[c.node] && now[i..p] + now[p + 1..] == Left(kids, MarksAt(|kids|, prior, next, i + 1), 0)
    requires PatchedAt(Shapes(kids), prior, next, i) == Some(Shape(x)) && Sound(x, b')
    requires if SameKind(prior[c.peer], next[i]) then x.id == kids[c.node].id else x.id >= b
    ensures var after := now[..i] + [x] + now[i..p] + now[p + 1..];
            && AllSound(after, b') && Lined(kids, prior, next, i + 1, after, n)
            && InUse(kids, MarksAt(|kids|, prior, next, i + 1), i + 1, after, used + {x.id})
  {
    hide Left, Chosen, Lined, InUse, AllSound, Sound, PatchedAt, DistinctIds;
    SiblingsDiffer(kids, n);
    assert Done(kids, prior, next, i, x, n);
    LinedMoved(kids, prior, next, i, now, n, p, x);
    MovedSound(now, i, p, x, b, b');
    UsedMoved(kids, MarksAt(|kids|, prior, next, i), MarksAt(|kids|, prior, next, i + 1), i, now, used, p, x, b, c.node);
  }

  /** A replaced node comes back into the list. */
  lemma Reinserted(kids: seq<Dom>, prior: seq<VNode>, next: seq<VNode>, i: nat, now: seq<Dom>, used: set<NodeId>, n: NodeId, c: Choice, x: Dom, b: NodeId, b': NodeId)
    requires i < |next| && i <= |now| && AllSound(kids, n) && AllSound(now, b) && n <= b <= b' && Lined(kids, prior, next, i, now, n)
    requires InUse(kids, MarksAt(|kids|, prior, next, i), i, now, used) && c == ChoiceAt(|kids|, prior, next, i) && c.Take?
    requires FindId(now, kids[c.node].id) == None && c.node in MarksAt(|kids|, prior, next, i).gone && SameKind(prior[c.peer], next[i])
    requires PatchedAt(Shapes(kids), prior, next, i) == Some(Shape(x)) && Sound(x, b') && x.id == kids[c.node].id
    ensures var after := now[..i] + [x] + now[i..];
            && AllSound(after, b') && Lined(kids, prior, next, i + 1, after, n)
            && InUse(kids, MarksAt(|kids|, prior, next, i + 1), i + 1, after, used + {x.id})
  {
    hide Left, Chosen, Lined, InUse, AllSound, Sound, PatchedAt, FindId, DistinctIds;
    SiblingsDiffer(kids, n);
    SiblingsDiffer(now, b);
    assert Done(kids, prior, next, i, x, n);
    forall j | 0 <= j < |now| ensures now[j].id != x.id { FindsId(now, j); }
    LinedInserted(kids, prior, next, i, now, n, x);
    InsertedSound(now, i, x, b, b');
    var m := MarksAt(|kids|, prior, next, i);
    forall k | 0 <= k < |kids| ensures kids[k].id == x.id <==> k == c.node { IdsDiffer(kids, k, c.node); }
    UsedInserted(kids, m, MarksAt(|kids|, prior, next, i + 1), i, now, used, x);
  }

  lemma Built(kids: seq<Dom>, prior: seq<VNode>, next: seq<VNode>, i: nat, now: seq<Dom>, used: set<NodeId>, n: NodeId, x: Dom, b: NodeId, b': NodeId)
    requires i < |next| && i <= |now| && AllSound(kids, n) && AllSound(now, b) && n <= b <= b' && Lined(kids, prior, next, i, now, n)
    requires InUse(kids, MarksAt(|kids|, prior, next, i), i, now, used) && ChoiceAt(|kids|, prior, next, i) == Build
    requires Shape(x) == Fresh(next[i]) && Sound(x, b') && x.id >= b
    ensures var after := now[..i] + [x] + now[i..];
            && AllSound(after, b') && Lined(kids, prior, next, i + 1, after, n)
            && InUse(kids, MarksAt(|kids|, prior, next, i + 1), i + 1, after, used + {x.id})
  {
    hide Left, Chosen, Lined, InUse, AllSound, Sound, DistinctIds;
    SiblingsDiffer(kids, n);
    SiblingsDiffer(now, b);
    assert Done(kids, prior, next, i, x, n);
    LinedInserted(kids, prior, next, i, now, n, x);
    InsertedSound(now, i, x, b, b');
    UsedInserted(kids, MarksAt(|kids|, prior, next, i), MarksAt(|kids|, prior, next, i + 1), i, now, used, x);
  }

  lemma IdsDiffer(ds: seq<Dom>, j: nat, k: nat)
    requires DistinctIds(ds) && j < |ds| && k < |ds|
    ensures ds[j].id == ds[k].id <==> j == k
  {
  }
}
