/** When encoding succeeds, said without reference to how it goes about it: the schema-directed
    unfolding of the value is a finite tree that fits the limits, and no watched object recurs
    on its own path. */
module BoundaryUnfolding {
  import opened Options
  import opened BoundaryModel
  import opened BoundaryEncode

  // ---------------------------------------------------------------- schemas

  ghost predicate DistinctNames(fields: seq<Field>) {
    forall i, j :: 0 <= i < j < |fields| ==> fields[i].name != fields[j].name
  }

  /** Field names are distinct throughout. */
  ghost predicate Fine(registry: Registry, s: Schema) {
    match s
    case Array(element) => Fine(registry, element)
    case Record(tag, fields) => DistinctNames(fields) && forall i :: 0 <= i < |fields| ==> Fine(registry, fields[i].schema)
    case Union(variants) =>
      forall i :: 0 <= i < |variants| ==>
        DistinctNames(variants[i].fields) && forall j :: 0 <= j < |variants[i].fields| ==> Fine(registry, variants[i].fields[j].schema)
    case Custom(representation) => Fine(registry, representation)
    case _ => true
  }

  ghost predicate FineRegistry(registry: Registry) {
    forall id :: id in registry ==> Fine(registry, registry[id])
  }

  lemma {:induction false} CoreIsFine(registry: Registry, s: Schema, seen: set<TypeId>)
    requires FineRegistry(registry) && Fine(registry, s) && Core(registry, s, seen).Resolved?
    ensures Fine(registry, Core(registry, s, seen).schema)
    decreases registry.Keys - seen, s
  {
    match s
    case Custom(representation) => CoreIsFine(registry, representation, seen);
    case Ref(id) =>
      assert id in registry.Keys - seen;
      CoreIsFine(registry, registry[id], seen + {id});
    case _ =>
  }

  /** The fields that a view offers are fine. */
  ghost predicate FineFields(registry: Registry, fields: seq<Field>) {
    DistinctNames(fields) && forall i :: 0 <= i < |fields| ==> Fine(registry, fields[i].schema)
  }

  /** There is a tag in both forms, each under its own name, or in neither. */
  ghost predicate TagsOnly(view: View)
    requires view.Fields?
  {
    if view.wire == map[] then view.native == map[] else view.wire.Keys == {"$variant"} && view.native.Keys == {"tag"}
  }

  lemma ViewIsFine(heap: Heap, registry: Registry, s: Schema, v: Value)
    requires FineRegistry(registry) && Fine(registry, s)
    ensures var view := ViewOf(heap, registry, s, v);
            && (view.Items? ==> Fine(registry, view.element))
            && (view.Fields? ==> FineFields(registry, view.fields) && TagsOnly(view))
  {
    var core := Core(registry, s, {});
    if core.Resolved? {
      CoreIsFine(registry, s, {});
      if core.schema.Union? && UnionView(heap, v, core.schema.variants).Fields? {
        var tag := Either(Get(EntriesOf(heap, v).value, "tag"), Get(EntriesOf(heap, v).value, "$variant"));
        VariantFound(core.schema.variants, tag.s);
        TaggedNotEmpty("$variant", tag.s);
        TaggedNotEmpty("tag", tag.s);
      }
      if core.schema.Record? {
        TaggedNotEmpty("$variant", core.schema.tag);
        TaggedNotEmpty("tag", core.schema.tag);
      }
    }
  }

  lemma TaggedNotEmpty(key: string, tag: string)
    ensures Tagged(key, tag) != map[] && Tagged(key, tag).Keys == {key}
  {
    assert key in Tagged(key, tag);
  }

  lemma {:induction false} VariantFound(variants: seq<Variant>, name: string)
    requires FindVariant(variants, name).Some?
    ensures FindVariant(variants, name).value in variants && FindVariant(variants, name).value.name == name
  {
    if variants[0].name != name { VariantFound(variants[1..], name); }
  }

  // ---------------------------------------------------------------- the unfolding

  ghost predicate Present(fields: seq<Field>, entries: map<string, Value>, name: string) {
    exists i :: 0 <= i < |fields| && fields[i].name == name && !LeftOut(fields[i], entries)
  }

  /** Tree `t` is the unfolding of `v` as `s` directs: as it crosses, or as a host reads it. Shared
      objects are unfolded wherever they occur. A tree is finite, so an endless unfolding has none.
      A field called like the tag wins over the tag as it crosses, and loses to it when it is read. */
  ghost predicate Unfolds(native: bool, heap: Heap, registry: Registry, s: Schema, v: Value, t: Tree)
    decreases t
  {
    match ViewOf(heap, registry, s, v)
    case Bad(_) => false
    case Plain(p) => t == if native && p.TNull? then TUndefined else p
    case Items(element, items, _) =>
      && |items| <= MAX_LENGTH && t.TArray? && |t.items| == |items|
      && forall i :: 0 <= i < |items| ==> Unfolds(native, heap, registry, element, items[i], t.items[i])
    case Fields(fields, entries, wire, nativeTag, length, _, late) =>
      var tags := if native then nativeTag else wire;
      && length <= MAX_LENGTH && late.None? && t.TRecord?
      && (forall name :: name in t.entries <==> name in tags || Present(fields, entries, name))
      && (forall name :: name in tags && (native || !Present(fields, entries, name)) ==> t.entries[name] == tags[name])
      && (forall i :: 0 <= i < |fields| && !LeftOut(fields[i], entries) && !(native && fields[i].name in nativeTag) ==>
            fields[i].name in t.entries
            && Unfolds(native, heap, registry, fields[i].schema, Get(entries, fields[i].name), t.entries[fields[i].name]))
  }

  /** The containers of `t` nest at most `depth` deep. */
  ghost predicate Fits(t: Tree, depth: nat)
    decreases t
  {
    match t
    case TArray(items) => depth > 0 && forall i :: 0 <= i < |items| ==> Fits(items[i], depth - 1)
    case TRecord(entries) => depth > 0 && forall name :: name in entries ==> Fits(entries[name], depth - 1)
    case _ => true
  }

  // ---------------------------------------------------------------- paths

  /** What stands one step down, at the `i`-th item or field. */
  function Child(heap: Heap, registry: Registry, s: Schema, v: Value, i: nat): Option<(Schema, Value)> {
    match ViewOf(heap, registry, s, v)
    case Items(element, items, _) => if i < |items| then Some((element, items[i])) else None
    case Fields(fields, entries, _, _, _, _, late) =>
      if late.None? && i < |fields| && !LeftOut(fields[i], entries) then Some((fields[i].schema, Get(entries, fields[i].name))) else None
    case _ => None
  }

  /** The object that is watched here, if any. */
  function WatchedHere(heap: Heap, registry: Registry, s: Schema, v: Value): set<ObjectId> {
    match ViewOf(heap, registry, s, v)
    case Items(_, _, o) => {o}
    case Fields(_, _, _, _, _, watched, _) => Watching(watched)
    case _ => {}
  }

  function Follow(heap: Heap, registry: Registry, s: Schema, v: Value, path: seq<nat>): Option<(Schema, Value)>
    decreases |path|
  {
    if path == [] then Some((s, v))
    else
      match Child(heap, registry, s, v, path[0])
      case None => None
      case Some(child) => Follow(heap, registry, child.0, child.1, path[1..])
  }

  /** The object that is watched at the end of `path`, if any. */
  function WatchedAt(heap: Heap, registry: Registry, s: Schema, v: Value, path: seq<nat>): set<ObjectId> {
    match Follow(heap, registry, s, v, path)
    case None => {}
    case Some(end) => WatchedHere(heap, registry, end.0, end.1)
  }

  /** No watched object recurs on its own path, and none is among `ancestors`. */
  ghost predicate Simple(heap: Heap, registry: Registry, s: Schema, v: Value, ancestors: set<ObjectId>) {
    && (forall p {:trigger WatchedAt(heap, registry, s, v, p)} :: WatchedAt(heap, registry, s, v, p) !! ancestors)
    && (forall p, q {:trigger WatchedAt(heap, registry, s, v, p), WatchedAt(heap, registry, s, v, q)} ::
          p < q ==> WatchedAt(heap, registry, s, v, p) !! WatchedAt(heap, registry, s, v, q))
  }

  lemma StepDown(heap: Heap, registry: Registry, s: Schema, v: Value, i: nat, p: seq<nat>)
    ensures WatchedAt(heap, registry, s, v, [i] + p)
         == match Child(heap, registry, s, v, i) case None => {} case Some(child) => WatchedAt(heap, registry, child.0, child.1, p)
    ensures WatchedAt(heap, registry, s, v, []) == WatchedHere(heap, registry, s, v)
  {
    assert ([i] + p)[0] == i && ([i] + p)[1..] == p;
  }

  /** Watching on the way down is watching along paths. */
  lemma SimpleBelow(heap: Heap, registry: Registry, s: Schema, v: Value, ancestors: set<ObjectId>, i: nat)
    requires Simple(heap, registry, s, v, ancestors) && Child(heap, registry, s, v, i).Some?
    ensures var child := Child(heap, registry, s, v, i).value;
            Simple(heap, registry, child.0, child.1, ancestors + WatchedHere(heap, registry, s, v))
  {
    var child := Child(heap, registry, s, v, i).value;
    forall p ensures WatchedAt(heap, registry, child.0, child.1, p) !! ancestors + WatchedHere(heap, registry, s, v) {
      StepDown(heap, registry, s, v, i, p);
      assert [] < [i] + p;
      assert WatchedAt(heap, registry, s, v, []) !! WatchedAt(heap, registry, s, v, [i] + p);
    }
    forall p, q | p < q ensures WatchedAt(heap, registry, child.0, child.1, p) !! WatchedAt(heap, registry, child.0, child.1, q) {
      StepDown(heap, registry, s, v, i, p);
      StepDown(heap, registry, s, v, i, q);
      assert [i] + p < [i] + q;
    }
  }

  lemma SimpleHere(heap: Heap, registry: Registry, s: Schema, v: Value, ancestors: set<ObjectId>)
    requires Simple(heap, registry, s, v, ancestors)
    ensures WatchedHere(heap, registry, s, v) !! ancestors
  {
    assert WatchedAt(heap, registry, s, v, []) !! ancestors;
  }

  lemma SimpleFromBelow(heap: Heap, registry: Registry, s: Schema, v: Value, ancestors: set<ObjectId>)
    requires WatchedHere(heap, registry, s, v) !! ancestors
    requires forall i: nat :: Child(heap, registry, s, v, i).Some? ==>
               Simple(heap, registry, Child(heap, registry, s, v, i).value.0, Child(heap, registry, s, v, i).value.1, ancestors + WatchedHere(heap, registry, s, v))
    ensures Simple(heap, registry, s, v, ancestors)
  {
    var here := WatchedHere(heap, registry, s, v);
    forall p: seq<nat> ensures WatchedAt(heap, registry, s, v, p) !! ancestors && (p != [] ==> WatchedAt(heap, registry, s, v, p) !! here) {
      if p != [] {
        assert p == [p[0]] + p[1..];
        StepDown(heap, registry, s, v, p[0], p[1..]);
        var child := Child(heap, registry, s, v, p[0]);
        if child.Some? { assert WatchedAt(heap, registry, child.value.0, child.value.1, p[1..]) !! ancestors + here; }
      }
    }
    forall p: seq<nat>, q: seq<nat> | p < q ensures WatchedAt(heap, registry, s, v, p) !! WatchedAt(heap, registry, s, v, q) {
      assert q == [q[0]] + q[1..];
      StepDown(heap, registry, s, v, q[0], q[1..]);
      if p != [] {
        assert p == [p[0]] + p[1..] && p[0] == q[0] && p[1..] < q[1..];
        StepDown(heap, registry, s, v, p[0], p[1..]);
        var child := Child(heap, registry, s, v, p[0]);
        if child.Some? {
          assert WatchedAt(heap, registry, child.value.0, child.value.1, p[1..]) !! WatchedAt(heap, registry, child.value.0, child.value.1, q[1..]);
        }
      }
    }
  }

  // ---------------------------------------------------------------- what encoding succeeds with

  /** `t` is the unfolding of `v` and fits, and nothing watched recurs. */
  ghost predicate Good(heap: Heap, registry: Registry, s: Schema, v: Value, ancestors: set<ObjectId>, depth: nat, t: Tree) {
    Unfolds(false, heap, registry, s, v, t) && Fits(t, depth) && Simple(heap, registry, s, v, ancestors)
  }

  lemma {:induction false} EncodedIsGood(heap: Heap, registry: Registry, s: Schema, v: Value, ancestors: set<ObjectId>, depth: nat)
    requires FineRegistry(registry) && Fine(registry, s)
    requires Encoded(heap, registry, s, v, ancestors, depth).Ok?
    ensures Good(heap, registry, s, v, ancestors, depth, Encoded(heap, registry, s, v, ancestors, depth).value)
    decreases depth, 2, 0
  {
    ViewIsFine(heap, registry, s, v);
    match ViewOf(heap, registry, s, v)
    case Bad(_) =>
    case Plain(p) => SimpleFromBelow(heap, registry, s, v, ancestors);
    case Items(_, _, _) => ArrayIsGood(heap, registry, s, v, ancestors, depth);
    case Fields(_, _, _, _, _, _, _) => RecordCaseIsGood(heap, registry, s, v, ancestors, depth);
  }

  lemma {:induction false} ArrayIsGood(heap: Heap, registry: Registry, s: Schema, v: Value, ancestors: set<ObjectId>, depth: nat)
    requires FineRegistry(registry) && ViewOf(heap, registry, s, v).Items? && Fine(registry, ViewOf(heap, registry, s, v).element)
    requires Encoded(heap, registry, s, v, ancestors, depth).Ok?
    ensures Good(heap, registry, s, v, ancestors, depth, Encoded(heap, registry, s, v, ancestors, depth).value)
    decreases depth, 1, 0
  {
    hide Fine, FineRegistry, EncodedItems, Simple, ViewOf, Unfolds, Fits;
    var view := ViewOf(heap, registry, s, v);
    var inner := ancestors + {view.tracked};
    ItemsAreGood(heap, registry, view.element, view.items, inner, depth - 1);
    var ts := EncodedItems(heap, registry, view.element, view.items, inner, depth - 1).value;
    forall i: nat | Child(heap, registry, s, v, i).Some?
      ensures Simple(heap, registry, Child(heap, registry, s, v, i).value.0, Child(heap, registry, s, v, i).value.1, inner)
    {
      assert Good(heap, registry, view.element, view.items[i], inner, depth - 1, ts[i]);
    }
    SimpleFromBelow(heap, registry, s, v, ancestors);
    ArrayUnfolds(heap, registry, s, v, inner, depth, ts);
  }

  lemma ArrayUnfolds(heap: Heap, registry: Registry, s: Schema, v: Value, inner: set<ObjectId>, depth: nat, ts: seq<Tree>)
    requires var view := ViewOf(heap, registry, s, v);
             && view.Items? && |view.items| <= MAX_LENGTH && |ts| == |view.items| && depth > 0
             && forall i :: 0 <= i < |ts| ==> Good(heap, registry, view.element, view.items[i], inner, depth - 1, ts[i])
    ensures Unfolds(false, heap, registry, s, v, TArray(ts)) && Fits(TArray(ts), depth)
  {
    hide ViewOf, Simple;
    var view := ViewOf(heap, registry, s, v);
    forall i | 0 <= i < |ts| ensures Unfolds(false, heap, registry, view.element, view.items[i], ts[i]) && Fits(ts[i], depth - 1) {
      assert Good(heap, registry, view.element, view.items[i], inner, depth - 1, ts[i]);
      hide Unfolds, Fits;
    }
  }

  lemma {:induction false} RecordCaseIsGood(heap: Heap, registry: Registry, s: Schema, v: Value, ancestors: set<ObjectId>, depth: nat)
    requires var view := ViewOf(heap, registry, s, v);
             && FineRegistry(registry) && view.Fields? && FineFields(registry, view.fields)
            
    requires Encoded(heap, registry, s, v, ancestors, depth).Ok?
    ensures Good(heap, registry, s, v, ancestors, depth, Encoded(heap, registry, s, v, ancestors, depth).value)
    decreases depth, 1, 0
  {
    WireIsText(heap, registry, s, v);
    hide Fine, FineRegistry, FineFields, EncodedFields, Simple, ViewOf, Unfolds, Fits;
    var view := ViewOf(heap, registry, s, v);
    var inner := ancestors + Watching(view.watched);
    FieldsAreGood(heap, registry, view.fields, view.entries, inner, depth - 1);
    var ts := EncodedFields(heap, registry, view.fields, view.entries, inner, depth - 1).value;
    RecordIsGood(heap, registry, s, v, ancestors, depth, ts);
    forall i: nat | Child(heap, registry, s, v, i).Some?
      ensures Simple(heap, registry, Child(heap, registry, s, v, i).value.0, Child(heap, registry, s, v, i).value.1, inner)
    {
      assert Good(heap, registry, view.fields[i].schema, Get(view.entries, view.fields[i].name), inner, depth - 1, ts[view.fields[i].name]);
    }
    SimpleFromBelow(heap, registry, s, v, ancestors);
  }

  lemma WireIsText(heap: Heap, registry: Registry, s: Schema, v: Value)
    requires ViewOf(heap, registry, s, v).Fields?
    ensures var view := ViewOf(heap, registry, s, v); forall k :: k in view.wire ==> view.wire[k].TStr?
  {
  }

  lemma {:induction false} ItemsAreGood(heap: Heap, registry: Registry, element: Schema, items: seq<Value>, ancestors: set<ObjectId>, depth: nat)
    requires FineRegistry(registry) && Fine(registry, element)
    requires EncodedItems(heap, registry, element, items, ancestors, depth).Ok?
    ensures var ts := EncodedItems(heap, registry, element, items, ancestors, depth).value;
            |ts| == |items| && forall i :: 0 <= i < |items| ==> Good(heap, registry, element, items[i], ancestors, depth, ts[i])
    decreases depth, 3, |items|
  {
    if items != [] {
      EncodedIsGood(heap, registry, element, items[0], ancestors, depth);
      ItemsAreGood(heap, registry, element, items[1..], ancestors, depth);
    }
  }

  /** The fields that are not left out, each with the tree of its name. */
  ghost predicate AllGood(heap: Heap, registry: Registry, fields: seq<Field>, entries: map<string, Value>, ancestors: set<ObjectId>, depth: nat, ts: map<string, Tree>) {
    && (forall name :: name in ts <==> Present(fields, entries, name))
    && (forall i :: 0 <= i < |fields| && !LeftOut(fields[i], entries) ==>
          fields[i].name in ts && Good(heap, registry, fields[i].schema, Get(entries, fields[i].name), ancestors, depth, ts[fields[i].name]))
  }

  lemma {:induction false} FieldsAreGood(heap: Heap, registry: Registry, fields: seq<Field>, entries: map<string, Value>, ancestors: set<ObjectId>, depth: nat)
    requires FineRegistry(registry) && FineFields(registry, fields)
    requires EncodedFields(heap, registry, fields, entries, ancestors, depth).Ok?
    ensures AllGood(heap, registry, fields, entries, ancestors, depth, EncodedFields(heap, registry, fields, entries, ancestors, depth).value)
    decreases depth, 3, |fields|
  {
    if fields != [] {
      FieldsAreGood(heap, registry, fields[1..], entries, ancestors, depth);
      PresentFirst(fields, entries);
      if !LeftOut(fields[0], entries) {
        EncodedIsGood(heap, registry, fields[0].schema, Get(entries, fields[0].name), ancestors, depth);
      }
      AllGoodFirst(heap, registry, fields, entries, ancestors, depth);
    }
  }

  lemma PresentFirst(fields: seq<Field>, entries: map<string, Value>)
    requires fields != []
    ensures forall name :: Present(fields, entries, name) <==> Present(fields[1..], entries, name) || (name == fields[0].name && !LeftOut(fields[0], entries))
  {
    forall name ensures Present(fields, entries, name) <==> Present(fields[1..], entries, name) || (name == fields[0].name && !LeftOut(fields[0], entries)) {
      if i :| 0 <= i < |fields| && fields[i].name == name && !LeftOut(fields[i], entries) {
        if i > 0 { assert fields[1..][i - 1] == fields[i]; }
      }
      if i :| 0 <= i < |fields[1..]| && fields[1..][i].name == name && !LeftOut(fields[1..][i], entries) { assert fields[i + 1] == fields[1..][i]; }
    }
  }

  lemma AllGoodFirst(heap: Heap, registry: Registry, fields: seq<Field>, entries: map<string, Value>, ancestors: set<ObjectId>, depth: nat)
    requires fields != [] && DistinctNames(fields)
    requires EncodedFields(heap, registry, fields, entries, ancestors, depth).Ok?
    requires EncodedFields(heap, registry, fields[1..], entries, ancestors, depth).Ok?
             && AllGood(heap, registry, fields[1..], entries, ancestors, depth, EncodedFields(heap, registry, fields[1..], entries, ancestors, depth).value)
    requires !LeftOut(fields[0], entries) ==>
               var t := Encoded(heap, registry, fields[0].schema, Get(entries, fields[0].name), ancestors, depth);
               t.Ok? && Good(heap, registry, fields[0].schema, Get(entries, fields[0].name), ancestors, depth, t.value)
    ensures AllGood(heap, registry, fields, entries, ancestors, depth, EncodedFields(heap, registry, fields, entries, ancestors, depth).value)
  {
    hide Good, LeftOut, Encoded;
    PresentFirst(fields, entries);
    var rest := EncodedFields(heap, registry, fields[1..], entries, ancestors, depth).value;
    var ts := EncodedFields(heap, registry, fields, entries, ancestors, depth).value;
    forall i | 0 <= i < |fields| && !LeftOut(fields[i], entries)
      ensures fields[i].name in ts && Good(heap, registry, fields[i].schema, Get(entries, fields[i].name), ancestors, depth, ts[fields[i].name])
    {
      if i > 0 {
        assert fields[1..][i - 1] == fields[i];
        assert fields[i].name in rest && ts[fields[i].name] == rest[fields[i].name];
      } else {
        assert fields[0].name !in rest by { assert !Present(fields[1..], entries, fields[0].name); }
      }
    }
  }

  lemma RecordIsGood(heap: Heap, registry: Registry, s: Schema, v: Value, ancestors: set<ObjectId>, depth: nat, ts: map<string, Tree>)
    requires var view := ViewOf(heap, registry, s, v);
             && view.Fields? && view.late.None? && view.length <= MAX_LENGTH && depth > 0
             && FineFields(registry, view.fields)
             && (forall k :: k in view.wire ==> view.wire[k].TStr?)
             && AllGood(heap, registry, view.fields, view.entries, ancestors + Watching(view.watched), depth - 1, ts)
    ensures Unfolds(false, heap, registry, s, v, TRecord(ViewOf(heap, registry, s, v).wire + ts)) && Fits(TRecord(ViewOf(heap, registry, s, v).wire + ts), depth)
  {
    var view := ViewOf(heap, registry, s, v);
    var t := TRecord(view.wire + ts);
    forall name | name in t.entries ensures Fits(t.entries[name], depth - 1) {
      if name in ts {
        assert Present(view.fields, view.entries, name);
        var i :| 0 <= i < |view.fields| && view.fields[i].name == name && !LeftOut(view.fields[i], view.entries);
        assert Good(heap, registry, view.fields[i].schema, Get(view.entries, name), ancestors + Watching(view.watched), depth - 1, ts[name]);
      }
    }
  }
}
