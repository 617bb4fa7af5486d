/** What encoding succeeds with, and how it deals with cycles. */
module BoundaryCycles {
  import opened Options
  import opened BoundaryModel
  import opened BoundaryEncode
  import opened BoundaryUnfolding

  // ---------------------------------------------------------------- encoding finds every good tree

  lemma {:induction false} GoodIsEncoded(heap: Heap, registry: Registry, s: Schema, v: Value, ancestors: set<ObjectId>, depth: nat, t: Tree)
    requires FineRegistry(registry) && Fine(registry, s) && Good(heap, registry, s, v, ancestors, depth, t)
    ensures Encoded(heap, registry, s, v, ancestors, depth) == Ok(t)
    decreases depth, 2, 0
  {
    ViewIsFine(heap, registry, s, v);
    SimpleHere(heap, registry, s, v, ancestors);
    match ViewOf(heap, registry, s, v)
    case Bad(_) =>
    case Plain(_) =>
    case Items(_, _, _) => GoodArrayIsEncoded(heap, registry, s, v, ancestors, depth, t);
    case Fields(_, _, _, _, _, _, _) => GoodRecordIsEncoded(heap, registry, s, v, ancestors, depth, t);
  }

  lemma {:induction false} GoodArrayIsEncoded(heap: Heap, registry: Registry, s: Schema, v: Value, ancestors: set<ObjectId>, depth: nat, t: Tree)
    requires FineRegistry(registry) && ViewOf(heap, registry, s, v).Items? && Fine(registry, ViewOf(heap, registry, s, v).element)
    requires Good(heap, registry, s, v, ancestors, depth, t) && ViewOf(heap, registry, s, v).tracked !in ancestors
    ensures Encoded(heap, registry, s, v, ancestors, depth) == Ok(t)
    decreases depth, 1, 0
  {
    hide ViewOf, Simple, Fine, FineRegistry, EncodedItems;
    var view := ViewOf(heap, registry, s, v);
    var inner := ancestors + {view.tracked};
    forall i | 0 <= i < |view.items| ensures Good(heap, registry, view.element, view.items[i], inner, depth - 1, t.items[i]) {
      SimpleBelow(heap, registry, s, v, ancestors, i);
    }
    GoodItemsAreEncoded(heap, registry, view.element, view.items, inner, depth - 1, t.items);
  }

  lemma {:induction false} GoodItemsAreEncoded(heap: Heap, registry: Registry, element: Schema, items: seq<Value>, ancestors: set<ObjectId>, depth: nat, ts: seq<Tree>)
    requires FineRegistry(registry) && Fine(registry, element) && |ts| == |items|
    requires forall i :: 0 <= i < |items| ==> Good(heap, registry, element, items[i], ancestors, depth, ts[i])
    ensures EncodedItems(heap, registry, element, items, ancestors, depth) == Ok(ts)
    decreases depth, 3, |items|
  {
    if items != [] {
      GoodIsEncoded(heap, registry, element, items[0], ancestors, depth, ts[0]);
      GoodItemsAreEncoded(heap, registry, element, items[1..], ancestors, depth, ts[1..]);
      assert ts == [ts[0]] + ts[1..];
    }
  }

  lemma {:induction false} GoodFieldsAreEncoded(heap: Heap, registry: Registry, fields: seq<Field>, entries: map<string, Value>, ancestors: set<ObjectId>, depth: nat, all: map<string, Tree>)
    requires FineRegistry(registry) && forall i :: 0 <= i < |fields| ==> Fine(registry, fields[i].schema)
    requires forall i :: 0 <= i < |fields| && !LeftOut(fields[i], entries) ==>
               fields[i].name in all && Good(heap, registry, fields[i].schema, Get(entries, fields[i].name), ancestors, depth, all[fields[i].name])
    ensures EncodedFields(heap, registry, fields, entries, ancestors, depth).Ok?
    ensures var ts := EncodedFields(heap, registry, fields, entries, ancestors, depth).value;
            (forall name :: name in ts <==> Present(fields, entries, name)) && (forall name :: name in ts ==> name in all && ts[name] == all[name])
    decreases depth, 3, |fields|
  {
    if fields != [] {
      PresentFirst(fields, entries);
      GoodFieldsAreEncoded(heap, registry, fields[1..], entries, ancestors, depth, all);
      if !LeftOut(fields[0], entries) {
        GoodIsEncoded(heap, registry, fields[0].schema, Get(entries, fields[0].name), ancestors, depth, all[fields[0].name]);
      }
    }
  }

  lemma {:induction false} GoodRecordIsEncoded(heap: Heap, registry: Registry, s: Schema, v: Value, ancestors: set<ObjectId>, depth: nat, t: Tree)
    requires var view := ViewOf(heap, registry, s, v);
             && FineRegistry(registry) && view.Fields? && FineFields(registry, view.fields)
             && Watching(view.watched) !! ancestors
    requires Good(heap, registry, s, v, ancestors, depth, t)
    ensures Encoded(heap, registry, s, v, ancestors, depth) == Ok(t)
    decreases depth, 1, 0
  {
    hide *;
    var view := ViewOf(heap, registry, s, v);
    var inner := ancestors + Watching(view.watched);
    GoodParts(heap, registry, s, v, ancestors, depth, t);
    GoodFieldsAreEncoded(heap, registry, view.fields, view.entries, inner, depth - 1, t.entries);
    var ts := EncodedFields(heap, registry, view.fields, view.entries, inner, depth - 1).value;
    RecordWhole(view.fields, view.entries, view.wire, t.entries, ts);
    EncodedRecordIs(heap, registry, view, ancestors, depth, ts);
    EncodedAsRecord(heap, registry, s, v, ancestors, depth);
  }

  lemma EncodedAsRecord(heap: Heap, registry: Registry, s: Schema, v: Value, ancestors: set<ObjectId>, depth: nat)
    requires ViewOf(heap, registry, s, v).Fields?
    ensures Encoded(heap, registry, s, v, ancestors, depth) == EncodedRecord(heap, registry, ViewOf(heap, registry, s, v), ancestors, depth)
  {
    hide ViewOf, EncodedRecord;
  }

  /** What goodness of a record says about its fields. */
  lemma GoodParts(heap: Heap, registry: Registry, s: Schema, v: Value, ancestors: set<ObjectId>, depth: nat, t: Tree)
    requires ViewOf(heap, registry, s, v).Fields? && Good(heap, registry, s, v, ancestors, depth, t)
             && FineFields(registry, ViewOf(heap, registry, s, v).fields)
    ensures var view := ViewOf(heap, registry, s, v);
            && depth > 0 && view.length <= MAX_LENGTH && view.late.None? && t.TRecord?
            && (forall i :: 0 <= i < |view.fields| ==> Fine(registry, view.fields[i].schema))
            && (forall name :: name in t.entries <==> name in view.wire || Present(view.fields, view.entries, name))
            && (forall name :: name in view.wire && !Present(view.fields, view.entries, name) ==> t.entries[name] == view.wire[name])
            && (forall i :: 0 <= i < |view.fields| && !LeftOut(view.fields[i], view.entries) ==>
                  view.fields[i].name in t.entries
                  && Good(heap, registry, view.fields[i].schema, Get(view.entries, view.fields[i].name), ancestors + Watching(view.watched), depth - 1,
                          t.entries[view.fields[i].name]))
  {
    hide ViewOf, Simple, Unfolds, Fits, LeftOut, Present, Fine;
    var view := ViewOf(heap, registry, s, v);
    RecordParts(heap, registry, s, v, t, depth);
    forall i | 0 <= i < |view.fields| && !LeftOut(view.fields[i], view.entries)
      ensures Good(heap, registry, view.fields[i].schema, Get(view.entries, view.fields[i].name), ancestors + Watching(view.watched), depth - 1,
                   t.entries[view.fields[i].name])
    {
      SimpleBelow(heap, registry, s, v, ancestors, i);
    }
  }

  lemma EncodedRecordIs(heap: Heap, registry: Registry, view: View, ancestors: set<ObjectId>, depth: nat, ts: map<string, Tree>)
    requires view.Fields? && view.length <= MAX_LENGTH && view.late.None? && depth > 0 && Watching(view.watched) !! ancestors
    requires EncodedFields(heap, registry, view.fields, view.entries, ancestors + Watching(view.watched), depth - 1) == Ok(ts)
    ensures EncodedRecord(heap, registry, view, ancestors, depth) == Ok(TRecord(view.wire + ts))
  {
    assert view.watched.Some? ==> view.watched.value in Watching(view.watched);
  }

  /** What the unfolding of a record says, part by part. */
  lemma RecordParts(heap: Heap, registry: Registry, s: Schema, v: Value, t: Tree, depth: nat)
    requires ViewOf(heap, registry, s, v).Fields? && Unfolds(false, heap, registry, s, v, t) && Fits(t, depth)
    ensures var view := ViewOf(heap, registry, s, v);
            && depth > 0 && view.length <= MAX_LENGTH && view.late.None? && t.TRecord?
            && (forall name :: name in t.entries <==> name in view.wire || Present(view.fields, view.entries, name))
            && (forall name :: name in view.wire && !Present(view.fields, view.entries, name) ==> t.entries[name] == view.wire[name])
            && (forall i :: 0 <= i < |view.fields| && !LeftOut(view.fields[i], view.entries) ==>
                  view.fields[i].name in t.entries && Fits(t.entries[view.fields[i].name], depth - 1)
                  && Unfolds(false, heap, registry, view.fields[i].schema, Get(view.entries, view.fields[i].name), t.entries[view.fields[i].name]))
  {
    hide ViewOf;
  }

  lemma RecordWhole(fields: seq<Field>, entries: map<string, Value>, wire: map<string, Tree>, all: map<string, Tree>, ts: map<string, Tree>)
    requires forall name :: name in all <==> name in wire || Present(fields, entries, name)
    requires forall name :: name in wire && !Present(fields, entries, name) ==> all[name] == wire[name]
    requires forall name :: name in ts <==> Present(fields, entries, name)
    requires forall name :: name in ts ==> name in all && ts[name] == all[name]
    ensures TRecord(wire + ts) == TRecord(all)
  {
    assert wire + ts == all;
  }

  /** Encoding succeeds, and with which tree, exactly when the unfolding is a finite tree within the
      depth limit and no watched object recurs on its own path. Shared objects are accepted. */
  lemma EncodingIsUnfolding(heap: Heap, registry: Registry, s: Schema, v: Value, t: Tree)
    requires FineRegistry(registry) && Fine(registry, s)
    ensures Encoded(heap, registry, s, v, {}, MAX_DEPTH) == Ok(t) <==>
              Unfolds(false, heap, registry, s, v, t) && Fits(t, MAX_DEPTH) && Simple(heap, registry, s, v, {})
  {
    hide Unfolds, Fits, Simple, Encoded;
    if Encoded(heap, registry, s, v, {}, MAX_DEPTH) == Ok(t) { EncodedIsGood(heap, registry, s, v, {}, MAX_DEPTH); }
    if Good(heap, registry, s, v, {}, MAX_DEPTH, t) { GoodIsEncoded(heap, registry, s, v, {}, MAX_DEPTH, t); }
  }

  // ---------------------------------------------------------------- cycles and divergence

  /** Below a value that unfolds, everything unfolds, to a smaller tree. */
  lemma {:induction false} UnfoldsBelow(heap: Heap, registry: Registry, s: Schema, v: Value, path: seq<nat>, t: Tree) returns (part: Tree)
    requires Unfolds(false, heap, registry, s, v, t) && Follow(heap, registry, s, v, path).Some?
    ensures var end := Follow(heap, registry, s, v, path).value; Unfolds(false, heap, registry, end.0, end.1, part)
    ensures if path == [] then part == t else part < t
    decreases |path|
  {
    if path == [] { return t; }
    var view := ViewOf(heap, registry, s, v);
    var child := Child(heap, registry, s, v, path[0]).value;
    if view.Items? {
      part := UnfoldsBelow(heap, registry, child.0, child.1, path[1..], t.items[path[0]]);
    } else {
      part := UnfoldsBelow(heap, registry, child.0, child.1, path[1..], t.entries[view.fields[path[0]].name]);
    }
  }

  /** A value that contains itself, seen in the same way, has no unfolding: so encoding refuses it
      at any depth, also where the recurring object is a map that is not watched. */
  lemma {:induction false} RecurringNeverUnfolds(heap: Heap, registry: Registry, s: Schema, v: Value, path: seq<nat>, t: Tree)
    requires path != [] && Follow(heap, registry, s, v, path).Some?
    requires var end := Follow(heap, registry, s, v, path).value; ViewOf(heap, registry, end.0, end.1) == ViewOf(heap, registry, s, v)
    ensures !Unfolds(false, heap, registry, s, v, t)
    decreases t
  {
    if Unfolds(false, heap, registry, s, v, t) {
      var part := UnfoldsBelow(heap, registry, s, v, path, t);
      var end := Follow(heap, registry, s, v, path).value;
      SameViewUnfolds(heap, registry, s, v, end.0, end.1, part);
      RecurringNeverUnfolds(heap, registry, s, v, path, part);
      assert false;
    }
  }

  lemma SameViewUnfolds(heap: Heap, registry: Registry, s: Schema, v: Value, s': Schema, v': Value, t: Tree)
    requires ViewOf(heap, registry, s', v') == ViewOf(heap, registry, s, v) && Unfolds(false, heap, registry, s', v', t)
    ensures Unfolds(false, heap, registry, s, v, t)
  {
  }

  lemma RecurringIsRefused(heap: Heap, registry: Registry, s: Schema, v: Value, path: seq<nat>, depth: nat)
    requires FineRegistry(registry) && Fine(registry, s) && path != [] && Follow(heap, registry, s, v, path).Some?
    requires var end := Follow(heap, registry, s, v, path).value; ViewOf(heap, registry, end.0, end.1) == ViewOf(heap, registry, s, v)
    ensures Encoded(heap, registry, s, v, {}, depth).Err?
  {
    hide Unfolds;
    var r := Encoded(heap, registry, s, v, {}, depth);
    if r.Ok? {
      EncodedIsGood(heap, registry, s, v, {}, depth);
      RecurringNeverUnfolds(heap, registry, s, v, path, r.value);
    }
  }

  /** No registered type is only a chain of references and custom representations back to itself. */
  ghost predicate NoLoops(registry: Registry) {
    forall id: TypeId :: !Core(registry, Ref(id), {}).Loops?
  }

  lemma {:induction false} CoreEnds(registry: Registry, s: Schema)
    requires NoLoops(registry)
    ensures !Core(registry, s, {}).Loops?
  {
    match s
    case Custom(representation) => CoreEnds(registry, representation);
    case Ref(id) => assert !Core(registry, Ref(id), {}).Loops?;
    case _ =>
  }

  /** Without such chains encoding never runs forever. */
  lemma {:induction false} NeverDiverges(heap: Heap, registry: Registry, s: Schema, v: Value, ancestors: set<ObjectId>, depth: nat)
    requires NoLoops(registry)
    ensures Encoded(heap, registry, s, v, ancestors, depth) != Err(Diverges)
    decreases depth, 2, 0
  {
    hide *;
    var view := ViewOf(heap, registry, s, v);
    ViewEnds(heap, registry, s, v);
    if depth > 0 && view.Items? {
      ItemsNeverDiverge(heap, registry, view.element, view.items, ancestors + {view.tracked}, depth - 1);
    }
    if depth > 0 && view.Fields? {
      FieldsNeverDiverge(heap, registry, view.fields, view.entries, ancestors + Watching(view.watched), depth - 1);
    }
    EndsIfPartsEnd(heap, registry, s, v, ancestors, depth);
  }

  lemma EndsIfPartsEnd(heap: Heap, registry: Registry, s: Schema, v: Value, ancestors: set<ObjectId>, depth: nat)
    requires var view := ViewOf(heap, registry, s, v);
             && view != Bad(Diverges) && (view.Fields? ==> view.late != Some(Diverges))
             && (depth > 0 && view.Items? ==> EncodedItems(heap, registry, view.element, view.items, ancestors + {view.tracked}, depth - 1) != Err(Diverges))
             && (depth > 0 && view.Fields? ==>
                   EncodedFields(heap, registry, view.fields, view.entries, ancestors + Watching(view.watched), depth - 1) != Err(Diverges))
    ensures Encoded(heap, registry, s, v, ancestors, depth) != Err(Diverges)
  {
    hide ViewOf, EncodedItems, EncodedFields, Watching;
  }

  lemma ViewEnds(heap: Heap, registry: Registry, s: Schema, v: Value)
    requires NoLoops(registry)
    ensures var view := ViewOf(heap, registry, s, v); view != Bad(Diverges) && (view.Fields? ==> view.late != Some(Diverges))
  {
    CoreEnds(registry, s);
  }

  lemma {:induction false} ItemsNeverDiverge(heap: Heap, registry: Registry, element: Schema, items: seq<Value>, ancestors: set<ObjectId>, depth: nat)
    requires NoLoops(registry)
    ensures EncodedItems(heap, registry, element, items, ancestors, depth) != Err(Diverges)
    decreases depth, 3, |items|
  {
    if items != [] {
      NeverDiverges(heap, registry, element, items[0], ancestors, depth);
      ItemsNeverDiverge(heap, registry, element, items[1..], ancestors, depth);
    }
  }

  lemma {:induction false} FieldsNeverDiverge(heap: Heap, registry: Registry, fields: seq<Field>, entries: map<string, Value>, ancestors: set<ObjectId>, depth: nat)
    requires NoLoops(registry)
    ensures EncodedFields(heap, registry, fields, entries, ancestors, depth) != Err(Diverges)
    decreases depth, 3, |fields|
  {
    if fields != [] {
      NeverDiverges(heap, registry, fields[0].schema, Get(entries, fields[0].name), ancestors, depth);
      FieldsNeverDiverge(heap, registry, fields[1..], entries, ancestors, depth);
    }
  }

  // ---------------------------------------------------------------- what the watch misses, and what it adds

  /** Of the fields that are not left out, the last with each name. */
  ghost function LastOfEach(fields: seq<Field>, entries: map<string, Value>): seq<Field> {
    if fields == [] then []
    else (if LeftOut(fields[0], entries) || Present(fields[1..], entries, fields[0].name) then [] else [fields[0]]) + LastOfEach(fields[1..], entries)
  }

  /** Fields may repeat a name: all of them are encoded, and what crosses is what the last with each
      name give, whose names differ. */
  lemma {:induction false} RepeatedName(heap: Heap, registry: Registry, fields: seq<Field>, entries: map<string, Value>, ancestors: set<ObjectId>, depth: nat)
    ensures DistinctNames(LastOfEach(fields, entries))
    ensures EncodedFields(heap, registry, fields, entries, ancestors, depth).Ok? <==>
              forall i :: 0 <= i < |fields| && !LeftOut(fields[i], entries) ==>
                Encoded(heap, registry, fields[i].schema, Get(entries, fields[i].name), ancestors, depth).Ok?
    ensures EncodedFields(heap, registry, fields, entries, ancestors, depth).Ok? ==>
              EncodedFields(heap, registry, fields, entries, ancestors, depth) == EncodedFields(heap, registry, LastOfEach(fields, entries), entries, ancestors, depth)
    decreases |fields|
  {
    LastNames(fields, entries);
    hide Encoded, LeftOut, Present, DistinctNames;
    if fields != [] {
      RepeatedName(heap, registry, fields[1..], entries, ancestors, depth);
      FirstEncoded(heap, registry, fields, entries, ancestors, depth);
      var rest := EncodedFields(heap, registry, fields[1..], entries, ancestors, depth);
      if rest.Ok? { NamesCross(heap, registry, fields[1..], entries, ancestors, depth); }
      KeepsLast(heap, registry, fields, entries, ancestors, depth);
    }
  }

  lemma KeepsLast(heap: Heap, registry: Registry, fields: seq<Field>, entries: map<string, Value>, ancestors: set<ObjectId>, depth: nat)
    requires fields != [] && EncodedFields(heap, registry, fields[1..], entries, ancestors, depth).Ok? ==>
               && EncodedFields(heap, registry, fields[1..], entries, ancestors, depth)
                  == EncodedFields(heap, registry, LastOfEach(fields[1..], entries), entries, ancestors, depth)
               && forall name :: name in EncodedFields(heap, registry, fields[1..], entries, ancestors, depth).value <==> Present(fields[1..], entries, name)
    requires fields != []
    ensures EncodedFields(heap, registry, fields, entries, ancestors, depth).Ok? ==>
              EncodedFields(heap, registry, fields, entries, ancestors, depth) == EncodedFields(heap, registry, LastOfEach(fields, entries), entries, ancestors, depth)
  {
    hide Encoded, LeftOut, Present;
    var f := fields[0];
    var last := LastOfEach(fields[1..], entries);
    assert [] + last == last;
    if !LeftOut(f, entries) && EncodedFields(heap, registry, fields, entries, ancestors, depth).Ok? {
      var ts := EncodedFields(heap, registry, fields[1..], entries, ancestors, depth).value;
      var t := Encoded(heap, registry, f.schema, Get(entries, f.name), ancestors, depth).value;
      if Present(fields[1..], entries, f.name) {
        assert map[f.name := t] + ts == ts;
      } else {
        assert ([f] + last)[0] == f && ([f] + last)[1..] == last;
      }
    }
  }

  lemma FirstEncoded(heap: Heap, registry: Registry, fields: seq<Field>, entries: map<string, Value>, ancestors: set<ObjectId>, depth: nat)
    requires fields != []
    ensures (forall i :: 0 <= i < |fields| && !LeftOut(fields[i], entries) ==>
               Encoded(heap, registry, fields[i].schema, Get(entries, fields[i].name), ancestors, depth).Ok?) <==>
              && (!LeftOut(fields[0], entries) ==> Encoded(heap, registry, fields[0].schema, Get(entries, fields[0].name), ancestors, depth).Ok?)
              && forall i :: 0 <= i < |fields[1..]| && !LeftOut(fields[1..][i], entries) ==>
                   Encoded(heap, registry, fields[1..][i].schema, Get(entries, fields[1..][i].name), ancestors, depth).Ok?
  {
    hide Encoded, LeftOut;
    assert forall i :: 0 <= i < |fields[1..]| ==> fields[1..][i] == fields[i + 1];
    assert forall i :: 1 <= i < |fields| ==> fields[i] == fields[1..][i - 1];
  }

  lemma {:induction false} NamesCross(heap: Heap, registry: Registry, fields: seq<Field>, entries: map<string, Value>, ancestors: set<ObjectId>, depth: nat)
    requires EncodedFields(heap, registry, fields, entries, ancestors, depth).Ok?
    ensures forall name :: name in EncodedFields(heap, registry, fields, entries, ancestors, depth).value <==> Present(fields, entries, name)
    decreases |fields|
  {
    if fields != [] {
      PresentFirst(fields, entries);
      hide Encoded, LeftOut, Present;
      NamesCross(heap, registry, fields[1..], entries, ancestors, depth);
    }
  }

  lemma {:induction false} LastNames(fields: seq<Field>, entries: map<string, Value>)
    ensures DistinctNames(LastOfEach(fields, entries))
    ensures forall i :: 0 <= i < |LastOfEach(fields, entries)| ==> Present(fields, entries, LastOfEach(fields, entries)[i].name)
    decreases |fields|
  {
    if fields != [] {
      LastNames(fields[1..], entries);
      PresentFirst(fields, entries);
    }
  }

  /** A map that contains itself under a union is not watched: only the depth limit refuses it. */
  lemma MapInUnion()
    ensures var heap: Heap := map[7 := MapNode(map["tag" := Str("Node"), "next" := Object(7)])];
            var registry: Registry := map[1 := Union([Variant("Node", [Field("next", false, Ref(1))])])];
            WatchedHere(heap, registry, Ref(1), Object(7)) == {}
            && Child(heap, registry, Ref(1), Object(7), 0) == Some((Ref(1), Object(7)))
  {
    var heap: Heap := map[7 := MapNode(map["tag" := Str("Node"), "next" := Object(7)])];
    var fields := [Field("next", false, Ref(1))];
    var registry: Registry := map[1 := Union([Variant("Node", fields)])];
    assert Core(registry, Ref(1), {}) == Resolved(registry[1]);
    assert EntriesOf(heap, Object(7)) == Some(heap[7].entries);
    assert fields[0].name in FieldNames(fields);
    assert KnownNames(heap[7].entries.Keys, fields, true);
  }

  /** An object may occur below itself where its unfolding is finite; it is refused all the same. */
  lemma ObjectBelowItself()
    ensures var heap: Heap := map[7 := RecordNode(map["x" := Object(7)])];
            var s := Record("", [Field("x", false, Record("", [Field("x", false, Void)]))]);
            Encoded(heap, map[], s, Object(7), {}, MAX_DEPTH) == Err(Cyclic)
            && Unfolds(false, heap, map[], s, Object(7), TRecord(map["x" := TRecord(map["x" := TNull])]))
  {
    var heap: Heap := map[7 := RecordNode(map["x" := Object(7)])];
    var inner := [Field("x", false, Void)];
    var outer := [Field("x", false, Record("", inner))];
    var s := Record("", outer);
    assert inner[0].name in FieldNames(inner) && outer[0].name in FieldNames(outer);
    var view := Fields(outer, heap[7].entries, map[], map[], 1, Some(7), None);
    var below := Fields(inner, heap[7].entries, map[], map[], 1, Some(7), None);
    assert ViewOf(heap, map[], s, Object(7)) == view;
    assert ViewOf(heap, map[], outer[0].schema, Object(7)) == below;
    assert Present(inner, heap[7].entries, "x") && Present(outer, heap[7].entries, "x");
    assert ViewOf(heap, map[], Void, Object(7)) == Plain(TNull);
    assert {} + Watching(Some(7)) == {7};
    hide ViewOf;
    assert Encoded(heap, map[], outer[0].schema, Object(7), {7}, MAX_DEPTH - 1) == Err(Cyclic);
    assert Encoded(heap, map[], s, Object(7), {}, MAX_DEPTH) == Err(Cyclic);
    hide Encoded;
    assert Unfolds(false, heap, map[], Void, Object(7), TNull);
    assert Unfolds(false, heap, map[], outer[0].schema, Object(7), TRecord(map["x" := TNull]));
  }
}
