/** Decoding, and when it undoes encoding. */
module BoundaryRoundTrip {
  import opened Options
  import opened BoundaryModel
  import opened BoundaryEncode
  import opened BoundaryUnfolding

  // ---------------------------------------------------------------- decoding

  const CYCLE_MESSAGE := "__voyd_dto_error: cannot encode cyclic object graph or DTO object graph exceeds maximum depth"

  function GetTree(entries: map<string, Tree>, name: string): Tree {
    if name in entries then entries[name] else TUndefined
  }

  function EitherTree(a: Tree, b: Tree): Tree {
    if a.TUndefined? || a.TNull? then b else a
  }

  /** What decoding `t` comes to with `depth` levels left. */
  function Decoded(registry: Registry, s: Schema, t: Tree, depth: nat): Result<Tree, CodecError>
    decreases depth, 2, 0
  {
    if ThroughRef(s) && t == TStr(CYCLE_MESSAGE) then Err(Cyclic)
    else
      match Core(registry, s, {})
      case Loops => Err(Diverges)
      case Unresolved => Err(UnresolvedRef)
      case Resolved(core) =>
        match core
        case Void => Ok(TUndefined)
        case Scalar(k) => CheckScalar(k, t)
        case Array(element) =>
          if !t.TArray? then Err(Mismatch)
          else if Barrier(|t.items|, None, {}, depth).Some? then Err(Barrier(|t.items|, None, {}, depth).value)
          else
            (match DecodedItems(registry, element, t.items, depth - 1)
             case Err(e) => Err(e)
             case Ok(ts) => Ok(TArray(ts)))
        case Record(tag, fields) => DecodedRecord(registry, fields, t, tag != "", if tag != "" then Tagged("tag", tag) else map[], depth)
        case Union(variants) =>
          if !t.TRecord? then Err(Mismatch)
          else
            var tag := EitherTree(GetTree(t.entries, "$variant"), GetTree(t.entries, "tag"));
            if !tag.TStr? || FindVariant(variants, tag.s).None? then Err(NoVariant)
            else DecodedRecord(registry, FindVariant(variants, tag.s).value.fields, t, true, Tagged("tag", tag.s), depth)
        case _ => Err(UnresolvedRef)
  }

  function DecodedItems(registry: Registry, element: Schema, items: seq<Tree>, depth: nat): Result<seq<Tree>, CodecError>
    decreases depth, 3, |items|
  {
    if items == [] then Ok([])
    else
      match Decoded(registry, element, items[0], depth)
      case Err(e) => Err(e)
      case Ok(t) =>
        match DecodedItems(registry, element, items[1..], depth)
        case Err(e) => Err(e)
        case Ok(ts) => Ok([t] + ts)
  }

  function DecodedRecord(registry: Registry, fields: seq<Field>, t: Tree, tags: bool, native: map<string, Tree>, depth: nat): Result<Tree, CodecError>
    decreases depth, 1, 0
  {
    var barrier := Barrier(|fields|, None, {}, depth);
    if barrier.Some? then Err(barrier.value)
    else if !t.TRecord? then Err(Mismatch)
    else if !KnownNames(t.entries.Keys, fields, tags) then Err(UnknownField)
    else
      match DecodedFields(registry, fields, t.entries, depth - 1)
      case Err(e) => Err(e)
      case Ok(ts) => Ok(TRecord(ts + native))
  }

  function DecodedFields(registry: Registry, fields: seq<Field>, entries: map<string, Tree>, depth: nat): Result<map<string, Tree>, CodecError>
    decreases depth, 3, |fields|
  {
    if fields == [] then Ok(map[])
    else if fields[0].isOptional && fields[0].name !in entries then DecodedFields(registry, fields[1..], entries, depth)
    else
      match Decoded(registry, fields[0].schema, GetTree(entries, fields[0].name), depth)
      case Err(e) => Err(e)
      case Ok(t) =>
        match DecodedFields(registry, fields[1..], entries, depth)
        case Err(e) => Err(e)
        case Ok(ts) => Ok(map[fields[0].name := t] + ts)
  }

  // ---------------------------------------------------------------- when a value comes back

  /** What was encoded is decoded to the same value in native form. */
  ghost predicate ComesBack(heap: Heap, registry: Registry, s: Schema, v: Value, t: Tree, depth: nat) {
    Decoded(registry, s, t, depth).Ok? && Unfolds(true, heap, registry, s, v, Decoded(registry, s, t, depth).value)
  }

  /** The tag that decoding a variant goes by. */
  function TagRead(entries: map<string, Tree>): Tree {
    EitherTree(GetTree(entries, "$variant"), GetTree(entries, "tag"))
  }

  /** A field that has the name of the crossing tag stands in its place: it must be there, and the
      variant of a union must still be found by it. */
  ghost predicate TagSurvives(registry: Registry, s: Schema, view: View, entries: map<string, Tree>)
    requires view.Fields?
  {
    && (view.wire != map[] ==> forall i :: 0 <= i < |view.fields| && view.fields[i].name == "$variant" ==> !LeftOut(view.fields[i], view.entries))
    && (IsUnion(registry, s) ==> "tag" in view.native && TagRead(entries) == view.native["tag"])
  }

  predicate IsUnion(registry: Registry, s: Schema) {
    Core(registry, s, {}).Resolved? && Core(registry, s, {}).schema.Union?
  }

  /** Nothing in the tree that crossed is mistaken for something else: no string behind a reference
      is the message for cycles, and no field hides a tag. */
  ghost predicate Survives(heap: Heap, registry: Registry, s: Schema, v: Value, t: Tree)
    decreases t
  {
    && !(ThroughRef(s) && t == TStr(CYCLE_MESSAGE))
    && match ViewOf(heap, registry, s, v)
       case Items(element, items, _) =>
         t.TArray? && |t.items| == |items| ==> forall i :: 0 <= i < |items| ==> Survives(heap, registry, element, items[i], t.items[i])
       case Fields(fields, entries, _, _, _, _, _) =>
         t.TRecord? ==>
           && TagSurvives(registry, s, ViewOf(heap, registry, s, v), t.entries)
           && forall i :: 0 <= i < |fields| && !LeftOut(fields[i], entries) && fields[i].name in t.entries ==>
                Survives(heap, registry, fields[i].schema, Get(entries, fields[i].name), t.entries[fields[i].name])
       case _ => true
  }

  // ---------------------------------------------------------------- what survives comes back

  lemma PlainComesBack(heap: Heap, registry: Registry, s: Schema, v: Value, t: Tree, depth: nat)
    requires ViewOf(heap, registry, s, v).Plain? && Unfolds(false, heap, registry, s, v, t) && !(ThroughRef(s) && t == TStr(CYCLE_MESSAGE))
    ensures ComesBack(heap, registry, s, v, t, depth)
  {
    hide Core, AsTree;
  }


  lemma {:induction false} SurvivorsComeBack(heap: Heap, registry: Registry, s: Schema, v: Value, t: Tree, depth: nat)
    requires FineRegistry(registry) && Fine(registry, s) && Unfolds(false, heap, registry, s, v, t) && Fits(t, depth) && Survives(heap, registry, s, v, t)
    ensures ComesBack(heap, registry, s, v, t, depth)
    decreases depth, 2, 0
  {
    ViewIsFine(heap, registry, s, v);
    hide ComesBack, Fits, ThroughRef, Fine, FineRegistry, FineFields, ViewOf, TagSurvives, TagsOnly;
    match ViewOf(heap, registry, s, v)
    case Bad(_) =>
    case Plain(_) => PlainComesBack(heap, registry, s, v, t, depth);
    case Items(_, _, _) => ArrayComesBack(heap, registry, s, v, t, depth);
    case Fields(_, _, _, _, _, _, _) => RecordComesBack(heap, registry, s, v, t, depth);
  }

  lemma {:induction false} ArrayComesBack(heap: Heap, registry: Registry, s: Schema, v: Value, t: Tree, depth: nat)
    requires FineRegistry(registry) && ViewOf(heap, registry, s, v).Items? && Fine(registry, ViewOf(heap, registry, s, v).element)
    requires Unfolds(false, heap, registry, s, v, t) && Fits(t, depth) && Survives(heap, registry, s, v, t)
    ensures ComesBack(heap, registry, s, v, t, depth)
    decreases depth, 1, 0
  {
    var view := ViewOf(heap, registry, s, v);
    ItemsComeBack(heap, registry, view.element, view.items, t.items, depth - 1);
  }


  lemma {:induction false} ItemsComeBack(heap: Heap, registry: Registry, element: Schema, items: seq<Value>, ts: seq<Tree>, depth: nat)
    requires FineRegistry(registry) && Fine(registry, element) && |ts| == |items|
    requires forall i :: 0 <= i < |items| ==> Unfolds(false, heap, registry, element, items[i], ts[i]) && Fits(ts[i], depth) && Survives(heap, registry, element, items[i], ts[i])
    ensures var r := DecodedItems(registry, element, ts, depth);
            r.Ok? && |r.value| == |items| && forall i :: 0 <= i < |items| ==> Unfolds(true, heap, registry, element, items[i], r.value[i])
    decreases depth, 3, |items|
  {
    hide Unfolds, Survives, Fits, Fine, FineRegistry, Decoded;
    if items != [] {
      SurvivorsComeBack(heap, registry, element, items[0], ts[0], depth);
      ItemsComeBack(heap, registry, element, items[1..], ts[1..], depth);
    }
  }


  /** Field `f` crossed as its tree among `all`, or was left out. */
  ghost predicate Crossed(heap: Heap, registry: Registry, f: Field, entries: map<string, Value>, all: map<string, Tree>, depth: nat) {
    if LeftOut(f, entries) then f.name !in all
    else
      && f.name in all && Unfolds(false, heap, registry, f.schema, Get(entries, f.name), all[f.name]) && Fits(all[f.name], depth)
      && Survives(heap, registry, f.schema, Get(entries, f.name), all[f.name])
  }

  /** Field `f` is read from its tree among `ts`, or was left out. */
  ghost predicate IsRead(heap: Heap, registry: Registry, f: Field, entries: map<string, Value>, ts: map<string, Tree>) {
    LeftOut(f, entries) || (f.name in ts && Unfolds(true, heap, registry, f.schema, Get(entries, f.name), ts[f.name]))
  }

  lemma {:induction false} FieldsComeBack(heap: Heap, registry: Registry, fields: seq<Field>, entries: map<string, Value>, all: map<string, Tree>, depth: nat)
    requires FineRegistry(registry) && (forall i :: 0 <= i < |fields| ==> Fine(registry, fields[i].schema))
    requires DistinctNames(fields)
    requires forall i :: 0 <= i < |fields| ==> Crossed(heap, registry, fields[i], entries, all, depth)
    ensures var r := DecodedFields(registry, fields, all, depth);
            && r.Ok? && (forall name :: name in r.value <==> Present(fields, entries, name))
            && (forall i :: 0 <= i < |fields| ==> IsRead(heap, registry, fields[i], entries, r.value))
    decreases depth, 3, |fields|
  {
    if fields != [] {
      PresentFirst(fields, entries);
      FieldsComeBack(heap, registry, fields[1..], entries, all, depth);
      if !LeftOut(fields[0], entries) {
        SurvivorsComeBack(heap, registry, fields[0].schema, Get(entries, fields[0].name), all[fields[0].name], depth);
      }
      FirstIsRead(heap, registry, fields, entries, all, depth);
      hide DecodedFields, Decoded, Unfolds, Fits, IsRead, Crossed, LeftOut;
    }
  }


  lemma FirstIsRead(heap: Heap, registry: Registry, fields: seq<Field>, entries: map<string, Value>, all: map<string, Tree>, depth: nat)
    requires fields != [] && DistinctNames(fields)
    requires Crossed(heap, registry, fields[0], entries, all, depth)
    requires !LeftOut(fields[0], entries) ==> ComesBack(heap, registry, fields[0].schema, Get(entries, fields[0].name), all[fields[0].name], depth)
    requires var r := DecodedFields(registry, fields[1..], all, depth);
             && r.Ok? && (forall name :: name in r.value <==> Present(fields[1..], entries, name))
             && (forall i :: 0 <= i < |fields[1..]| ==> IsRead(heap, registry, fields[1..][i], entries, r.value))
    ensures var r := DecodedFields(registry, fields, all, depth);
            && r.Ok? && (forall name :: name in r.value <==> Present(fields, entries, name))
            && (forall i :: 0 <= i < |fields| ==> IsRead(heap, registry, fields[i], entries, r.value))
  {
    hide Decoded, Unfolds, Fits, Survives;
    PresentFirst(fields, entries);
    var rest := DecodedFields(registry, fields[1..], all, depth).value;
    assert !Present(fields[1..], entries, fields[0].name);
    forall i | 0 <= i < |fields| ensures IsRead(heap, registry, fields[i], entries, DecodedFields(registry, fields, all, depth).value) {
      if i > 0 { assert fields[1..][i - 1] == fields[i]; }
    }
  }


  lemma {:induction false} RecordComesBack(heap: Heap, registry: Registry, s: Schema, v: Value, t: Tree, depth: nat)
    requires var view := ViewOf(heap, registry, s, v);
             FineRegistry(registry) && view.Fields? && FineFields(registry, view.fields) && TagsOnly(view)
    requires Unfolds(false, heap, registry, s, v, t) && Fits(t, depth) && Survives(heap, registry, s, v, t)
    ensures ComesBack(heap, registry, s, v, t, depth)
    decreases depth, 1, 0
  {
    hide *;
    var view := ViewOf(heap, registry, s, v);
    RecordCrossed(heap, registry, s, v, t, depth);
    ViewDecodes(heap, registry, s, v, t, depth);
    FieldsComeBack(heap, registry, view.fields, view.entries, t.entries, depth - 1);
    DecodedRecordIs(registry, view.fields, t, view.wire != map[], view.native, depth);
    NativeRecord(heap, registry, s, v, DecodedFields(registry, view.fields, t.entries, depth - 1).value);
    ComesBackAs(heap, registry, s, v, t, depth, TRecord(DecodedFields(registry, view.fields, t.entries, depth - 1).value + view.native));
  }

  lemma ComesBackAs(heap: Heap, registry: Registry, s: Schema, v: Value, t: Tree, depth: nat, n: Tree)
    requires Decoded(registry, s, t, depth) == Ok(n) && Unfolds(true, heap, registry, s, v, n)
    ensures ComesBack(heap, registry, s, v, t, depth)
  {
  }


  /** What the unfolding of a record says. */
  lemma RecordShape(heap: Heap, registry: Registry, s: Schema, v: Value, t: Tree, depth: nat)
    requires ViewOf(heap, registry, s, v).Fields? && Unfolds(false, heap, registry, s, v, t) && Fits(t, depth)
    ensures var view := ViewOf(heap, registry, s, v);
            && depth > 0 && view.length <= MAX_LENGTH && view.late.None? && t.TRecord?
            && (forall name :: name in t.entries <==> name in view.wire || Present(view.fields, view.entries, name))
            && (forall i :: 0 <= i < |view.fields| && !LeftOut(view.fields[i], view.entries) ==>
                  view.fields[i].name in t.entries && Fits(t.entries[view.fields[i].name], depth - 1)
                  && Unfolds(false, heap, registry, view.fields[i].schema, Get(view.entries, view.fields[i].name), t.entries[view.fields[i].name]))
  {
    hide ViewOf;
  }

  lemma SurvivesBelow(heap: Heap, registry: Registry, s: Schema, v: Value, t: Tree)
    requires ViewOf(heap, registry, s, v).Fields? && t.TRecord? && Survives(heap, registry, s, v, t)
    ensures var view := ViewOf(heap, registry, s, v);
            && TagSurvives(registry, s, view, t.entries)
            && forall i :: 0 <= i < |view.fields| && !LeftOut(view.fields[i], view.entries) && view.fields[i].name in t.entries ==>
                 Survives(heap, registry, view.fields[i].schema, Get(view.entries, view.fields[i].name), t.entries[view.fields[i].name])
  {
    hide ViewOf, ThroughRef, TagSurvives, LeftOut;
  }

  /** What crossed of a record, field by field. */
  lemma RecordCrossed(heap: Heap, registry: Registry, s: Schema, v: Value, t: Tree, depth: nat)
    requires ViewOf(heap, registry, s, v).Fields? && FineFields(registry, ViewOf(heap, registry, s, v).fields) && TagsOnly(ViewOf(heap, registry, s, v))
    requires Unfolds(false, heap, registry, s, v, t) && Fits(t, depth) && Survives(heap, registry, s, v, t)
    ensures var view := ViewOf(heap, registry, s, v);
            && t.TRecord? && depth > 0 && view.length <= MAX_LENGTH && view.late.None? && TagSurvives(registry, s, view, t.entries)
            && KnownNames(t.entries.Keys, view.fields, view.wire != map[]) && DistinctNames(view.fields)
            && (forall i :: 0 <= i < |view.fields| ==> Fine(registry, view.fields[i].schema))
            && (forall i :: 0 <= i < |view.fields| ==> Crossed(heap, registry, view.fields[i], view.entries, t.entries, depth - 1))
  {
    var view := ViewOf(heap, registry, s, v);
    hide ViewOf, Unfolds, Fits, Fine, Crossed, LeftOut, Present, KnownNames, Survives, ThroughRef, Core;
    RecordShape(heap, registry, s, v, t, depth);
    SurvivesBelow(heap, registry, s, v, t);
    forall i | 0 <= i < |view.fields| ensures Crossed(heap, registry, view.fields[i], view.entries, t.entries, depth - 1) {
      FieldCrossed(heap, registry, view.fields, view.entries, view.wire, t.entries, depth - 1, i);
    }
    KnownAgain(view.fields, view.entries, view.wire, t.entries.Keys);
  }

  lemma FieldCrossed(heap: Heap, registry: Registry, fields: seq<Field>, entries: map<string, Value>, wire: map<string, Tree>, all: map<string, Tree>, depth: nat, i: nat)
    requires i < |fields| && DistinctNames(fields) && wire.Keys <= {"$variant"}
    requires forall name :: name in all <==> name in wire || Present(fields, entries, name)
    requires wire != map[] && fields[i].name == "$variant" ==> !LeftOut(fields[i], entries)
    requires !LeftOut(fields[i], entries) ==>
               fields[i].name in all && Unfolds(false, heap, registry, fields[i].schema, Get(entries, fields[i].name), all[fields[i].name])
               && Fits(all[fields[i].name], depth) && Survives(heap, registry, fields[i].schema, Get(entries, fields[i].name), all[fields[i].name])
    ensures Crossed(heap, registry, fields[i], entries, all, depth)
  {
    hide Unfolds, Fits, Survives;
    if LeftOut(fields[i], entries) {
      assert !Present(fields, entries, fields[i].name);
    }
  }

  lemma DecodedRecordIs(registry: Registry, fields: seq<Field>, t: Tree, tags: bool, native: map<string, Tree>, depth: nat)
    requires |fields| <= MAX_LENGTH && depth > 0 && t.TRecord? && KnownNames(t.entries.Keys, fields, tags)
    requires DecodedFields(registry, fields, t.entries, depth - 1).Ok?
    ensures DecodedRecord(registry, fields, t, tags, native, depth) == Ok(TRecord(DecodedFields(registry, fields, t.entries, depth - 1).value + native))
  {
  }


  /** Decoding takes the same fields as encoding. */
  lemma ViewDecodes(heap: Heap, registry: Registry, s: Schema, v: Value, t: Tree, depth: nat)
    requires ViewOf(heap, registry, s, v).Fields? && t.TRecord? && !(ThroughRef(s) && t == TStr(CYCLE_MESSAGE))
    requires TagSurvives(registry, s, ViewOf(heap, registry, s, v), t.entries)
    ensures var view := ViewOf(heap, registry, s, v);
            && Decoded(registry, s, t, depth) == DecodedRecord(registry, view.fields, t, view.wire != map[], view.native, depth)
            && |view.fields| <= view.length
  {
    var core := Core(registry, s, {}).schema;
    hide Core, KnownNames, DecodedRecord;
    if core.Union? {
      var tag := Either(Get(EntriesOf(heap, v).value, "tag"), Get(EntriesOf(heap, v).value, "$variant"));
      TaggedNotEmpty("$variant", tag.s);
    } else {
      TaggedNotEmpty("$variant", core.tag);
    }
  }

  lemma KnownAgain(fields: seq<Field>, entries: map<string, Value>, wire: map<string, Tree>, names: set<string>)
    requires (forall name :: name in names <==> name in wire || Present(fields, entries, name)) && wire.Keys <= {"$variant"}
    ensures KnownNames(names, fields, wire != map[])
  {
    forall name | name in names ensures name in FieldNames(fields) || (wire != map[] && name in TAG_NAMES) {
      if name in wire { assert wire != map[]; }
    }
  }


  lemma NativeRecord(heap: Heap, registry: Registry, s: Schema, v: Value, ts: map<string, Tree>)
    requires var view := ViewOf(heap, registry, s, v);
             && view.Fields? && view.length <= MAX_LENGTH && view.late.None?
             && (forall name :: name in ts <==> Present(view.fields, view.entries, name))
             && (forall i :: 0 <= i < |view.fields| ==> IsRead(heap, registry, view.fields[i], view.entries, ts))
    ensures Unfolds(true, heap, registry, s, v, TRecord(ts + ViewOf(heap, registry, s, v).native))
  {
    hide ViewOf, LeftOut, Present;
    var view := ViewOf(heap, registry, s, v);
    var all := ts + view.native;
    forall i | 0 <= i < |view.fields| && !LeftOut(view.fields[i], view.entries) && view.fields[i].name !in view.native
      ensures view.fields[i].name in ts && all[view.fields[i].name] == ts[view.fields[i].name]
    {
      assert IsRead(heap, registry, view.fields[i], view.entries, ts);
    }
  }

  // ---------------------------------------------------------------- what comes back survived

  lemma {:induction false} DecodedItemsAre(registry: Registry, element: Schema, ts: seq<Tree>, depth: nat)
    requires DecodedItems(registry, element, ts, depth).Ok?
    ensures var ns := DecodedItems(registry, element, ts, depth).value;
            |ns| == |ts| && forall i :: 0 <= i < |ts| ==> Decoded(registry, element, ts[i], depth) == Ok(ns[i])
    decreases |ts|
  {
    hide Decoded;
    if ts != [] { DecodedItemsAre(registry, element, ts[1..], depth); }
  }

  predicate Skipped(f: Field, entries: map<string, Tree>) {
    f.isOptional && f.name !in entries
  }

  lemma {:induction false} DecodedFieldsAre(registry: Registry, fields: seq<Field>, entries: map<string, Tree>, depth: nat)
    requires DistinctNames(fields) && DecodedFields(registry, fields, entries, depth).Ok?
    ensures var ts := DecodedFields(registry, fields, entries, depth).value;
            && (forall name :: name in ts ==> name in FieldNames(fields))
            && (forall i :: 0 <= i < |fields| && !Skipped(fields[i], entries) ==>
                  fields[i].name in ts && Decoded(registry, fields[i].schema, GetTree(entries, fields[i].name), depth) == Ok(ts[fields[i].name]))
    decreases |fields|
  {
    hide Decoded;
    if fields != [] {
      var rest := fields[1..];
      DecodedFieldsAre(registry, rest, entries, depth);
      var ts := DecodedFields(registry, fields, entries, depth).value;
      forall name | name in ts ensures name in FieldNames(fields) {
        if name in FieldNames(rest) {
          var i :| 0 <= i < |rest| && rest[i].name == name;
          assert fields[i + 1].name == name;
        } else {
          assert fields[0].name == name;
        }
      }
      forall i | 0 <= i < |fields| && !Skipped(fields[i], entries)
        ensures fields[i].name in ts && Decoded(registry, fields[i].schema, GetTree(entries, fields[i].name), depth) == Ok(ts[fields[i].name])
      {
        if i > 0 {
          assert rest[i - 1] == fields[i];
        } else {
          forall j | 0 <= j < |rest| ensures rest[j].name != fields[0].name { assert rest[j] == fields[j + 1]; }
        }
      }
    }
  }

  lemma {:induction false} OnlySurvivorsComeBack(heap: Heap, registry: Registry, s: Schema, v: Value, t: Tree, depth: nat)
    requires FineRegistry(registry) && Fine(registry, s) && Unfolds(false, heap, registry, s, v, t) && Fits(t, depth)
    requires ComesBack(heap, registry, s, v, t, depth)
    ensures Survives(heap, registry, s, v, t)
    decreases depth, 2
  {
    ViewIsFine(heap, registry, s, v);
    match ViewOf(heap, registry, s, v)
    case Bad(_) =>
    case Plain(_) =>
    case Items(_, _, _) => ItemsSurvived(heap, registry, s, v, t, depth);
    case Fields(_, _, _, _, _, _, _) => RecordSurvived(heap, registry, s, v, t, depth);
  }

  lemma {:induction false} ItemsSurvived(heap: Heap, registry: Registry, s: Schema, v: Value, t: Tree, depth: nat)
    requires FineRegistry(registry) && ViewOf(heap, registry, s, v).Items? && Fine(registry, ViewOf(heap, registry, s, v).element)
    requires Unfolds(false, heap, registry, s, v, t) && Fits(t, depth) && ComesBack(heap, registry, s, v, t, depth)
    ensures Survives(heap, registry, s, v, t)
    decreases depth, 1
  {
    var view := ViewOf(heap, registry, s, v);
    DecodedItemsAre(registry, view.element, t.items, depth - 1);
    forall i | 0 <= i < |view.items| ensures Survives(heap, registry, view.element, view.items[i], t.items[i]) {
      OnlySurvivorsComeBack(heap, registry, view.element, view.items[i], t.items[i], depth - 1);
    }
  }

  lemma {:induction false} RecordSurvived(heap: Heap, registry: Registry, s: Schema, v: Value, t: Tree, depth: nat)
    requires var view := ViewOf(heap, registry, s, v);
             FineRegistry(registry) && view.Fields? && FineFields(registry, view.fields) && TagsOnly(view)
    requires Unfolds(false, heap, registry, s, v, t) && Fits(t, depth) && ComesBack(heap, registry, s, v, t, depth)
    ensures Survives(heap, registry, s, v, t)
    decreases depth, 1
  {
    hide *;
    var view := ViewOf(heap, registry, s, v);
    RecordShape(heap, registry, s, v, t, depth);
    FieldsFine(registry, view.fields);
    var ts := TagSurvived(heap, registry, s, v, t, depth);
    forall i | 0 <= i < |view.fields| && !LeftOut(view.fields[i], view.entries) && view.fields[i].name in t.entries
      ensures Survives(heap, registry, view.fields[i].schema, Get(view.entries, view.fields[i].name), t.entries[view.fields[i].name])
    {
      var f := view.fields[i];
      FieldRead(heap, registry, s, v, t, ts, depth, i);
      if f.name !in view.native {
        OnlySurvivorsComeBack(heap, registry, f.schema, Get(view.entries, f.name), t.entries[f.name], depth - 1);
      } else {
        TagFieldSurvived(heap, registry, s, v, f, t.entries[f.name], depth - 1);
      }
    }
    RecordSurvives(heap, registry, s, v, t);
  }

  lemma FieldsFine(registry: Registry, fields: seq<Field>)
    requires FineFields(registry, fields)
    ensures DistinctNames(fields) && forall i :: 0 <= i < |fields| ==> Fine(registry, fields[i].schema)
  {
  }

  lemma RecordSurvives(heap: Heap, registry: Registry, s: Schema, v: Value, t: Tree)
    requires ViewOf(heap, registry, s, v).Fields? && t.TRecord? && TagSurvives(registry, s, ViewOf(heap, registry, s, v), t.entries)
    requires var view := ViewOf(heap, registry, s, v);
             forall i :: 0 <= i < |view.fields| && !LeftOut(view.fields[i], view.entries) && view.fields[i].name in t.entries ==>
               Survives(heap, registry, view.fields[i].schema, Get(view.entries, view.fields[i].name), t.entries[view.fields[i].name])
    ensures Survives(heap, registry, s, v, t)
  {
    hide ViewOf, ThroughRef, TagSurvives, LeftOut;
  }

  /** A record that comes back was decoded by the fields it was encoded by: its tag survived. */
  lemma TagSurvived(heap: Heap, registry: Registry, s: Schema, v: Value, t: Tree, depth: nat) returns (ts: map<string, Tree>)
    requires var view := ViewOf(heap, registry, s, v); view.Fields? && DistinctNames(view.fields) && TagsOnly(view)
    requires depth > 0 && t.TRecord? && ComesBack(heap, registry, s, v, t, depth)
    requires forall name :: name in t.entries <==> name in ViewOf(heap, registry, s, v).wire || Present(ViewOf(heap, registry, s, v).fields, ViewOf(heap, registry, s, v).entries, name)
    ensures var view := ViewOf(heap, registry, s, v);
            && TagSurvives(registry, s, view, t.entries)
            && DecodedFields(registry, view.fields, t.entries, depth - 1) == Ok(ts)
            && Unfolds(true, heap, registry, s, v, TRecord(ts + view.native))
  {
    var view := ViewOf(heap, registry, s, v);
    UnionTagSurvived(heap, registry, s, v, t, depth);
    ts := DecodedFields(registry, view.fields, t.entries, depth - 1).value;
    hide ViewOf, IsUnion, Decoded, DecodedFields, ComesBack;
    if view.wire != map[] {
      forall i | 0 <= i < |view.fields| && view.fields[i].name == "$variant" ensures !LeftOut(view.fields[i], view.entries) {
        DecodedFieldsAre(registry, view.fields, t.entries, depth - 1);
        assert "$variant" in t.entries && !Skipped(view.fields[i], t.entries);
        assert "$variant" in ts && "$variant" !in view.native;
        assert Present(view.fields, view.entries, "$variant");
      }
    }
  }

  lemma UnionTagSurvived(heap: Heap, registry: Registry, s: Schema, v: Value, t: Tree, depth: nat)
    requires ViewOf(heap, registry, s, v).Fields? && TagsOnly(ViewOf(heap, registry, s, v)) && t.TRecord? && depth > 0 && ComesBack(heap, registry, s, v, t, depth)
    ensures var view := ViewOf(heap, registry, s, v);
            && (IsUnion(registry, s) ==> "tag" in view.native && TagRead(t.entries) == view.native["tag"])
            && DecodedFields(registry, view.fields, t.entries, depth - 1).Ok?
            && Unfolds(true, heap, registry, s, v, TRecord(DecodedFields(registry, view.fields, t.entries, depth - 1).value + view.native))
  {
    hide Core, ViewOf, Decoded, DecodedRecord, DecodedFields, Unfolds, TagsOnly, IsUnion, FindVariant, TagRead, Tagged;
    var view := ViewOf(heap, registry, s, v);
    if IsUnion(registry, s) {
      var tag := UnionSeen(heap, registry, s, v);
      var read, fields := UnionDecodes(registry, s, t, depth);
      DecodedRecordOk(registry, fields, t, true, Tagged("tag", read), depth);
      NativeTag(heap, registry, s, v, Decoded(registry, s, t, depth).value);
      TaggedIs("tag", tag);
      TaggedIs("tag", read);
      assert Decoded(registry, s, t, depth).value.entries["tag"] == TStr(read);
    } else {
      RecordDecodes(heap, registry, s, v, t, depth);
      DecodedRecordOk(registry, view.fields, t, view.wire != map[], view.native, depth);
    }
  }

  lemma TaggedIs(key: string, tag: string)
    ensures Tagged(key, tag).Keys == {key} && Tagged(key, tag)[key] == TStr(tag)
  {
  }

  lemma NativeTag(heap: Heap, registry: Registry, s: Schema, v: Value, n: Tree)
    requires ViewOf(heap, registry, s, v).Fields? && Unfolds(true, heap, registry, s, v, n)
    ensures n.TRecord? && forall name :: name in ViewOf(heap, registry, s, v).native ==> name in n.entries && n.entries[name] == ViewOf(heap, registry, s, v).native[name]
  {
    hide ViewOf;
  }

  lemma UnionSeen(heap: Heap, registry: Registry, s: Schema, v: Value) returns (tag: string)
    requires ViewOf(heap, registry, s, v).Fields? && IsUnion(registry, s)
    ensures var view := ViewOf(heap, registry, s, v); var found := FindVariant(Core(registry, s, {}).schema.variants, tag);
            view.native == Tagged("tag", tag) && found.Some? && view.fields == found.value.fields
  {
    hide Core, KnownNames, FindVariant;
    tag := Either(Get(EntriesOf(heap, v).value, "tag"), Get(EntriesOf(heap, v).value, "$variant")).s;
  }

  lemma UnionDecodes(registry: Registry, s: Schema, t: Tree, depth: nat) returns (tag: string, fields: seq<Field>)
    requires IsUnion(registry, s) && t.TRecord? && Decoded(registry, s, t, depth).Ok?
    ensures TagRead(t.entries) == TStr(tag)
    ensures var found := FindVariant(Core(registry, s, {}).schema.variants, tag); found.Some? && fields == found.value.fields
    ensures Decoded(registry, s, t, depth) == DecodedRecord(registry, fields, t, true, Tagged("tag", tag), depth)
  {
    hide Core, DecodedRecord, FindVariant;
    tag := TagRead(t.entries).s;
    fields := FindVariant(Core(registry, s, {}).schema.variants, tag).value.fields;
  }

  lemma RecordDecodes(heap: Heap, registry: Registry, s: Schema, v: Value, t: Tree, depth: nat)
    requires ViewOf(heap, registry, s, v).Fields? && !IsUnion(registry, s) && Decoded(registry, s, t, depth).Ok?
    ensures var view := ViewOf(heap, registry, s, v); Decoded(registry, s, t, depth) == DecodedRecord(registry, view.fields, t, view.wire != map[], view.native, depth)
  {
    hide Core, DecodedRecord, KnownNames;
    TaggedNotEmpty("$variant", Core(registry, s, {}).schema.tag);
  }

  lemma DecodedRecordOk(registry: Registry, fields: seq<Field>, t: Tree, tags: bool, native: map<string, Tree>, depth: nat)
    requires DecodedRecord(registry, fields, t, tags, native, depth).Ok? && depth > 0
    ensures DecodedFields(registry, fields, t.entries, depth - 1).Ok?
    ensures DecodedRecord(registry, fields, t, tags, native, depth) == Ok(TRecord(DecodedFields(registry, fields, t.entries, depth - 1).value + native))
  {
    hide DecodedFields, KnownNames;
  }

  /** Every field that crossed was decoded, and a field that is not hidden by the tag came back. */
  lemma FieldRead(heap: Heap, registry: Registry, s: Schema, v: Value, t: Tree, ts: map<string, Tree>, depth: nat, i: nat)
    requires var view := ViewOf(heap, registry, s, v); view.Fields? && DistinctNames(view.fields) && i < |view.fields|
    requires var view := ViewOf(heap, registry, s, v); !LeftOut(view.fields[i], view.entries) && t.TRecord? && view.fields[i].name in t.entries
    requires depth > 0 && DecodedFields(registry, ViewOf(heap, registry, s, v).fields, t.entries, depth - 1) == Ok(ts)
    requires Unfolds(true, heap, registry, s, v, TRecord(ts + ViewOf(heap, registry, s, v).native))
    ensures var view := ViewOf(heap, registry, s, v); var f := view.fields[i];
            && Decoded(registry, f.schema, t.entries[f.name], depth - 1).Ok?
            && (f.name !in view.native ==> ComesBack(heap, registry, f.schema, Get(view.entries, f.name), t.entries[f.name], depth - 1))
  {
    var view := ViewOf(heap, registry, s, v);
    DecodedFieldsAre(registry, view.fields, t.entries, depth - 1);
    hide ViewOf, Decoded, DecodedFields;
  }

  /** A field called like the tag of its record holds no container. */
  lemma TagFieldSurvived(heap: Heap, registry: Registry, s: Schema, v: Value, f: Field, t: Tree, depth: nat)
    requires var view := ViewOf(heap, registry, s, v); view.Fields? && TagsOnly(view) && view.late.None? && f.name in view.native
    requires Unfolds(false, heap, registry, f.schema, Get(ViewOf(heap, registry, s, v).entries, f.name), t) && Decoded(registry, f.schema, t, depth).Ok?
    ensures Survives(heap, registry, f.schema, Get(ViewOf(heap, registry, s, v).entries, f.name), t)
  {
    var value := Get(ViewOf(heap, registry, s, v).entries, f.name);
    TagIsPlain(heap, registry, s, v);
    assert f.name == "tag";
    NoContainer(heap, registry, f.schema, value, t);
  }

  lemma TagIsPlain(heap: Heap, registry: Registry, s: Schema, v: Value)
    requires var view := ViewOf(heap, registry, s, v); view.Fields? && view.late.None? && view.native != map[]
    ensures !Get(ViewOf(heap, registry, s, v).entries, "tag").Object?
  {
    hide Core, KnownNames;
  }

  lemma NoContainer(heap: Heap, registry: Registry, s: Schema, v: Value, t: Tree)
    requires !v.Object? && Unfolds(false, heap, registry, s, v, t)
    ensures ViewOf(heap, registry, s, v).Plain?
  {
    hide Core, CheckScalar;
  }

  // ---------------------------------------------------------------- the same, seen on the value alone

  /** A value as it crosses, if it is not a container. */
  function Crossing(heap: Heap, registry: Registry, s: Schema, v: Value): Tree {
    if ViewOf(heap, registry, s, v).Plain? then ViewOf(heap, registry, s, v).tree else TOther
  }

  /** What crosses under `name`: a field that is not left out, or else the tag. */
  function CrossingField(heap: Heap, registry: Registry, fields: seq<Field>, entries: map<string, Value>, wire: map<string, Tree>, name: string): Tree {
    if fields == [] then GetTree(wire, name)
    else if fields[0].name == name && !LeftOut(fields[0], entries) then Crossing(heap, registry, fields[0].schema, Get(entries, name))
    else CrossingField(heap, registry, fields[1..], entries, wire, name)
  }

  /** The tag that decoding will go by, as the value shows before it is encoded. */
  function TagToRead(heap: Heap, registry: Registry, view: View): Tree
    requires view.Fields?
  {
    EitherTree(CrossingField(heap, registry, view.fields, view.entries, view.wire, "$variant"),
               CrossingField(heap, registry, view.fields, view.entries, view.wire, "tag"))
  }

  ghost predicate TagKept(heap: Heap, registry: Registry, s: Schema, view: View)
    requires view.Fields?
  {
    && (view.wire != map[] ==> forall i :: 0 <= i < |view.fields| && view.fields[i].name == "$variant" ==> !LeftOut(view.fields[i], view.entries))
    && (IsUnion(registry, s) ==> "tag" in view.native && TagToRead(heap, registry, view) == view.native["tag"])
  }

  /** Nothing in the value, down to `depth` levels, is going to be mistaken for something else. */
  ghost predicate Undisturbed(heap: Heap, registry: Registry, s: Schema, v: Value, depth: nat)
    decreases depth
  {
    && !(ThroughRef(s) && Crossing(heap, registry, s, v) == TStr(CYCLE_MESSAGE))
    && match ViewOf(heap, registry, s, v)
       case Items(element, items, _) =>
         depth > 0 ==> forall i :: 0 <= i < |items| ==> Undisturbed(heap, registry, element, items[i], depth - 1)
       case Fields(fields, entries, _, _, _, _, _) =>
         && TagKept(heap, registry, s, ViewOf(heap, registry, s, v))
         && (depth > 0 ==> forall i :: 0 <= i < |fields| && !LeftOut(fields[i], entries) ==>
                             Undisturbed(heap, registry, fields[i].schema, Get(entries, fields[i].name), depth - 1))
       case _ => true
  }

  /** Values that are not containers cross as they show; containers cross as containers. */
  ghost predicate Alike(t: Tree, shown: Tree) {
    t == shown || (shown == TOther && (t.TArray? || t.TRecord?))
  }

  lemma CrossesAsShown(heap: Heap, registry: Registry, s: Schema, v: Value, t: Tree)
    requires Unfolds(false, heap, registry, s, v, t)
    ensures Alike(t, Crossing(heap, registry, s, v))
  {
    hide ViewOf;
  }

  lemma {:induction false} FieldCrossesAsShown(heap: Heap, registry: Registry, fields: seq<Field>, entries: map<string, Value>, wire: map<string, Tree>, all: map<string, Tree>, name: string)
    requires DistinctNames(fields)
    requires forall i :: 0 <= i < |fields| && !LeftOut(fields[i], entries) ==>
               fields[i].name in all && Alike(all[fields[i].name], Crossing(heap, registry, fields[i].schema, Get(entries, fields[i].name)))
    requires !Present(fields, entries, name) ==> GetTree(all, name) == GetTree(wire, name)
    ensures Alike(GetTree(all, name), CrossingField(heap, registry, fields, entries, wire, name))
  {
    hide Crossing, Alike, LeftOut;
    if fields == [] {
      assert !Present(fields, entries, name);
      AlikeItself(GetTree(all, name));
    } else {
      PresentFirst(fields, entries);
      if !(fields[0].name == name && !LeftOut(fields[0], entries)) {
        forall i | 0 <= i < |fields[1..]| && !LeftOut(fields[1..][i], entries)
          ensures fields[1..][i].name in all && Alike(all[fields[1..][i].name], Crossing(heap, registry, fields[1..][i].schema, Get(entries, fields[1..][i].name)))
        {
          assert fields[1..][i] == fields[i + 1];
        }
        FieldCrossesAsShown(heap, registry, fields[1..], entries, wire, all, name);
      }
    }
  }

  lemma AlikeItself(t: Tree)
    ensures Alike(t, t)
  {
  }

  /** The tag that is read is the tag that shows. */
  lemma TagAsShown(heap: Heap, registry: Registry, s: Schema, v: Value, t: Tree, tag: string)
    requires ViewOf(heap, registry, s, v).Fields? && DistinctNames(ViewOf(heap, registry, s, v).fields) && Unfolds(false, heap, registry, s, v, t)
    ensures t.TRecord? && (TagRead(t.entries) == TStr(tag) <==> TagToRead(heap, registry, ViewOf(heap, registry, s, v)) == TStr(tag))
  {
    var view := ViewOf(heap, registry, s, v);
    AllCross(heap, registry, s, v, t);
    hide ViewOf, Unfolds, LeftOut, Crossing, Alike, EitherTree, GetTree, Present, CrossingField;
    FieldCrossesAsShown(heap, registry, view.fields, view.entries, view.wire, t.entries, "$variant");
    FieldCrossesAsShown(heap, registry, view.fields, view.entries, view.wire, t.entries, "tag");
    AlikeTags(GetTree(t.entries, "$variant"), GetTree(t.entries, "tag"),
              CrossingField(heap, registry, view.fields, view.entries, view.wire, "$variant"),
              CrossingField(heap, registry, view.fields, view.entries, view.wire, "tag"), tag);
  }

  lemma AlikeTags(a: Tree, b: Tree, shownA: Tree, shownB: Tree, tag: string)
    requires Alike(a, shownA) && Alike(b, shownB)
    ensures EitherTree(a, b) == TStr(tag) <==> EitherTree(shownA, shownB) == TStr(tag)
  {
  }

  lemma AllCross(heap: Heap, registry: Registry, s: Schema, v: Value, t: Tree)
    requires ViewOf(heap, registry, s, v).Fields? && Unfolds(false, heap, registry, s, v, t)
    ensures var view := ViewOf(heap, registry, s, v);
            && t.TRecord?
            && (forall i :: 0 <= i < |view.fields| && !LeftOut(view.fields[i], view.entries) ==>
                  view.fields[i].name in t.entries
                  && Alike(t.entries[view.fields[i].name], Crossing(heap, registry, view.fields[i].schema, Get(view.entries, view.fields[i].name))))
            && (forall name :: !Present(view.fields, view.entries, name) ==> GetTree(t.entries, name) == GetTree(view.wire, name))
  {
    var view := ViewOf(heap, registry, s, v);
    forall i | 0 <= i < |view.fields| && !LeftOut(view.fields[i], view.entries)
      ensures view.fields[i].name in t.entries
              && Alike(t.entries[view.fields[i].name], Crossing(heap, registry, view.fields[i].schema, Get(view.entries, view.fields[i].name)))
    {
      CrossesAsShown(heap, registry, view.fields[i].schema, Get(view.entries, view.fields[i].name), t.entries[view.fields[i].name]);
    }
    hide ViewOf, Crossing, Alike, LeftOut;
  }

  lemma TagKeptIff(heap: Heap, registry: Registry, s: Schema, v: Value, t: Tree)
    requires ViewOf(heap, registry, s, v).Fields? && DistinctNames(ViewOf(heap, registry, s, v).fields) && Unfolds(false, heap, registry, s, v, t)
    ensures t.TRecord? && (TagSurvives(registry, s, ViewOf(heap, registry, s, v), t.entries) <==> TagKept(heap, registry, s, ViewOf(heap, registry, s, v)))
  {
    TagAsShown(heap, registry, s, v, t, "");
    if IsUnion(registry, s) {
      var tag := UnionSeen(heap, registry, s, v);
      TaggedIs("tag", tag);
      TagAsShown(heap, registry, s, v, t, tag);
    }
    hide ViewOf, Unfolds, Core, IsUnion, TagToRead, TagRead, LeftOut;
  }

  /** What survives can be told from the value before it is encoded. */
  lemma {:induction false} UndisturbedIff(heap: Heap, registry: Registry, s: Schema, v: Value, t: Tree, depth: nat)
    requires FineRegistry(registry) && Fine(registry, s) && Unfolds(false, heap, registry, s, v, t) && Fits(t, depth)
    ensures Survives(heap, registry, s, v, t) <==> Undisturbed(heap, registry, s, v, depth)
    decreases depth, 1
  {
    ViewIsFine(heap, registry, s, v);
    var view := ViewOf(heap, registry, s, v);
    if view.Items? {
      ItemsUndisturbedIff(heap, registry, s, v, t, depth);
    } else if view.Fields? {
      RecordUndisturbedIff(heap, registry, s, v, t, depth);
    } else {
      PlainUndisturbedIff(heap, registry, s, v, t, depth);
    }
    hide *;
  }

  lemma PlainUndisturbedIff(heap: Heap, registry: Registry, s: Schema, v: Value, t: Tree, depth: nat)
    requires !ViewOf(heap, registry, s, v).Items? && !ViewOf(heap, registry, s, v).Fields? && Unfolds(false, heap, registry, s, v, t)
    ensures Survives(heap, registry, s, v, t) <==> Undisturbed(heap, registry, s, v, depth)
  {
    hide ViewOf, ThroughRef;
  }

  lemma {:induction false} ItemsUndisturbedIff(heap: Heap, registry: Registry, s: Schema, v: Value, t: Tree, depth: nat)
    requires FineRegistry(registry) && ViewOf(heap, registry, s, v).Items? && Fine(registry, ViewOf(heap, registry, s, v).element)
    requires Unfolds(false, heap, registry, s, v, t) && Fits(t, depth)
    ensures Survives(heap, registry, s, v, t) <==> Undisturbed(heap, registry, s, v, depth)
    decreases depth, 0
  {
    var view := ViewOf(heap, registry, s, v);
    forall i | 0 <= i < |view.items|
      ensures Survives(heap, registry, view.element, view.items[i], t.items[i]) <==> Undisturbed(heap, registry, view.element, view.items[i], depth - 1)
    {
      UndisturbedIff(heap, registry, view.element, view.items[i], t.items[i], depth - 1);
    }
    hide ViewOf, ThroughRef;
  }

  lemma {:induction false} RecordUndisturbedIff(heap: Heap, registry: Registry, s: Schema, v: Value, t: Tree, depth: nat)
    requires FineRegistry(registry) && ViewOf(heap, registry, s, v).Fields? && FineFields(registry, ViewOf(heap, registry, s, v).fields)
    requires Unfolds(false, heap, registry, s, v, t) && Fits(t, depth)
    ensures Survives(heap, registry, s, v, t) <==> Undisturbed(heap, registry, s, v, depth)
    decreases depth, 0
  {
    hide *;
    var view := ViewOf(heap, registry, s, v);
    RecordShape(heap, registry, s, v, t, depth);
    FieldsFine(registry, view.fields);
    TagKeptIff(heap, registry, s, v, t);
    forall i | 0 <= i < |view.fields| && !LeftOut(view.fields[i], view.entries)
      ensures Survives(heap, registry, view.fields[i].schema, Get(view.entries, view.fields[i].name), t.entries[view.fields[i].name])
         <==> Undisturbed(heap, registry, view.fields[i].schema, Get(view.entries, view.fields[i].name), depth - 1)
    {
      UndisturbedIff(heap, registry, view.fields[i].schema, Get(view.entries, view.fields[i].name), t.entries[view.fields[i].name], depth - 1);
    }
    RecordUndisturbed(heap, registry, s, v, t, depth);
  }

  lemma RecordUndisturbed(heap: Heap, registry: Registry, s: Schema, v: Value, t: Tree, depth: nat)
    requires ViewOf(heap, registry, s, v).Fields? && t.TRecord? && depth > 0
    requires TagSurvives(registry, s, ViewOf(heap, registry, s, v), t.entries) <==> TagKept(heap, registry, s, ViewOf(heap, registry, s, v))
    requires var view := ViewOf(heap, registry, s, v);
             forall i :: 0 <= i < |view.fields| && !LeftOut(view.fields[i], view.entries) ==>
               view.fields[i].name in t.entries
               && (Survives(heap, registry, view.fields[i].schema, Get(view.entries, view.fields[i].name), t.entries[view.fields[i].name])
                   <==> Undisturbed(heap, registry, view.fields[i].schema, Get(view.entries, view.fields[i].name), depth - 1))
    ensures Survives(heap, registry, s, v, t) <==> Undisturbed(heap, registry, s, v, depth)
  {
    hide ViewOf, ThroughRef, TagSurvives, TagKept, LeftOut;
  }

  // ---------------------------------------------------------------- the round trip

  /** The round trip: decoding what encoding produced gives the value in native form (maps as
      records, variants under `tag`, absent optional fields dropped, void undefined) if and only if
      nothing in the value is going to be mistaken for something else. */
  lemma RoundTripIff(heap: Heap, registry: Registry, s: Schema, v: Value)
    requires FineRegistry(registry) && Fine(registry, s) && Encoded(heap, registry, s, v, {}, MAX_DEPTH).Ok?
    ensures ComesBack(heap, registry, s, v, Encoded(heap, registry, s, v, {}, MAX_DEPTH).value, MAX_DEPTH) <==> Undisturbed(heap, registry, s, v, MAX_DEPTH)
  {
    hide *;
    var t := Encoded(heap, registry, s, v, {}, MAX_DEPTH).value;
    EncodedIsGood(heap, registry, s, v, {}, MAX_DEPTH);
    GoodUnfolds(heap, registry, s, v, t);
    UndisturbedIff(heap, registry, s, v, t, MAX_DEPTH);
    if Survives(heap, registry, s, v, t) { SurvivorsComeBack(heap, registry, s, v, t, MAX_DEPTH); }
    if ComesBack(heap, registry, s, v, t, MAX_DEPTH) { OnlySurvivorsComeBack(heap, registry, s, v, t, MAX_DEPTH); }
  }

  lemma GoodUnfolds(heap: Heap, registry: Registry, s: Schema, v: Value, t: Tree)
    requires Good(heap, registry, s, v, {}, MAX_DEPTH, t)
    ensures Unfolds(false, heap, registry, s, v, t) && Fits(t, MAX_DEPTH)
  {
  }

  /** A schema where nothing can be mistaken: next to a tag no field is called like one, and
      references lead to containers. */
  ghost predicate Clear(registry: Registry, s: Schema) {
    match s
    case Array(element) => Clear(registry, element)
    case Record(tag, fields) => (tag != "" ==> ClearNames(fields)) && forall i :: 0 <= i < |fields| ==> Clear(registry, fields[i].schema)
    case Union(variants) =>
      forall i :: 0 <= i < |variants| ==>
        ClearNames(variants[i].fields) && forall j :: 0 <= j < |variants[i].fields| ==> Clear(registry, variants[i].fields[j].schema)
    case Custom(representation) => Clear(registry, representation)
    case Ref(id) => Core(registry, s, {}).Resolved? ==> Container(Core(registry, s, {}).schema)
    case _ => true
  }

  predicate ClearNames(fields: seq<Field>) {
    forall i :: 0 <= i < |fields| ==> fields[i].name !in TAG_NAMES
  }

  predicate Container(s: Schema) { s.Array? || s.Record? || s.Union? }

  ghost predicate ClearRegistry(registry: Registry) {
    forall id :: id in registry ==> Clear(registry, registry[id])
  }

  lemma {:induction false} CoreIsClear(registry: Registry, s: Schema, seen: set<TypeId>)
    requires ClearRegistry(registry) && Clear(registry, s) && Core(registry, s, seen).Resolved?
    ensures Clear(registry, Core(registry, s, seen).schema)
    decreases registry.Keys - seen, s
  {
    match s
    case Custom(representation) => CoreIsClear(registry, representation, seen);
    case Ref(id) =>
      assert id in registry.Keys - seen;
      CoreIsClear(registry, registry[id], seen + {id});
    case _ =>
  }

  lemma {:induction false} RefToContainer(registry: Registry, s: Schema)
    requires Clear(registry, s) && ThroughRef(s) && Core(registry, s, {}).Resolved?
    ensures Container(Core(registry, s, {}).schema)
  {
    match s
    case Custom(representation) => RefToContainer(registry, representation);
    case _ =>
  }


  /** With such schemas every value that is encoded comes back. */
  lemma {:induction false} ClearSurvives(heap: Heap, registry: Registry, s: Schema, v: Value, t: Tree)
    requires ClearRegistry(registry) && Clear(registry, s) && Unfolds(false, heap, registry, s, v, t)
    ensures Survives(heap, registry, s, v, t)
    decreases t
  {
    var view := ViewOf(heap, registry, s, v);
    if ThroughRef(s) { RefToContainer(registry, s); }
    if view.Items? || view.Fields? { CoreIsClear(registry, s, {}); }
    if view.Items? {
      forall i | 0 <= i < |view.items| ensures Survives(heap, registry, view.element, view.items[i], t.items[i]) {
        ClearSurvives(heap, registry, view.element, view.items[i], t.items[i]);
      }
    } else if view.Fields? {
      ClearTagSurvives(heap, registry, s, v, t);
      forall i | 0 <= i < |view.fields| && !LeftOut(view.fields[i], view.entries)
        ensures Survives(heap, registry, view.fields[i].schema, Get(view.entries, view.fields[i].name), t.entries[view.fields[i].name])
      {
        ClearSurvives(heap, registry, view.fields[i].schema, Get(view.entries, view.fields[i].name), t.entries[view.fields[i].name]);
      }
    }
  }

  lemma ClearTagSurvives(heap: Heap, registry: Registry, s: Schema, v: Value, t: Tree)
    requires ViewOf(heap, registry, s, v).Fields? && Clear(registry, Core(registry, s, {}).schema) && Unfolds(false, heap, registry, s, v, t)
    ensures TagSurvives(registry, s, ViewOf(heap, registry, s, v), t.entries)
    ensures var view := ViewOf(heap, registry, s, v); forall i :: 0 <= i < |view.fields| ==> Clear(registry, view.fields[i].schema)
  {
    var view := ViewOf(heap, registry, s, v);
    ClearView(heap, registry, s, v);
    if IsUnion(registry, s) {
      var tag := UnionSeen(heap, registry, s, v);
      WireTag(heap, registry, s, v, tag);
      TaggedIs("$variant", tag);
      TaggedIs("tag", tag);
      hide Core, ViewOf, Clear, FindVariant, Tagged, IsUnion;
      assert !Present(view.fields, view.entries, "$variant");
    } else {
      hide Core, ViewOf, Clear, Unfolds, IsUnion;
    }
  }

  lemma WireTag(heap: Heap, registry: Registry, s: Schema, v: Value, tag: string)
    requires ViewOf(heap, registry, s, v).Fields? && IsUnion(registry, s) && ViewOf(heap, registry, s, v).native == Tagged("tag", tag)
    ensures ViewOf(heap, registry, s, v).wire == Tagged("$variant", tag)
  {
    hide Core, KnownNames, FindVariant;
    assert Tagged("tag", tag)["tag"] == TStr(tag);
  }

  lemma ClearView(heap: Heap, registry: Registry, s: Schema, v: Value)
    requires ViewOf(heap, registry, s, v).Fields? && Clear(registry, Core(registry, s, {}).schema)
    ensures var view := ViewOf(heap, registry, s, v);
            && (view.wire != map[] ==> ClearNames(view.fields))
            && forall i :: 0 <= i < |view.fields| ==> Clear(registry, view.fields[i].schema)
  {
    var core := Core(registry, s, {}).schema;
    if core.Union? {
      var tag := UnionSeen(heap, registry, s, v);
      VariantFound(core.variants, tag);
      hide Core, KnownNames, FindVariant;
    } else {
      hide Core, KnownNames;
    }
  }

  lemma RoundTrip(heap: Heap, registry: Registry, s: Schema, v: Value)
    requires FineRegistry(registry) && Fine(registry, s) && ClearRegistry(registry) && Clear(registry, s) && Encoded(heap, registry, s, v, {}, MAX_DEPTH).Ok?
    ensures ComesBack(heap, registry, s, v, Encoded(heap, registry, s, v, {}, MAX_DEPTH).value, MAX_DEPTH)
  {
    hide *;
    var t := Encoded(heap, registry, s, v, {}, MAX_DEPTH).value;
    EncodedIsGood(heap, registry, s, v, {}, MAX_DEPTH);
    GoodUnfolds(heap, registry, s, v, t);
    ClearSurvives(heap, registry, s, v, t);
    UndisturbedIff(heap, registry, s, v, t, MAX_DEPTH);
    RoundTripIff(heap, registry, s, v);
  }

  // ---------------------------------------------------------------- what does not come back

  /** A string behind a reference that happens to be the message for cycles. */
  lemma MessageIsRefused()
    ensures var registry: Registry := map[1 := Scalar(SString)];
            Encoded(map[], registry, Ref(1), Str(CYCLE_MESSAGE), {}, MAX_DEPTH) == Ok(TStr(CYCLE_MESSAGE))
            && Decoded(registry, Ref(1), TStr(CYCLE_MESSAGE), MAX_DEPTH) == Err(Cyclic)
  {
    hide Utf8Length;
    var registry: Registry := map[1 := Scalar(SString)];
    assert Core(registry, Ref(1), {}) == Resolved(Scalar(SString));
    ShortEnough(CYCLE_MESSAGE);
  }

  lemma {:induction false} ShortEnough(s: string)
    ensures Utf8Length(s) <= 4 * |s|
  {
    if s != "" { ShortEnough(s[1..]); }
  }

  /** A field called like the crossing tag stands in its place, and the variant is not found. */
  lemma FieldHidesTag()
    ensures var heap: Heap := map[7 := RecordNode(map["tag" := Str("V"), "$variant" := Num(Whole(5))])];
            var s := Union([Variant("V", [Field("$variant", false, Scalar(SI32))])]);
            Encoded(heap, map[], s, Object(7), {}, MAX_DEPTH) == Ok(TRecord(map["$variant" := TNum(Whole(5))]))
            && Decoded(map[], s, TRecord(map["$variant" := TNum(Whole(5))]), MAX_DEPTH) == Err(NoVariant)
  {
    var heap: Heap := map[7 := RecordNode(map["tag" := Str("V"), "$variant" := Num(Whole(5))])];
    var fields := [Field("$variant", false, Scalar(SI32))];
    var s := Union([Variant("V", fields)]);
    var view := Fields(fields, heap[7].entries, Tagged("$variant", "V"), Tagged("tag", "V"), 1, Some(7), None);
    assert fields[0].name in FieldNames(fields);
    assert ViewOf(heap, map[], s, Object(7)) == view;
    assert ViewOf(heap, map[], Scalar(SI32), Num(Whole(5))) == Plain(TNum(Whole(5)));
    hide ViewOf;
    var n := TNum(Whole(5));
    assert Encoded(heap, map[], Scalar(SI32), Num(Whole(5)), {7}, MAX_DEPTH - 1) == Ok(n);
    assert {} + Watching(Some(7)) == {7};
    assert fields[1..] == [];
    assert EncodedFields(heap, map[], fields, heap[7].entries, {7}, MAX_DEPTH - 1) == Ok(map["$variant" := n] + map[]);
    assert Tagged("$variant", "V") + (map["$variant" := n] + map[]) == map["$variant" := n];
    assert EncodedRecord(heap, map[], view, {}, MAX_DEPTH) == Ok(TRecord(map["$variant" := n]));
  }
}
