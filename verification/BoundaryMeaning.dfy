/** What crosses the boundary, kind by kind, told from the schema and the host's entries alone. */
module BoundaryMeaning {
  import opened Options
  import opened BoundaryModel
  import opened BoundaryEncode
  import opened BoundaryUnfolding
  import opened BoundaryRoundTrip

  // ---------------------------------------------------------------- scalars

  lemma ScalarIs(heap: Heap, registry: Registry, k: Scalar, v: Value, ancestors: set<ObjectId>, depth: nat)
    ensures Encoded(heap, registry, Scalar(k), v, ancestors, depth) == CheckScalar(k, AsTree(heap, v))
  {
    hide CheckScalar, AsTree, RecordView, UnionView;
    assert Core(registry, Scalar(k), {}) == Resolved(Scalar(k));
  }

  /** Scalars cross as they are, within their limits. */
  lemma ScalarEncoding(heap: Heap, registry: Registry, v: Value, ancestors: set<ObjectId>, depth: nat, t: Tree)
    ensures Encoded(heap, registry, Scalar(SBool), v, ancestors, depth) == Ok(t) <==> v.Bool? && t == TBool(v.b)
    ensures Encoded(heap, registry, Scalar(SI32), v, ancestors, depth) == Ok(t) <==>
              v.Num? && v.n.Whole? && -2147483648 <= v.n.value <= 2147483647 && t == TNum(v.n)
    ensures Encoded(heap, registry, Scalar(SI64), v, ancestors, depth) == Ok(t) <==>
              || (v.Big? && -9223372036854775808 <= v.i <= 9223372036854775807 && t == TBig(v.i))
              || (v.Num? && v.n.Whole? && -9007199254740991 <= v.n.value <= 9007199254740991 && t == TNum(v.n))
    ensures Encoded(heap, registry, Scalar(SFloat), v, ancestors, depth) == Ok(t) <==> v.Num? && t == TNum(v.n)
    ensures Encoded(heap, registry, Scalar(SString), v, ancestors, depth) == Ok(t) <==>
              v.Str? && Utf8Length(v.s) <= 16777216 && t == TStr(v.s)
    ensures Encoded(heap, registry, Scalar(SBytes), v, ancestors, depth) == Ok(t) <==>
              v.Object? && v.id in heap && heap[v.id].BytesNode? && |heap[v.id].bytes| <= 16777216 && t == TBytes(heap[v.id].bytes)
    ensures Encoded(heap, registry, Void, v, ancestors, depth) == Ok(TNull)
  {
    hide Utf8Length;
    forall k ensures Encoded(heap, registry, Scalar(k), v, ancestors, depth) == CheckScalar(k, AsTree(heap, v)) { ScalarIs(heap, registry, k, v, ancestors, depth); }
    assert Encoded(heap, registry, Void, v, ancestors, depth) == Ok(TNull) by { hide CheckScalar, AsTree, RecordView, UnionView; }
    hide Encoded;
  }

  /** Why a scalar is refused. */
  lemma ScalarErrors(heap: Heap, registry: Registry, k: Scalar, v: Value, ancestors: set<ObjectId>, depth: nat)
    requires Encoded(heap, registry, Scalar(k), v, ancestors, depth).Err?
    ensures Encoded(heap, registry, Scalar(k), v, ancestors, depth).error ==
              if (k == SString && v.Str?) || (k == SBytes && v.Object? && v.id in heap && heap[v.id].BytesNode?) then TooManyBytes else Mismatch
  {
    ScalarIs(heap, registry, k, v, ancestors, depth);
    hide Encoded, Utf8Length;
  }

  /** A text takes one to four bytes a character. */
  lemma {:induction false} Utf8Meaning(s: string, c: char)
    ensures Utf8Length("") == 0
    ensures Utf8Length(s + [c]) == Utf8Length(s) + if c as int <= 0x7f then 1 else if c as int <= 0x7ff then 2 else if c as int <= 0xffff then 3 else 4
  {
    if s == "" {
      assert [c][1..] == "" && "" + [c] == [c];
    } else {
      assert (s + [c])[0] == s[0] && (s + [c])[1..] == s[1..] + [c];
      Utf8Meaning(s[1..], c);
    }
  }

  // ---------------------------------------------------------------- references

  /** A custom type crosses as its representation. */
  lemma CustomEncoding(heap: Heap, registry: Registry, representation: Schema, v: Value, ancestors: set<ObjectId>, depth: nat)
    ensures Encoded(heap, registry, Custom(representation), v, ancestors, depth) == Encoded(heap, registry, representation, v, ancestors, depth)
  {
    hide EncodedArray, EncodedRecord, RecordView, UnionView, CheckScalar;
  }

  /** A reference crosses as the schema registered for it, which must not be a reference itself. */
  lemma RefEncoding(heap: Heap, registry: Registry, id: TypeId, v: Value, ancestors: set<ObjectId>, depth: nat)
    ensures id !in registry || registry[id].Ref? ==> Encoded(heap, registry, Ref(id), v, ancestors, depth) == Err(UnresolvedRef)
    ensures id in registry && !registry[id].Ref? ==>
              Encoded(heap, registry, Ref(id), v, ancestors, depth) == Encoded(heap, registry, registry[id], v, ancestors, depth)
  {
    hide EncodedArray, EncodedRecord, RecordView, UnionView, CheckScalar;
    if id in registry && !registry[id].Ref? && Core(registry, Ref(id), {}).Loops? { EndlessBelow(registry, id); }
    if id in registry && !registry[id].Ref? && !Core(registry, Ref(id), {}).Loops? {
      assert {} + {id} == {id};
      CoreWithLess(registry, registry[id], {id}, {});
    }
  }

  /** What a chain leads to does not depend on what was met before, unless it comes back to itself. */
  lemma {:induction false} CoreWithLess(registry: Registry, s: Schema, seen: set<TypeId>, less: set<TypeId>)
    requires less <= seen && !Core(registry, s, seen).Loops?
    ensures Core(registry, s, less) == Core(registry, s, seen)
    decreases registry.Keys - seen, s
  {
    match s
    case Custom(representation) => CoreWithLess(registry, representation, seen, less);
    case Ref(id) =>
      if id in registry && !registry[id].Ref? {
        assert id in registry.Keys - seen;
        CoreWithLess(registry, registry[id], seen + {id}, less + {id});
      }
    case _ =>
  }

  /** What a schema that only stands for another stands for. */
  function Next(registry: Registry, s: Schema): Option<Schema> {
    match s
    case Custom(representation) => Some(representation)
    case Ref(id) => if id in registry && !registry[id].Ref? then Some(registry[id]) else None
    case _ => None
  }

  function Follow(registry: Registry, s: Schema, n: nat): Option<Schema>
    decreases n
  {
    if n == 0 then Some(s)
    else
      match Next(registry, s)
      case None => None
      case Some(t) => Follow(registry, t, n - 1)
  }

  /** A chain that never comes to a schema of another kind. */
  ghost predicate Endless(registry: Registry, s: Schema) {
    forall n: nat :: Follow(registry, s, n).Some?
  }

  lemma {:induction false} FollowOn(registry: Registry, s: Schema, m: nat, n: nat)
    requires Follow(registry, s, m).Some?
    ensures Follow(registry, s, m + n) == Follow(registry, Follow(registry, s, m).value, n)
    decreases m
  {
    if m > 0 { FollowOn(registry, Next(registry, s).value, m - 1, n); }
  }

  lemma {:induction false} FollowLess(registry: Registry, s: Schema, m: nat, n: nat)
    requires Follow(registry, s, m).Some? && n <= m
    ensures Follow(registry, s, n).Some?
    decreases m
  {
    if n > 0 { FollowLess(registry, Next(registry, s).value, m - 1, n - 1); }
  }

  lemma {:induction false} CycleIsEndless(registry: Registry, s: Schema, k: nat, n: nat)
    requires k > 0 && Follow(registry, s, k) == Some(s)
    ensures Follow(registry, s, n).Some?
  {
    if n <= k {
      FollowLess(registry, s, k, n);
    } else {
      CycleIsEndless(registry, s, k, n - k);
      FollowOn(registry, s, k, n - k);
    }
  }

  /** Every type met before leads to `s`. */
  ghost predicate AllLead(registry: Registry, seen: set<TypeId>, s: Schema) {
    forall id :: id in seen ==> LeadsTo(registry, id, s)
  }

  ghost predicate LeadsTo(registry: Registry, id: TypeId, s: Schema) {
    exists k: nat :: k > 0 && Follow(registry, Ref(id), k) == Some(s)
  }

  lemma LeadsOn(registry: Registry, seen: set<TypeId>, s: Schema, t: Schema)
    requires AllLead(registry, seen, s) && Next(registry, s) == Some(t)
    ensures AllLead(registry, seen, t)
  {
    forall id | id in seen ensures LeadsTo(registry, id, t) {
      assert LeadsTo(registry, id, s);
      var k: nat :| k > 0 && Follow(registry, Ref(id), k) == Some(s);
      FollowOn(registry, Ref(id), k, 1);
      assert Follow(registry, s, 1) == Follow(registry, t, 0);
      assert Follow(registry, Ref(id), k + 1) == Some(t);
    }
  }

  lemma {:induction false} LoopsIff(registry: Registry, s: Schema, seen: set<TypeId>)
    requires AllLead(registry, seen, s)
    ensures Core(registry, s, seen).Loops? <==> Endless(registry, s)
    decreases registry.Keys - seen, s
  {
    match Next(registry, s)
    case None => assert Follow(registry, s, 1).None?;
    case Some(t) =>
      EndlessNext(registry, s, t);
      LeadsOn(registry, seen, s, t);
      if s.Custom? {
        LoopsIff(registry, t, seen);
      } else if s.target in seen {
        assert LeadsTo(registry, s.target, s);
        var k: nat :| k > 0 && Follow(registry, s, k) == Some(s);
        forall n: nat ensures Follow(registry, s, n).Some? { CycleIsEndless(registry, s, k, n); }
      } else {
        assert s.target in registry.Keys - seen;
        assert Follow(registry, s, 1) == Follow(registry, t, 0) == Some(t);
        LoopsIff(registry, t, seen + {s.target});
      }
  }

  lemma EndlessNext(registry: Registry, s: Schema, t: Schema)
    requires Next(registry, s) == Some(t)
    ensures Endless(registry, s) <==> Endless(registry, t)
  {
    if Endless(registry, s) {
      forall n: nat ensures Follow(registry, t, n).Some? { assert Follow(registry, s, n + 1).Some?; }
    }
    if Endless(registry, t) {
      forall n: nat ensures Follow(registry, s, n).Some? { if n > 0 { assert Follow(registry, t, n - 1).Some?; } }
    }
  }

  lemma EndlessBelow(registry: Registry, id: TypeId)
    requires id in registry && !registry[id].Ref? && Core(registry, Ref(id), {}).Loops?
    ensures Core(registry, registry[id], {}).Loops?
  {
    LoopsIff(registry, Ref(id), {});
    EndlessNext(registry, Ref(id), registry[id]);
    LoopsIff(registry, registry[id], {});
  }

  /** Following a chain that never ends is all that encoding does. */
  lemma EndlessDiverges(heap: Heap, registry: Registry, s: Schema, v: Value, ancestors: set<ObjectId>, depth: nat)
    requires Endless(registry, s)
    ensures Encoded(heap, registry, s, v, ancestors, depth) == Err(Diverges)
  {
    LoopsIff(registry, s, {});
    hide EncodedArray, EncodedRecord, RecordView, UnionView, CheckScalar, Core, Follow;
  }

  // ---------------------------------------------------------------- arrays

  /** An array crosses item by item, unless it is too long, too deep or inside itself. */
  lemma ArrayEncodingIff(heap: Heap, registry: Registry, element: Schema, v: Value, ancestors: set<ObjectId>, depth: nat, t: Tree)
    ensures Encoded(heap, registry, Array(element), v, ancestors, depth) == Ok(t) <==>
              && v.Object? && v.id in heap && heap[v.id].ArrayNode? && v.id !in ancestors && depth > 0
              && t.TArray? && |t.items| == |heap[v.id].items| <= 1048576
              && forall i :: 0 <= i < |t.items| ==> Encoded(heap, registry, element, heap[v.id].items[i], ancestors + {v.id}, depth - 1) == Ok(t.items[i])
  {
    if v.Object? && v.id in heap && heap[v.id].ArrayNode? && depth > 0 {
      if t.TArray? { ItemsEncoding(heap, registry, element, heap[v.id].items, ancestors + {v.id}, depth - 1, t.items); }
      hide EncodedItems;
    }
  }

  lemma {:induction false} ItemsEncoding(heap: Heap, registry: Registry, element: Schema, items: seq<Value>, ancestors: set<ObjectId>, depth: nat, ts: seq<Tree>)
    ensures EncodedItems(heap, registry, element, items, ancestors, depth) == Ok(ts) <==>
              |ts| == |items| && forall i :: 0 <= i < |ts| ==> Encoded(heap, registry, element, items[i], ancestors, depth) == Ok(ts[i])
    decreases |items|
  {
    hide Encoded;
    if items != [] && ts != [] {
      ItemsEncoding(heap, registry, element, items[1..], ancestors, depth, ts[1..]);
      FirstItem(heap, registry, element, items, ancestors, depth, ts);
      assert ts == [ts[0]] + ts[1..];
    }
  }

  lemma FirstItem(heap: Heap, registry: Registry, element: Schema, items: seq<Value>, ancestors: set<ObjectId>, depth: nat, ts: seq<Tree>)
    requires items != [] && ts != []
    ensures |ts| == |items| && (forall i :: 0 <= i < |ts| ==> Encoded(heap, registry, element, items[i], ancestors, depth) == Ok(ts[i])) <==>
              && Encoded(heap, registry, element, items[0], ancestors, depth) == Ok(ts[0])
              && |ts[1..]| == |items[1..]|
              && forall i :: 0 <= i < |ts[1..]| ==> Encoded(heap, registry, element, items[1..][i], ancestors, depth) == Ok(ts[1..][i])
  {
    hide Encoded;
    assert forall i :: 1 <= i < |ts| ==> ts[i] == ts[1..][i - 1];
    assert forall i :: 1 <= i < |items| ==> items[i] == items[1..][i - 1];
  }

  /** Why an array is refused: it is none, it is too long, too deep or inside itself, or its first item
      that cannot be encoded is. */
  lemma ArrayErrors(heap: Heap, registry: Registry, element: Schema, v: Value, ancestors: set<ObjectId>, depth: nat) returns (i: nat)
    requires Encoded(heap, registry, Array(element), v, ancestors, depth).Err?
    ensures var error := Encoded(heap, registry, Array(element), v, ancestors, depth).error;
            if !(v.Object? && v.id in heap && heap[v.id].ArrayNode?) then error == Mismatch
            else if |heap[v.id].items| > 1048576 then error == TooLong
            else if depth == 0 then error == TooDeep
            else if v.id in ancestors then error == Cyclic
            else
              && i < |heap[v.id].items| && Encoded(heap, registry, element, heap[v.id].items[i], ancestors + {v.id}, depth - 1) == Err(error)
              && forall j :: 0 <= j < i ==> Encoded(heap, registry, element, heap[v.id].items[j], ancestors + {v.id}, depth - 1).Ok?
  {
    i := 0;
    if v.Object? && v.id in heap && heap[v.id].ArrayNode? && depth > 0 {
      var items := heap[v.id].items;
      if EncodedItems(heap, registry, element, items, ancestors + {v.id}, depth - 1).Err? {
        i := ItemsError(heap, registry, element, items, ancestors + {v.id}, depth - 1);
      }
      hide EncodedItems;
    }
  }

  lemma {:induction false} ItemsError(heap: Heap, registry: Registry, element: Schema, items: seq<Value>, ancestors: set<ObjectId>, depth: nat) returns (i: nat)
    requires EncodedItems(heap, registry, element, items, ancestors, depth).Err?
    ensures i < |items| && Encoded(heap, registry, element, items[i], ancestors, depth) == Err(EncodedItems(heap, registry, element, items, ancestors, depth).error)
    ensures forall j :: 0 <= j < i ==> Encoded(heap, registry, element, items[j], ancestors, depth).Ok?
    decreases |items|
  {
    hide Encoded;
    if Encoded(heap, registry, element, items[0], ancestors, depth).Err? {
      i := 0;
    } else {
      var k := ItemsError(heap, registry, element, items[1..], ancestors, depth);
      i := k + 1;
      assert forall j :: 1 <= j <= i ==> items[j] == items[1..][j - 1];
    }
  }

  // ---------------------------------------------------------------- fields

  /** What the host has under a name. */
  function At(e: map<string, Value>, name: string): Value {
    if name in e then e[name] else Undefined
  }

  /** An optional field crosses if its entry is there and not undefined, and any other always. */
  predicate Crosses(e: map<string, Value>, f: Field) {
    !f.isOptional || (f.name in e && e[f.name] != Undefined)
  }

  ghost predicate FieldCrosses(heap: Heap, registry: Registry, f: Field, e: map<string, Value>, ancestors: set<ObjectId>, depth: nat, ts: map<string, Tree>) {
    Crosses(e, f) ==> f.name in ts && Encoded(heap, registry, f.schema, At(e, f.name), ancestors, depth) == Ok(ts[f.name])
  }

  /** `ts` has the encoding of each field that crosses, and nothing else. */
  ghost predicate FieldsCross(heap: Heap, registry: Registry, fields: seq<Field>, e: map<string, Value>, ancestors: set<ObjectId>, depth: nat, ts: map<string, Tree>) {
    && (forall i :: 0 <= i < |fields| ==> FieldCrosses(heap, registry, fields[i], e, ancestors, depth, ts))
    && (forall name :: name in ts ==> HasField(fields, e, name))
  }

  /** Some field with this name crosses. */
  ghost predicate HasField(fields: seq<Field>, e: map<string, Value>, name: string) {
    exists i :: 0 <= i < |fields| && fields[i].name == name && Crosses(e, fields[i])
  }

  lemma {:induction false} FieldsEncodingIff(heap: Heap, registry: Registry, fields: seq<Field>, e: map<string, Value>, ancestors: set<ObjectId>, depth: nat, ts: map<string, Tree>)
    requires DistinctNames(fields)
    ensures EncodedFields(heap, registry, fields, e, ancestors, depth) == Ok(ts) <==> FieldsCross(heap, registry, fields, e, ancestors, depth, ts)
    decreases |fields|
  {
    hide Encoded;
    if fields == [] {
      assert FieldsCross(heap, registry, fields, e, ancestors, depth, ts) <==> ts == map[];
    } else {
      var f, rest := fields[0], fields[1..];
      assert forall i :: 0 <= i < |rest| ==> rest[i] == fields[i + 1] && rest[i].name != f.name;
      if Crosses(e, f) {
        var r := EncodedFields(heap, registry, rest, e, ancestors, depth);
        if r.Ok? { FieldsEncodingIff(heap, registry, rest, e, ancestors, depth, r.value); }
        FirstEncodes(heap, registry, fields, e, ancestors, depth, ts);
        FieldsEncodingIff(heap, registry, rest, e, ancestors, depth, ts - {f.name});
        FirstCrosses(heap, registry, fields, e, ancestors, depth, ts);
      } else {
        FieldsEncodingIff(heap, registry, rest, e, ancestors, depth, ts);
        FirstStays(heap, registry, fields, e, ancestors, depth, ts);
      }
    }
  }

  lemma FirstStays(heap: Heap, registry: Registry, fields: seq<Field>, e: map<string, Value>, ancestors: set<ObjectId>, depth: nat, ts: map<string, Tree>)
    requires fields != [] && !Crosses(e, fields[0])
    ensures FieldsCross(heap, registry, fields, e, ancestors, depth, ts) <==> FieldsCross(heap, registry, fields[1..], e, ancestors, depth, ts)
  {
    assert FieldCrosses(heap, registry, fields[0], e, ancestors, depth, ts);
    hide Encoded, Crosses, FieldCrosses;
    var rest := fields[1..];
    assert forall i :: 0 <= i < |rest| ==> rest[i] == fields[i + 1];
    assert forall i :: 1 <= i < |fields| ==> fields[i] == rest[i - 1];
  }

  lemma FirstCrosses(heap: Heap, registry: Registry, fields: seq<Field>, e: map<string, Value>, ancestors: set<ObjectId>, depth: nat, ts: map<string, Tree>)
    requires DistinctNames(fields) && fields != [] && Crosses(e, fields[0])
    ensures FieldsCross(heap, registry, fields, e, ancestors, depth, ts) <==>
              && fields[0].name in ts && Encoded(heap, registry, fields[0].schema, At(e, fields[0].name), ancestors, depth) == Ok(ts[fields[0].name])
              && FieldsCross(heap, registry, fields[1..], e, ancestors, depth, ts - {fields[0].name})
  {
    var f, rest, us := fields[0], fields[1..], ts - {fields[0].name};
    assert FieldCrosses(heap, registry, f, e, ancestors, depth, ts) <==>
             f.name in ts && Encoded(heap, registry, f.schema, At(e, f.name), ancestors, depth) == Ok(ts[f.name]) by { hide Encoded; }
    hide Encoded, Crosses, At, FieldCrosses;
    forall i | 0 <= i < |rest|
      ensures rest[i] == fields[i + 1] && rest[i].name != f.name
      ensures FieldCrosses(heap, registry, rest[i], e, ancestors, depth, us) <==> FieldCrosses(heap, registry, rest[i], e, ancestors, depth, ts)
    {
      FieldKept(heap, registry, rest[i], e, ancestors, depth, ts, f.name);
    }
    assert forall i :: 1 <= i < |fields| ==> fields[i] == rest[i - 1];
    forall name ensures HasField(fields, e, name) <==> name == f.name || HasField(rest, e, name) { HasFirst(fields, e, name); }
    hide HasField;
    forall name | name in us && f.name in ts ensures HasField(rest, e, name) <==> HasField(fields, e, name) {}
    if FieldsCross(heap, registry, rest, e, ancestors, depth, us) && f.name in ts {
      forall name | name in ts ensures HasField(fields, e, name) { assert name == f.name || name in us; }
    }
  }

  lemma HasFirst(fields: seq<Field>, e: map<string, Value>, name: string)
    requires fields != [] && Crosses(e, fields[0])
    ensures HasField(fields, e, name) <==> name == fields[0].name || HasField(fields[1..], e, name)
  {
    hide Crosses;
    if HasField(fields, e, name) {
      var i :| 0 <= i < |fields| && fields[i].name == name && Crosses(e, fields[i]);
      if i > 0 { assert fields[1..][i - 1] == fields[i]; }
    }
    if HasField(fields[1..], e, name) {
      var i :| 0 <= i < |fields[1..]| && fields[1..][i].name == name && Crosses(e, fields[1..][i]);
      assert fields[i + 1] == fields[1..][i];
    }
  }

  lemma FieldKept(heap: Heap, registry: Registry, f: Field, e: map<string, Value>, ancestors: set<ObjectId>, depth: nat, ts: map<string, Tree>, name: string)
    requires f.name != name
    ensures FieldCrosses(heap, registry, f, e, ancestors, depth, ts - {name}) <==> FieldCrosses(heap, registry, f, e, ancestors, depth, ts)
  {
    hide Encoded;
  }

  lemma FirstEncodes(heap: Heap, registry: Registry, fields: seq<Field>, e: map<string, Value>, ancestors: set<ObjectId>, depth: nat, ts: map<string, Tree>)
    requires fields != [] && Crosses(e, fields[0])
    requires var r := EncodedFields(heap, registry, fields[1..], e, ancestors, depth); r.Ok? ==> fields[0].name !in r.value
    ensures EncodedFields(heap, registry, fields, e, ancestors, depth) == Ok(ts) <==>
              && fields[0].name in ts && Encoded(heap, registry, fields[0].schema, At(e, fields[0].name), ancestors, depth) == Ok(ts[fields[0].name])
              && EncodedFields(heap, registry, fields[1..], e, ancestors, depth) == Ok(ts - {fields[0].name})
  {
    hide Encoded;
    var f := fields[0];
    var r := EncodedFields(heap, registry, fields[1..], e, ancestors, depth);
    var first := Encoded(heap, registry, f.schema, At(e, f.name), ancestors, depth);
    if first.Ok? && r.Ok? {
      var whole := map[f.name := first.value] + r.value;
      assert EncodedFields(heap, registry, fields, e, ancestors, depth) == Ok(whole);
      assert whole - {f.name} == r.value;
      if f.name in ts && ts[f.name] == first.value && ts - {f.name} == r.value { assert ts == whole; }
    }
  }

  /** The first field that crosses and cannot be encoded gives the error. */
  lemma {:induction false} FieldsError(heap: Heap, registry: Registry, fields: seq<Field>, e: map<string, Value>, ancestors: set<ObjectId>, depth: nat) returns (i: nat)
    requires EncodedFields(heap, registry, fields, e, ancestors, depth).Err?
    ensures i < |fields| && Crosses(e, fields[i])
    ensures Encoded(heap, registry, fields[i].schema, At(e, fields[i].name), ancestors, depth) == Err(EncodedFields(heap, registry, fields, e, ancestors, depth).error)
    ensures forall j :: 0 <= j < i && Crosses(e, fields[j]) ==> Encoded(heap, registry, fields[j].schema, At(e, fields[j].name), ancestors, depth).Ok?
    decreases |fields|
  {
    hide Encoded;
    if Crosses(e, fields[0]) && Encoded(heap, registry, fields[0].schema, At(e, fields[0].name), ancestors, depth).Err? {
      i := 0;
    } else {
      var k := FieldsError(heap, registry, fields[1..], e, ancestors, depth);
      i := k + 1;
      assert fields[i] == fields[1..][k];
      assert forall j :: 1 <= j < i ==> fields[j] == fields[1..][j - 1];
    }
  }

  // ---------------------------------------------------------------- records and variants

  predicate IsRecord(heap: Heap, v: Value) {
    v.Object? && v.id in heap && (heap[v.id].RecordNode? || heap[v.id].MapNode?)
  }

  /** Every entry is for a field, or for the tag where there may be one. */
  ghost predicate NoStranger(names: set<string>, fields: seq<Field>, tags: bool) {
    forall name :: name in names ==> (exists i :: 0 <= i < |fields| && fields[i].name == name) || (tags && (name == "tag" || name == "$variant"))
  }

  /** The tag of the entries: under `tag`, or under `$variant` if there is none. */
  function TagOf(e: map<string, Value>): Value {
    if "tag" in e && e["tag"] != Undefined && e["tag"] != Null then e["tag"] else At(e, "$variant")
  }

  /** `t` has the encoding of each field that crosses, the tag unless a field stands in its place, and
      nothing else. */
  ghost predicate RecordCrosses(heap: Heap, registry: Registry, tag: Option<string>, fields: seq<Field>, e: map<string, Value>, ancestors: set<ObjectId>, depth: nat, t: Tree) {
    && t.TRecord?
    && (forall i :: 0 <= i < |fields| ==> FieldCrosses(heap, registry, fields[i], e, ancestors, depth, t.entries))
    && (forall name :: name in t.entries ==> HasField(fields, e, name) || (tag.Some? && name == "$variant"))
    && (tag.Some? ==> "$variant" in t.entries && (!HasField(fields, e, "$variant") ==> t.entries["$variant"] == TStr(tag.value)))
  }

  function TagEntry(tag: Option<string>): map<string, Tree> {
    if tag.Some? then map["$variant" := TStr(tag.value)] else map[]
  }

  lemma TreeIsRecord(heap: Heap, registry: Registry, tag: Option<string>, fields: seq<Field>, e: map<string, Value>, ancestors: set<ObjectId>, depth: nat, t: Tree)
    requires DistinctNames(fields)
    ensures var r := EncodedFields(heap, registry, fields, e, ancestors, depth);
            r.Ok? && t == TRecord(TagEntry(tag) + r.value) <==> RecordCrosses(heap, registry, tag, fields, e, ancestors, depth, t)
  {
    hide RecordCrosses, EncodedFields, FieldsCross, TagEntry;
    var r := EncodedFields(heap, registry, fields, e, ancestors, depth);
    if r.Ok? {
      FieldsEncodingIff(heap, registry, fields, e, ancestors, depth, r.value);
      TaggedCrosses(heap, registry, tag, fields, e, ancestors, depth, r.value);
    }
    if RecordCrosses(heap, registry, tag, fields, e, ancestors, depth, t) {
      var ts := CrossesUntagged(heap, registry, tag, fields, e, ancestors, depth, t);
      FieldsEncodingIff(heap, registry, fields, e, ancestors, depth, ts);
    }
  }

  lemma TaggedCrosses(heap: Heap, registry: Registry, tag: Option<string>, fields: seq<Field>, e: map<string, Value>, ancestors: set<ObjectId>, depth: nat, ts: map<string, Tree>)
    requires FieldsCross(heap, registry, fields, e, ancestors, depth, ts)
    ensures RecordCrosses(heap, registry, tag, fields, e, ancestors, depth, TRecord(TagEntry(tag) + ts))
  {
    var whole := TagEntry(tag) + ts;
    NamesThere(heap, registry, fields, e, ancestors, depth, ts);
    forall i | 0 <= i < |fields| ensures FieldCrosses(heap, registry, fields[i], e, ancestors, depth, whole) {
      hide HasField, Encoded, Crosses;
      assert FieldCrosses(heap, registry, fields[i], e, ancestors, depth, ts);
      SameField(heap, registry, fields[i], e, ancestors, depth, ts, whole);
    }
    hide FieldCrosses, HasField;
  }

  lemma CrossesUntagged(heap: Heap, registry: Registry, tag: Option<string>, fields: seq<Field>, e: map<string, Value>, ancestors: set<ObjectId>, depth: nat, t: Tree) returns (ts: map<string, Tree>)
    requires RecordCrosses(heap, registry, tag, fields, e, ancestors, depth, t)
    ensures FieldsCross(heap, registry, fields, e, ancestors, depth, ts) && t == TRecord(TagEntry(tag) + ts)
  {
    ts := map name | name in t.entries && HasField(fields, e, name) :: t.entries[name];
    forall i | 0 <= i < |fields| ensures FieldCrosses(heap, registry, fields[i], e, ancestors, depth, ts) {
      hide Encoded, Crosses;
      if Crosses(e, fields[i]) { assert HasField(fields, e, fields[i].name); }
      hide HasField;
      SameField(heap, registry, fields[i], e, ancestors, depth, t.entries, ts);
    }
    NamesThere(heap, registry, fields, e, ancestors, depth, ts);
    hide FieldCrosses, HasField;
    assert TagEntry(tag) + ts == t.entries;
  }

  lemma SameField(heap: Heap, registry: Registry, f: Field, e: map<string, Value>, ancestors: set<ObjectId>, depth: nat, ts: map<string, Tree>, us: map<string, Tree>)
    requires FieldCrosses(heap, registry, f, e, ancestors, depth, ts) && (Crosses(e, f) ==> f.name in us && us[f.name] == ts[f.name])
    ensures FieldCrosses(heap, registry, f, e, ancestors, depth, us)
  {
    hide Encoded;
  }

  lemma NamesThere(heap: Heap, registry: Registry, fields: seq<Field>, e: map<string, Value>, ancestors: set<ObjectId>, depth: nat, ts: map<string, Tree>)
    requires forall i :: 0 <= i < |fields| ==> FieldCrosses(heap, registry, fields[i], e, ancestors, depth, ts)
    ensures forall name :: HasField(fields, e, name) ==> name in ts
  {
    hide Encoded;
  }

  /** A record, step by step. */
  lemma RecordIs(heap: Heap, registry: Registry, tag: string, fields: seq<Field>, v: Value, ancestors: set<ObjectId>, depth: nat)
    ensures var r := Encoded(heap, registry, Record(tag, fields), v, ancestors, depth);
            if |fields| + (if tag == "" then 0 else 1) > 1048576 then r == Err(TooLong)
            else if depth == 0 then r == Err(TooDeep)
            else if v.Object? && v.id in ancestors then r == Err(Cyclic)
            else if !IsRecord(heap, v) then r == Err(Mismatch)
            else if !NoStranger(heap[v.id].entries.Keys, fields, tag != "") then r == Err(UnknownField)
            else if tag != "" && TagOf(heap[v.id].entries) != Str(tag) then r == Err(WrongTag)
            else
              var ts := EncodedFields(heap, registry, fields, heap[v.id].entries, ancestors + {v.id}, depth - 1);
              if ts.Err? then r == Err(ts.error) else r == Ok(TRecord(TagEntry(if tag == "" then None else Some(tag)) + ts.value))
  {
    if IsRecord(heap, v) { StrangerIs(heap[v.id].entries.Keys, fields, tag != ""); }
    assert ViewOf(heap, registry, Record(tag, fields), v) == RecordView(heap, v, tag, fields) by { hide RecordView, UnionView, CheckScalar; }
    hide EncodedFields, NoStranger, KnownNames, ViewOf;
  }

  /** A record crosses field by field. */
  lemma RecordEncodingIff(heap: Heap, registry: Registry, tag: string, fields: seq<Field>, v: Value, ancestors: set<ObjectId>, depth: nat, t: Tree)
    requires DistinctNames(fields)
    ensures Encoded(heap, registry, Record(tag, fields), v, ancestors, depth) == Ok(t) <==>
              && IsRecord(heap, v) && v.id !in ancestors && depth > 0 && |fields| + (if tag == "" then 0 else 1) <= 1048576
              && NoStranger(heap[v.id].entries.Keys, fields, tag != "") && (tag != "" ==> TagOf(heap[v.id].entries) == Str(tag))
              && RecordCrosses(heap, registry, if tag == "" then None else Some(tag), fields, heap[v.id].entries, ancestors + {v.id}, depth - 1, t)
  {
    hide Encoded, EncodedFields, RecordCrosses, NoStranger, TagEntry;
    RecordIs(heap, registry, tag, fields, v, ancestors, depth);
    if depth > 0 && IsRecord(heap, v) {
      TreeIsRecord(heap, registry, if tag == "" then None else Some(tag), fields, heap[v.id].entries, ancestors + {v.id}, depth - 1, t);
    }
  }

  lemma StrangerIs(names: set<string>, fields: seq<Field>, tags: bool)
    ensures NoStranger(names, fields, tags) <==> KnownNames(names, fields, tags)
  {
  }

  /** Why a record is refused: the limits come first, then recurrence, then what it is and has. */
  lemma RecordErrors(heap: Heap, registry: Registry, tag: string, fields: seq<Field>, v: Value, ancestors: set<ObjectId>, depth: nat) returns (i: nat)
    requires Encoded(heap, registry, Record(tag, fields), v, ancestors, depth).Err?
    ensures var error := Encoded(heap, registry, Record(tag, fields), v, ancestors, depth).error;
            if |fields| + (if tag == "" then 0 else 1) > 1048576 then error == TooLong
            else if depth == 0 then error == TooDeep
            else if v.Object? && v.id in ancestors then error == Cyclic
            else if !IsRecord(heap, v) then error == Mismatch
            else if !NoStranger(heap[v.id].entries.Keys, fields, tag != "") then error == UnknownField
            else if tag != "" && TagOf(heap[v.id].entries) != Str(tag) then error == WrongTag
            else
              && i < |fields| && Crosses(heap[v.id].entries, fields[i])
              && Encoded(heap, registry, fields[i].schema, At(heap[v.id].entries, fields[i].name), ancestors + {v.id}, depth - 1) == Err(error)
  {
    i := 0;
    RecordIs(heap, registry, tag, fields, v, ancestors, depth);
    if depth > 0 && IsRecord(heap, v) && EncodedFields(heap, registry, fields, heap[v.id].entries, ancestors + {v.id}, depth - 1).Err? {
      i := FieldsError(heap, registry, fields, heap[v.id].entries, ancestors + {v.id}, depth - 1);
    }
    hide Encoded, EncodedFields, NoStranger;
  }

  /** The first variant with a name. */
  ghost predicate FirstNamed(variants: seq<Variant>, name: string, i: nat) {
    i < |variants| && variants[i].name == name && forall j :: 0 <= j < i ==> variants[j].name != name
  }

  lemma {:induction false} FindsFirstNamed(variants: seq<Variant>, name: string, i: nat)
    requires FirstNamed(variants, name, i)
    ensures FindVariant(variants, name) == Some(variants[i])
  {
    if i > 0 {
      assert forall j :: 0 <= j < i ==> variants[1..][j] == variants[j + 1];
      FindsFirstNamed(variants[1..], name, i - 1);
    }
  }

  lemma {:induction false} FindsNone(variants: seq<Variant>, name: string)
    requires forall i :: 0 <= i < |variants| ==> variants[i].name != name
    ensures FindVariant(variants, name) == None
  {
    if variants != [] { FindsNone(variants[1..], name); }
  }

  /** A variant of a union, step by step; a map is copied, so it is not watched. */
  lemma VariantIs(heap: Heap, registry: Registry, variants: seq<Variant>, i: nat, v: Value, ancestors: set<ObjectId>, depth: nat)
    requires IsRecord(heap, v) && TagOf(heap[v.id].entries).Str? && FirstNamed(variants, TagOf(heap[v.id].entries).s, i)
    ensures var r := Encoded(heap, registry, Union(variants), v, ancestors, depth);
            var e := heap[v.id].entries; var fields := variants[i].fields; var copied := heap[v.id].MapNode?;
            if |fields| > 1048576 then r == Err(TooLong)
            else if depth == 0 then r == Err(TooDeep)
            else if !copied && v.id in ancestors then r == Err(Cyclic)
            else if !NoStranger(e.Keys, fields, true) then r == Err(UnknownField)
            else
              var ts := EncodedFields(heap, registry, fields, e, if copied then ancestors else ancestors + {v.id}, depth - 1);
              if ts.Err? then r == Err(ts.error) else r == Ok(TRecord(TagEntry(Some(TagOf(e).s)) + ts.value))
  {
    FindsFirstNamed(variants, TagOf(heap[v.id].entries).s, i);
    assert ancestors + {} == ancestors;
    StrangerIs(heap[v.id].entries.Keys, variants[i].fields, true);
    assert ViewOf(heap, registry, Union(variants), v) == UnionView(heap, v, variants) by { hide RecordView, UnionView, CheckScalar; }
    hide EncodedFields, NoStranger, KnownNames, ViewOf, FindVariant, FirstNamed;
  }

  /** A variant of a union crosses like a record with its tag. */
  lemma VariantEncodingIff(heap: Heap, registry: Registry, variants: seq<Variant>, i: nat, v: Value, ancestors: set<ObjectId>, depth: nat, t: Tree)
    requires IsRecord(heap, v) && TagOf(heap[v.id].entries).Str? && FirstNamed(variants, TagOf(heap[v.id].entries).s, i)
    requires DistinctNames(variants[i].fields)
    ensures var e := heap[v.id].entries; var fields := variants[i].fields; var copied := heap[v.id].MapNode?;
            Encoded(heap, registry, Union(variants), v, ancestors, depth) == Ok(t) <==>
              && (copied || v.id !in ancestors) && depth > 0 && |fields| <= 1048576 && NoStranger(e.Keys, fields, true)
              && RecordCrosses(heap, registry, Some(TagOf(e).s), fields, e, if copied then ancestors else ancestors + {v.id}, depth - 1, t)
  {
    hide Encoded, EncodedFields, RecordCrosses, NoStranger, TagEntry, TagOf;
    VariantIs(heap, registry, variants, i, v, ancestors, depth);
    if depth > 0 {
      TreeIsRecord(heap, registry, Some(TagOf(heap[v.id].entries).s), variants[i].fields, heap[v.id].entries, if heap[v.id].MapNode? then ancestors else ancestors + {v.id}, depth - 1, t);
    }
  }

  /** Anything else is refused: a value without entries, without a tag, or with a tag that no variant has. */
  lemma NoVariantEncoding(heap: Heap, registry: Registry, variants: seq<Variant>, v: Value, ancestors: set<ObjectId>, depth: nat)
    ensures !IsRecord(heap, v) ==> Encoded(heap, registry, Union(variants), v, ancestors, depth) == Err(Mismatch)
    ensures IsRecord(heap, v) && !TagOf(heap[v.id].entries).Str? ==> Encoded(heap, registry, Union(variants), v, ancestors, depth) == Err(NoVariant)
    ensures IsRecord(heap, v) && TagOf(heap[v.id].entries).Str? && (forall i :: 0 <= i < |variants| ==> variants[i].name != TagOf(heap[v.id].entries).s) ==>
              Encoded(heap, registry, Union(variants), v, ancestors, depth) == Err(NoVariant)
  {
    if IsRecord(heap, v) && TagOf(heap[v.id].entries).Str? && forall i :: 0 <= i < |variants| ==> variants[i].name != TagOf(heap[v.id].entries).s {
      FindsNone(variants, TagOf(heap[v.id].entries).s);
    }
    hide EncodedRecord, FindVariant;
  }

  // ---------------------------------------------------------------- decoding

  /** Scalars come back as they crossed, within the same limits; nothing comes back as undefined. */
  lemma ScalarDecoding(registry: Registry, k: Scalar, t: Tree, u: Tree, depth: nat)
    ensures Decoded(registry, Scalar(k), t, depth) == Ok(u) <==>
              && u == t
              && match k
                 case SBool => t.TBool?
                 case SI32 => t.TNum? && t.n.Whole? && -2147483648 <= t.n.value <= 2147483647
                 case SI64 =>
                   || (t.TBig? && -9223372036854775808 <= t.i <= 9223372036854775807)
                   || (t.TNum? && t.n.Whole? && -9007199254740991 <= t.n.value <= 9007199254740991)
                 case SFloat => t.TNum?
                 case SString => t.TStr? && Utf8Length(t.s) <= 16777216
                 case SBytes => t.TBytes? && |t.bytes| <= 16777216
    ensures Decoded(registry, Void, t, depth) == Ok(TUndefined)
  {
    assert !ThroughRef(Scalar(k)) && Core(registry, Scalar(k), {}) == Resolved(Scalar(k));
    assert Decoded(registry, Scalar(k), t, depth) == CheckScalar(k, t) by { hide CheckScalar; }
    assert Decoded(registry, Void, t, depth) == Ok(TUndefined) by { hide CheckScalar; }
    hide Decoded, Utf8Length;
  }

  /** A custom type comes back as its representation. */
  lemma CustomDecoding(registry: Registry, representation: Schema, t: Tree, depth: nat)
    ensures Decoded(registry, Custom(representation), t, depth) == Decoded(registry, representation, t, depth)
  {
    hide DecodedItems, DecodedRecord, CheckScalar;
  }

  /** Behind a reference one text stands for a cycle; anything else is read by the schema registered. */
  lemma RefDecoding(registry: Registry, id: TypeId, t: Tree, depth: nat)
    ensures t == TStr("__voyd_dto_error: cannot encode cyclic object graph or DTO object graph exceeds maximum depth") ==>
              Decoded(registry, Ref(id), t, depth) == Err(Cyclic)
    ensures t != TStr("__voyd_dto_error: cannot encode cyclic object graph or DTO object graph exceeds maximum depth") ==>
              if id !in registry || registry[id].Ref? then Decoded(registry, Ref(id), t, depth) == Err(UnresolvedRef)
              else Decoded(registry, Ref(id), t, depth) == Decoded(registry, registry[id], t, depth)
  {
    hide DecodedItems, DecodedRecord, CheckScalar;
    if id in registry && !registry[id].Ref? && Core(registry, Ref(id), {}).Loops? { EndlessBelow(registry, id); }
    if id in registry && !registry[id].Ref? && !Core(registry, Ref(id), {}).Loops? {
      assert {} + {id} == {id};
      CoreWithLess(registry, registry[id], {id}, {});
    }
  }

  /** A chain that never ends is followed for ever, the message for cycles apart. */
  lemma EndlessNeverDecodes(registry: Registry, s: Schema, t: Tree, depth: nat)
    requires Endless(registry, s) && t != TStr("__voyd_dto_error: cannot encode cyclic object graph or DTO object graph exceeds maximum depth")
    ensures Decoded(registry, s, t, depth) == Err(Diverges)
  {
    LoopsIff(registry, s, {});
    hide DecodedItems, DecodedRecord, CheckScalar, Core, Follow;
  }

  /** An array comes back item by item, unless it is too long or too deep. */
  lemma ArrayDecodingIff(registry: Registry, element: Schema, t: Tree, u: Tree, depth: nat)
    ensures Decoded(registry, Array(element), t, depth) == Ok(u) <==>
              && t.TArray? && u.TArray? && depth > 0 && |u.items| == |t.items| <= 1048576
              && forall i :: 0 <= i < |u.items| ==> Decoded(registry, element, t.items[i], depth - 1) == Ok(u.items[i])
  {
    if t.TArray? && depth > 0 {
      if u.TArray? { ItemsDecoding(registry, element, t.items, u.items, depth - 1); }
      hide DecodedItems;
    }
  }

  lemma {:induction false} ItemsDecoding(registry: Registry, element: Schema, ts: seq<Tree>, us: seq<Tree>, depth: nat)
    ensures DecodedItems(registry, element, ts, depth) == Ok(us) <==>
              |us| == |ts| && forall i :: 0 <= i < |us| ==> Decoded(registry, element, ts[i], depth) == Ok(us[i])
    decreases |ts|
  {
    hide Decoded;
    if ts != [] && us != [] {
      ItemsDecoding(registry, element, ts[1..], us[1..], depth);
      FirstItemDecodes(registry, element, ts, us, depth);
      assert us == [us[0]] + us[1..];
    }
  }

  lemma FirstItemDecodes(registry: Registry, element: Schema, ts: seq<Tree>, us: seq<Tree>, depth: nat)
    requires ts != [] && us != []
    ensures |us| == |ts| && (forall i :: 0 <= i < |us| ==> Decoded(registry, element, ts[i], depth) == Ok(us[i])) <==>
              && Decoded(registry, element, ts[0], depth) == Ok(us[0])
              && |us[1..]| == |ts[1..]|
              && forall i :: 0 <= i < |us[1..]| ==> Decoded(registry, element, ts[1..][i], depth) == Ok(us[1..][i])
  {
    hide Decoded;
    assert forall i :: 1 <= i < |us| ==> us[i] == us[1..][i - 1];
    assert forall i :: 1 <= i < |ts| ==> ts[i] == ts[1..][i - 1];
  }

  /** Why an array does not come back. */
  lemma ArrayDecodingErrors(registry: Registry, element: Schema, t: Tree, depth: nat) returns (i: nat)
    requires Decoded(registry, Array(element), t, depth).Err?
    ensures var error := Decoded(registry, Array(element), t, depth).error;
            if !t.TArray? then error == Mismatch
            else if |t.items| > 1048576 then error == TooLong
            else if depth == 0 then error == TooDeep
            else
              && i < |t.items| && Decoded(registry, element, t.items[i], depth - 1) == Err(error)
              && forall j :: 0 <= j < i ==> Decoded(registry, element, t.items[j], depth - 1).Ok?
  {
    i := 0;
    if t.TArray? && depth > 0 {
      if DecodedItems(registry, element, t.items, depth - 1).Err? { i := ItemsDecodingError(registry, element, t.items, depth - 1); }
      hide DecodedItems;
    }
  }

  lemma {:induction false} ItemsDecodingError(registry: Registry, element: Schema, ts: seq<Tree>, depth: nat) returns (i: nat)
    requires DecodedItems(registry, element, ts, depth).Err?
    ensures i < |ts| && Decoded(registry, element, ts[i], depth) == Err(DecodedItems(registry, element, ts, depth).error)
    ensures forall j :: 0 <= j < i ==> Decoded(registry, element, ts[j], depth).Ok?
    decreases |ts|
  {
    hide Decoded;
    if Decoded(registry, element, ts[0], depth).Err? {
      i := 0;
    } else {
      var k := ItemsDecodingError(registry, element, ts[1..], depth);
      i := k + 1;
      assert forall j :: 1 <= j <= i ==> ts[j] == ts[1..][j - 1];
    }
  }

  /** What crossed under a name. */
  function TreeAt(e: map<string, Tree>, name: string): Tree {
    if name in e then e[name] else TUndefined
  }

  /** An optional field comes back if it crossed, and any other always. */
  predicate Returns(e: map<string, Tree>, f: Field) {
    !f.isOptional || f.name in e
  }

  ghost predicate HasReturned(fields: seq<Field>, e: map<string, Tree>, name: string) {
    exists i :: 0 <= i < |fields| && fields[i].name == name && Returns(e, fields[i])
  }

  ghost predicate FieldReturns(registry: Registry, f: Field, e: map<string, Tree>, depth: nat, us: map<string, Tree>) {
    Returns(e, f) ==> f.name in us && Decoded(registry, f.schema, TreeAt(e, f.name), depth) == Ok(us[f.name])
  }

  /** The first field that comes back and cannot be decoded gives the error. */
  ghost predicate FailsAt(registry: Registry, fields: seq<Field>, e: map<string, Tree>, depth: nat, error: CodecError, i: nat) {
    && i < |fields| && Returns(e, fields[i]) && Decoded(registry, fields[i].schema, TreeAt(e, fields[i].name), depth) == Err(error)
    && forall j :: 0 <= j < i && Returns(e, fields[j]) ==> Decoded(registry, fields[j].schema, TreeAt(e, fields[j].name), depth).Ok?
  }

  lemma {:induction false} FieldsDecoding(registry: Registry, fields: seq<Field>, e: map<string, Tree>, depth: nat)
    requires DistinctNames(fields) && DecodedFields(registry, fields, e, depth).Ok?
    ensures var us := DecodedFields(registry, fields, e, depth).value;
            && (forall i :: 0 <= i < |fields| ==> FieldReturns(registry, fields[i], e, depth, us))
            && (forall name :: name in us ==> HasReturned(fields, e, name))
    decreases |fields|
  {
    hide Decoded;
    if fields != [] {
      var f, rest := fields[0], fields[1..];
      assert forall i :: 0 <= i < |rest| ==> rest[i] == fields[i + 1] && rest[i].name != f.name;
      FieldsDecoding(registry, rest, e, depth);
      var us, below := DecodedFields(registry, fields, e, depth).value, DecodedFields(registry, rest, e, depth).value;
      assert us == if Returns(e, f) then map[f.name := Decoded(registry, f.schema, TreeAt(e, f.name), depth).value] + below else below;
      forall name | HasReturned(rest, e, name) ensures HasReturned(fields, e, name) {
        var i :| 0 <= i < |rest| && rest[i].name == name && Returns(e, rest[i]);
        assert fields[i + 1] == rest[i];
      }
      assert f.name !in below;
      hide HasReturned;
      forall i | 0 <= i < |fields| ensures FieldReturns(registry, fields[i], e, depth, us) {
        if i > 0 { assert fields[i] == rest[i - 1] && FieldReturns(registry, rest[i - 1], e, depth, below); }
      }
      forall name | name in us ensures HasReturned(fields, e, name) {
        if name !in below { FirstHasReturned(fields, e); }
      }
    }
  }

  lemma FirstHasReturned(fields: seq<Field>, e: map<string, Tree>)
    requires fields != [] && Returns(e, fields[0])
    ensures HasReturned(fields, e, fields[0].name)
  {
  }

  lemma {:induction false} FieldsDecodingError(registry: Registry, fields: seq<Field>, e: map<string, Tree>, depth: nat) returns (i: nat)
    requires DecodedFields(registry, fields, e, depth).Err?
    ensures FailsAt(registry, fields, e, depth, DecodedFields(registry, fields, e, depth).error, i)
    decreases |fields|
  {
    hide Decoded;
    if Returns(e, fields[0]) && Decoded(registry, fields[0].schema, TreeAt(e, fields[0].name), depth).Err? {
      i := 0;
    } else {
      var k := FieldsDecodingError(registry, fields[1..], e, depth);
      i := k + 1;
      assert fields[i] == fields[1..][k];
      assert forall j :: 1 <= j < i ==> fields[j] == fields[1..][j - 1];
    }
  }

  /** What a record comes back as: the decoding of each field that comes back, and the tag under
      `tag` whatever a field of that name was. */
  ghost predicate RecordReturns(registry: Registry, tag: Option<string>, fields: seq<Field>, e: map<string, Tree>, depth: nat, r: Result<Tree, CodecError>) {
    match r
    case Err(error) => exists i :: FailsAt(registry, fields, e, depth, error, i)
    case Ok(u) =>
      && u.TRecord?
      && (forall i :: 0 <= i < |fields| && !(tag.Some? && fields[i].name == "tag") ==> FieldReturns(registry, fields[i], e, depth, u.entries))
      && (forall i :: 0 <= i < |fields| && Returns(e, fields[i]) ==> Decoded(registry, fields[i].schema, TreeAt(e, fields[i].name), depth).Ok?)
      && (forall name :: name in u.entries ==> HasReturned(fields, e, name) || (tag.Some? && name == "tag"))
      && (tag.Some? ==> "tag" in u.entries && u.entries["tag"] == TStr(tag.value))
  }

  function NativeTagEntry(tag: Option<string>): map<string, Tree> {
    if tag.Some? then map["tag" := TStr(tag.value)] else map[]
  }

  lemma FieldsReturn(registry: Registry, tag: Option<string>, fields: seq<Field>, e: map<string, Tree>, depth: nat)
    requires DistinctNames(fields)
    ensures var ts := DecodedFields(registry, fields, e, depth);
            RecordReturns(registry, tag, fields, e, depth, if ts.Err? then Err(ts.error) else Ok(TRecord(ts.value + NativeTagEntry(tag))))
  {
    var ts := DecodedFields(registry, fields, e, depth);
    if ts.Err? {
      var i := FieldsDecodingError(registry, fields, e, depth);
    } else {
      FieldsDecoding(registry, fields, e, depth);
      hide DecodedFields, FailsAt, HasReturned, Decoded;
      forall i | 0 <= i < |fields|
        ensures !(tag.Some? && fields[i].name == "tag") ==> FieldReturns(registry, fields[i], e, depth, ts.value + NativeTagEntry(tag))
        ensures Returns(e, fields[i]) ==> Decoded(registry, fields[i].schema, TreeAt(e, fields[i].name), depth).Ok?
      {
        assert FieldReturns(registry, fields[i], e, depth, ts.value);
      }
    }
  }

  /** A record comes back field by field. */
  lemma RecordDecoding(registry: Registry, tag: string, fields: seq<Field>, t: Tree, depth: nat)
    requires DistinctNames(fields)
    ensures var r := Decoded(registry, Record(tag, fields), t, depth);
            if |fields| > 1048576 then r == Err(TooLong)
            else if depth == 0 then r == Err(TooDeep)
            else if !t.TRecord? then r == Err(Mismatch)
            else if !NoStranger(t.entries.Keys, fields, tag != "") then r == Err(UnknownField)
            else RecordReturns(registry, if tag == "" then None else Some(tag), fields, t.entries, depth - 1, r)
  {
    if t.TRecord? && depth > 0 {
      StrangerIs(t.entries.Keys, fields, tag != "");
      FieldsReturn(registry, if tag == "" then None else Some(tag), fields, t.entries, depth - 1);
    }
    hide RecordReturns, NoStranger, KnownNames, DecodedFields;
  }

  /** The tag that a variant comes back by: under `$variant`, or under `tag` if there is none. */
  function WireTagOf(e: map<string, Tree>): Tree {
    if "$variant" in e && e["$variant"] != TUndefined && e["$variant"] != TNull then e["$variant"] else TreeAt(e, "tag")
  }

  /** A variant of a union comes back like a record with its tag. */
  lemma VariantDecoding(registry: Registry, variants: seq<Variant>, i: nat, t: Tree, depth: nat)
    requires t.TRecord? && WireTagOf(t.entries).TStr? && FirstNamed(variants, WireTagOf(t.entries).s, i)
    requires DistinctNames(variants[i].fields)
    ensures var r := Decoded(registry, Union(variants), t, depth); var fields := variants[i].fields;
            if |fields| > 1048576 then r == Err(TooLong)
            else if depth == 0 then r == Err(TooDeep)
            else if !NoStranger(t.entries.Keys, fields, true) then r == Err(UnknownField)
            else RecordReturns(registry, Some(WireTagOf(t.entries).s), fields, t.entries, depth - 1, r)
  {
    FindsFirstNamed(variants, WireTagOf(t.entries).s, i);
    StrangerIs(t.entries.Keys, variants[i].fields, true);
    if depth > 0 { FieldsReturn(registry, Some(WireTagOf(t.entries).s), variants[i].fields, t.entries, depth - 1); }
    hide RecordReturns, NoStranger, KnownNames, DecodedFields, FindVariant, FirstNamed;
  }

  /** Anything else is refused. */
  lemma NoVariantDecoding(registry: Registry, variants: seq<Variant>, t: Tree, depth: nat)
    ensures !t.TRecord? ==> Decoded(registry, Union(variants), t, depth) == Err(Mismatch)
    ensures t.TRecord? && !WireTagOf(t.entries).TStr? ==> Decoded(registry, Union(variants), t, depth) == Err(NoVariant)
    ensures t.TRecord? && WireTagOf(t.entries).TStr? && (forall i :: 0 <= i < |variants| ==> variants[i].name != WireTagOf(t.entries).s) ==>
              Decoded(registry, Union(variants), t, depth) == Err(NoVariant)
  {
    if t.TRecord? && WireTagOf(t.entries).TStr? && forall i :: 0 <= i < |variants| ==> variants[i].name != WireTagOf(t.entries).s {
      FindsNone(variants, WireTagOf(t.entries).s);
    }
    hide DecodedRecord, FindVariant;
  }
}
