/** Encoding a host value: it succeeds exactly when the schema-directed unfolding of the value is a
    finite tree within the limits and no watched object recurs on its own path. */
module BoundaryEncode {
  import opened Options
  import opened BoundaryModel

  // ---------------------------------------------------------------- encoding as a function

  /** What encoding `v` comes to with `depth` levels left, inside the objects `ancestors`. */
  function Encoded(heap: Heap, registry: Registry, s: Schema, v: Value, ancestors: set<ObjectId>, depth: nat): Result<Tree, CodecError>
    decreases depth, 2, 0
  {
    var view := ViewOf(heap, registry, s, v);
    match view
    case Bad(e) => Err(e)
    case Plain(t) => Ok(t)
    case Items(element, items, o) => EncodedArray(heap, registry, element, items, o, ancestors, depth)
    case Fields(_, _, _, _, _, _, _) => EncodedRecord(heap, registry, view, ancestors, depth)
  }

  /** The problem, if any, with going into a container. */
  function Barrier(length: nat, o: Option<ObjectId>, ancestors: set<ObjectId>, depth: nat): Option<CodecError> {
    if length > MAX_LENGTH then Some(TooLong)
    else if depth == 0 then Some(TooDeep)
    else if o.Some? && o.value in ancestors then Some(Cyclic)
    else None
  }

  function EncodedArray(heap: Heap, registry: Registry, element: Schema, items: seq<Value>, o: ObjectId, ancestors: set<ObjectId>, depth: nat): Result<Tree, CodecError>
    decreases depth, 1, 0
  {
    var barrier := Barrier(|items|, Some(o), ancestors, depth);
    if barrier.Some? then Err(barrier.value)
    else
      match EncodedItems(heap, registry, element, items, ancestors + {o}, depth - 1)
      case Err(e) => Err(e)
      case Ok(ts) => Ok(TArray(ts))
  }

  function EncodedRecord(heap: Heap, registry: Registry, view: View, ancestors: set<ObjectId>, depth: nat): Result<Tree, CodecError>
    requires view.Fields?
    decreases depth, 1, 0
  {
    var barrier := Barrier(view.length, view.watched, ancestors, depth);
    if barrier.Some? then Err(barrier.value)
    else if view.late.Some? then Err(view.late.value)
    else
      match EncodedFields(heap, registry, view.fields, view.entries, ancestors + Watching(view.watched), depth - 1)
      case Err(e) => Err(e)
      case Ok(ts) => Ok(TRecord(view.wire + ts))
  }

  function EncodedItems(heap: Heap, registry: Registry, element: Schema, items: seq<Value>, ancestors: set<ObjectId>, depth: nat): Result<seq<Tree>, CodecError>
    decreases depth, 3, |items|
  {
    if items == [] then Ok([])
    else
      match Encoded(heap, registry, element, items[0], ancestors, depth)
      case Err(e) => Err(e)
      case Ok(t) =>
        match EncodedItems(heap, registry, element, items[1..], ancestors, depth)
        case Err(e) => Err(e)
        case Ok(ts) => Ok([t] + ts)
  }

  function EncodedFields(heap: Heap, registry: Registry, fields: seq<Field>, entries: map<string, Value>, ancestors: set<ObjectId>, depth: nat)
    : Result<map<string, Tree>, CodecError>
    decreases depth, 3, |fields|
  {
    if fields == [] then Ok(map[])
    else if LeftOut(fields[0], entries) then EncodedFields(heap, registry, fields[1..], entries, ancestors, depth)
    else
      match Encoded(heap, registry, fields[0].schema, Get(entries, fields[0].name), ancestors, depth)
      case Err(e) => Err(e)
      case Ok(t) =>
        match EncodedFields(heap, registry, fields[1..], entries, ancestors, depth)
        case Err(e) => Err(e)
        case Ok(ts) => Ok(map[fields[0].name := t] + ts)
  }

  function Watching(o: Option<ObjectId>): set<ObjectId> {
    if o.Some? then {o.value} else {}
  }

  /** A result whose first part is there already. */
  function Behind(done: seq<Tree>, rest: Result<seq<Tree>, CodecError>): Result<seq<Tree>, CodecError> {
    if rest.Err? then rest else Ok(done + rest.value)
  }

  function BehindFields(done: map<string, Tree>, rest: Result<map<string, Tree>, CodecError>): Result<map<string, Tree>, CodecError> {
    if rest.Err? then rest else Ok(done + rest.value)
  }

  lemma BehindOne(done: seq<Tree>, t: Tree, rest: Result<seq<Tree>, CodecError>)
    ensures Behind([], rest) == rest
    ensures Behind(done, Behind([t], rest)) == Behind(done + [t], rest)
  {
    if rest.Ok? {
      assert [] + rest.value == rest.value;
      assert done + ([t] + rest.value) == (done + [t]) + rest.value;
    }
  }

  lemma BehindOneField(done: map<string, Tree>, name: string, t: Tree, rest: Result<map<string, Tree>, CodecError>)
    ensures BehindFields(map[], rest) == rest
    ensures BehindFields(done, BehindFields(map[name := t], rest)) == BehindFields(done[name := t], rest)
  {
    if rest.Ok? {
      assert map[] + rest.value == rest.value;
      assert done + (map[name := t] + rest.value) == done[name := t] + rest.value;
    }
  }

  // ---------------------------------------------------------------- encoding with shared state

  /** One encoding: the objects being encoded and how deep it is, changed on the way in and
      restored on the way out. */
  class Encoder {
    const heap: Heap
    const registry: Registry
    var ancestors: set<ObjectId>
    var depth: nat

    constructor (heap: Heap, registry: Registry)
      ensures this.heap == heap && this.registry == registry && ancestors == {} && depth == 0
    {
      this.heap, this.registry := heap, registry;
      ancestors, depth := {}, 0;
    }

    /** Encodes one value; whether or not it succeeds, the shared state is as before. */
    method EncodeValue(s: Schema, v: Value) returns (r: Result<Tree, CodecError>)
      requires depth <= MAX_DEPTH
      modifies this
      ensures ancestors == old(ancestors) && depth == old(depth)
      ensures r == Encoded(heap, registry, s, v, ancestors, MAX_DEPTH - depth)
      decreases MAX_DEPTH - depth, 2, 0
    {
      hide EncodedArray, EncodedRecord, RecordView, UnionView, CheckScalar, AsTree, Core;
      match Core(registry, s, {})
      case Loops => return Err(Diverges);
      case Unresolved => return Err(UnresolvedRef);
      case Resolved(core) => r := EncodeResolved(core, s, v);
    }

    /** Encodes a value as the schema `core`, to which `s` leads, directs. */
    method EncodeResolved(core: Schema, ghost s: Schema, v: Value) returns (r: Result<Tree, CodecError>)
      requires depth <= MAX_DEPTH && Core(registry, s, {}) == Resolved(core)
      modifies this
      ensures ancestors == old(ancestors) && depth == old(depth)
      ensures r == Encoded(heap, registry, s, v, ancestors, MAX_DEPTH - depth)
      decreases MAX_DEPTH - depth, 1, 1
    {
      hide EncodedArray, EncodedRecord, RecordView, UnionView, CheckScalar, AsTree, Core;
      match core
      case Void => return Ok(TNull);
      case Scalar(k) => return CheckScalar(k, AsTree(heap, v));
      case Array(element) =>
        if !(v.Object? && v.id in heap && heap[v.id].ArrayNode?) { return Err(Mismatch); }
        r := EncodeArray(element, heap[v.id].items, v.id);
      case Record(tag, fields) =>
        r := EncodeRecord(RecordView(heap, v, tag, fields));
      case Union(variants) =>
        var view := UnionView(heap, v, variants);
        if view.Bad? { return Err(view.error); }
        r := EncodeRecord(view);
      case _ => return Err(UnresolvedRef);
    }

    /** Goes into a container unless a limit or a recurrence forbids it. */
    method Enter(length: nat, o: Option<ObjectId>) returns (problem: Option<CodecError>)
      requires depth <= MAX_DEPTH
      modifies this
      ensures problem == Barrier(length, o, old(ancestors), MAX_DEPTH - old(depth))
      ensures problem.None? ==> depth == old(depth) + 1 && ancestors == old(ancestors) + Watching(o)
      ensures problem.Some? ==> depth == old(depth) && ancestors == old(ancestors)
    {
      if length > MAX_LENGTH { return Some(TooLong); }
      if depth >= MAX_DEPTH { return Some(TooDeep); }
      if o.Some? && o.value in ancestors { return Some(Cyclic); }
      depth := depth + 1;
      ancestors := ancestors + Watching(o);
      return None;
    }

    method Leave(o: Option<ObjectId>)
      requires depth > 0
      modifies this
      ensures depth == old(depth) - 1 && ancestors == old(ancestors) - Watching(o)
    {
      depth := depth - 1;
      ancestors := ancestors - Watching(o);
    }

    method EncodeArray(element: Schema, items: seq<Value>, o: ObjectId) returns (r: Result<Tree, CodecError>)
      requires depth <= MAX_DEPTH
      modifies this
      ensures ancestors == old(ancestors) && depth == old(depth)
      ensures r == EncodedArray(heap, registry, element, items, o, ancestors, MAX_DEPTH - depth)
      decreases MAX_DEPTH - depth, 1, 0
    {
      var problem := Enter(|items|, Some(o));
      if problem.Some? { return Err(problem.value); }
      var ts := EncodeItems(element, items);
      Leave(Some(o));
      match ts
      case Err(e) => return Err(e);
      case Ok(trees) => return Ok(TArray(trees));
    }

    method EncodeItems(element: Schema, items: seq<Value>) returns (r: Result<seq<Tree>, CodecError>)
      requires depth <= MAX_DEPTH
      modifies this
      ensures ancestors == old(ancestors) && depth == old(depth)
      ensures r == EncodedItems(heap, registry, element, items, ancestors, MAX_DEPTH - depth)
      decreases MAX_DEPTH - depth, 3, 0
    {
      hide Encoded;
      ghost var all := EncodedItems(heap, registry, element, items, ancestors, MAX_DEPTH - depth);
      var ts: seq<Tree> := [];
      var i := 0;
      BehindOne([], TNull, all);
      assert items[0..] == items;
      while i < |items|
        invariant 0 <= i <= |items| && ancestors == old(ancestors) && depth == old(depth)
        invariant all == Behind(ts, EncodedItems(heap, registry, element, items[i..], ancestors, MAX_DEPTH - depth))
      {
        assert items[i..][0] == items[i] && items[i..][1..] == items[i + 1..];
        var t := EncodeValue(element, items[i]);
        if t.Err? { return Err(t.error); }
        BehindOne(ts, t.value, EncodedItems(heap, registry, element, items[i + 1..], ancestors, MAX_DEPTH - depth));
        ts := ts + [t.value];
        i := i + 1;
      }
      assert items[i..] == [] && ts + [] == ts;
      return Ok(ts);
    }

    method EncodeRecord(view: View) returns (r: Result<Tree, CodecError>)
      requires depth <= MAX_DEPTH && view.Fields?
      modifies this
      ensures ancestors == old(ancestors) && depth == old(depth)
      ensures r == EncodedRecord(heap, registry, view, ancestors, MAX_DEPTH - depth)
      decreases MAX_DEPTH - depth, 1, 0
    {
      var problem := Enter(view.length, view.watched);
      if problem.Some? { return Err(problem.value); }
      if view.late.Some? {
        Leave(view.watched);
        return Err(view.late.value);
      }
      var ts := EncodeFields(view.fields, view.entries);
      Leave(view.watched);
      match ts
      case Err(e) => return Err(e);
      case Ok(entries) => return Ok(TRecord(view.wire + entries));
    }

    method EncodeFields(fields: seq<Field>, entries: map<string, Value>) returns (r: Result<map<string, Tree>, CodecError>)
      requires depth <= MAX_DEPTH
      modifies this
      ensures ancestors == old(ancestors) && depth == old(depth)
      ensures r == EncodedFields(heap, registry, fields, entries, ancestors, MAX_DEPTH - depth)
      decreases MAX_DEPTH - depth, 3, 0
    {
      hide Encoded, Get;
      ghost var all := EncodedFields(heap, registry, fields, entries, ancestors, MAX_DEPTH - depth);
      var ts: map<string, Tree> := map[];
      var i := 0;
      BehindOneField(map[], "", TNull, all);
      assert fields[0..] == fields;
      while i < |fields|
        invariant 0 <= i <= |fields| && ancestors == old(ancestors) && depth == old(depth)
        invariant all == BehindFields(ts, EncodedFields(heap, registry, fields[i..], entries, ancestors, MAX_DEPTH - depth))
      {
        assert fields[i..][0] == fields[i] && fields[i..][1..] == fields[i + 1..];
        var value := Get(entries, fields[i].name);
        if !(fields[i].isOptional && value.Undefined?) {
          var t := EncodeValue(fields[i].schema, value);
          if t.Err? { return Err(t.error); }
          BehindOneField(ts, fields[i].name, t.value, EncodedFields(heap, registry, fields[i + 1..], entries, ancestors, MAX_DEPTH - depth));
          ts := ts[fields[i].name := t.value];
        }
        i := i + 1;
      }
      assert fields[i..] == [] && ts + map[] == ts;
      return Ok(ts);
    }
  }

  /** Encodes arguments one after another with the same state. */
  method EncodeArgs(heap: Heap, registry: Registry, schemas: seq<Schema>, args: seq<Value>) returns (r: Result<seq<Tree>, CodecError>)
    ensures |args| != |schemas| ==> r == Err(Mismatch)
    ensures r.Ok? ==> |r.value| == |args| && forall i :: 0 <= i < |args| ==> Encoded(heap, registry, schemas[i], args[i], {}, 128) == Ok(r.value[i])
    ensures |args| == |schemas| && r.Err? ==>
              exists i :: 0 <= i < |args| && Encoded(heap, registry, schemas[i], args[i], {}, 128) == Err(r.error)
                          && forall j :: 0 <= j < i ==> Encoded(heap, registry, schemas[j], args[j], {}, 128).Ok?
  {
    if |args| != |schemas| { return Err(Mismatch); }
    var encoder := new Encoder(heap, registry);
    var ts: seq<Tree> := [];
    var i := 0;
    while i < |args|
      invariant 0 <= i <= |args| && |ts| == i && fresh(encoder)
      invariant encoder.heap == heap && encoder.registry == registry && encoder.ancestors == {} && encoder.depth == 0
      invariant forall j :: 0 <= j < i ==> Encoded(heap, registry, schemas[j], args[j], {}, MAX_DEPTH) == Ok(ts[j])
    {
      var t := encoder.EncodeValue(schemas[i], args[i]);
      if t.Err? { return Err(t.error); }
      ts := ts + [t.value];
      i := i + 1;
    }
    return Ok(ts);
  }
}
