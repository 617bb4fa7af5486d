/** Values that cross the host boundary: host values form a graph of objects, schemas direct how
    they are read, and what crosses is a finite tree. */
module BoundaryModel {
  import opened Options

  type TypeId = nat
  type ObjectId = nat

  const MAX_DEPTH: nat := 128
  const MAX_BYTES: nat := 16_777_216
  const MAX_LENGTH: nat := 1_048_576

  /** A number: an integer, or anything else (fractions, infinities, not-a-number). */
  datatype Number = Whole(value: int) | Other(code: nat)

  /** A host value. Objects have identity, so they may be shared and may be cyclic. */
  datatype Value =
    | Undefined
    | Null
    | Bool(b: bool)
    | Num(n: Number)
    | Big(i: int)
    | Str(s: string)
    | Object(id: ObjectId)
    | Opaque

  datatype Node = ArrayNode(items: seq<Value>) | RecordNode(entries: map<string, Value>) | MapNode(entries: map<string, Value>) | BytesNode(bytes: seq<nat>)

  type Heap = map<ObjectId, Node>

  /** What crosses the boundary, and what a host gets from it. */
  datatype Tree =
    | TUndefined
    | TNull
    | TBool(b: bool)
    | TNum(n: Number)
    | TBig(i: int)
    | TStr(s: string)
    | TBytes(bytes: seq<nat>)
    | TArray(items: seq<Tree>)
    | TRecord(entries: map<string, Tree>)
    | TOther

  datatype Scalar = SBool | SI32 | SI64 | SFloat | SString | SBytes

  datatype Schema =
    | Scalar(scalar: Scalar)
    | Void
    | Array(element: Schema)
    | Record(tag: string, fields: seq<Field>)
    | Union(variants: seq<Variant>)
    | Custom(representation: Schema)
    | Ref(target: TypeId)
  datatype Field = Field(name: string, isOptional: bool, schema: Schema)
  datatype Variant = Variant(name: string, fields: seq<Field>)

  type Registry = map<TypeId, Schema>

  datatype CodecError = Mismatch | TooManyBytes | TooLong | TooDeep | Cyclic | UnknownField | WrongTag | NoVariant | UnresolvedRef | Diverges

  // ---------------------------------------------------------------- references

  datatype Resolution = Resolved(schema: Schema) | Unresolved | Loops

  /** Follows references and custom representations to a schema of another kind. A chain of
      nothing but these that comes back to itself never ends. */
  function Core(registry: Registry, s: Schema, seen: set<TypeId>): (r: Resolution)
    ensures r.Resolved? ==> !r.schema.Ref? && !r.schema.Custom?
    decreases registry.Keys - seen, s
  {
    match s
    case Custom(representation) => Core(registry, representation, seen)
    case Ref(id) =>
      if id !in registry || registry[id].Ref? then Unresolved
      else if id in seen then Loops
      else
        assert id in registry.Keys - seen;
        Core(registry, registry[id], seen + {id})
    case _ => Resolved(s)
  }

  /** A reference has to be followed. */
  predicate ThroughRef(s: Schema) {
    match s
    case Ref(_) => true
    case Custom(representation) => ThroughRef(representation)
    case _ => false
  }

  // ---------------------------------------------------------------- scalars

  function Utf8Length(s: string): nat {
    if s == "" then 0
    else (if s[0] < '\U{80}' then 1 else if s[0] < '\U{800}' then 2 else if s[0] < '\U{10000}' then 3 else 4) + Utf8Length(s[1..])
  }

  const I32_LIMIT: int := 0x8000_0000
  const I64_LIMIT: int := 0x8000_0000_0000_0000
  const SAFE_LIMIT: int := 0x20_0000_0000_0000

  /** Checks a scalar and leaves it as it is. */
  function CheckScalar(k: Scalar, t: Tree): (r: Result<Tree, CodecError>)
    ensures r.Ok? ==> r.value == t && !t.TArray? && !t.TRecord?
  {
    match k
    case SBool => if t.TBool? then Ok(t) else Err(Mismatch)
    case SI32 => if t.TNum? && t.n.Whole? && -I32_LIMIT <= t.n.value < I32_LIMIT then Ok(t) else Err(Mismatch)
    case SI64 =>
      if t.TBig? && -I64_LIMIT <= t.i < I64_LIMIT then Ok(t)
      else if t.TNum? && t.n.Whole? && -SAFE_LIMIT < t.n.value < SAFE_LIMIT then Ok(t)
      else Err(Mismatch)
    case SFloat => if t.TNum? then Ok(t) else Err(Mismatch)
    case SString => if !t.TStr? then Err(Mismatch) else if Utf8Length(t.s) > MAX_BYTES then Err(TooManyBytes) else Ok(t)
    case SBytes => if !t.TBytes? then Err(Mismatch) else if |t.bytes| > MAX_BYTES then Err(TooManyBytes) else Ok(t)
  }

  /** A host value that is not a container, as it crosses. */
  function AsTree(heap: Heap, v: Value): (t: Tree)
    ensures !t.TArray? && !t.TRecord?
  {
    match v
    case Undefined => TUndefined
    case Null => TNull
    case Bool(b) => TBool(b)
    case Num(n) => TNum(n)
    case Big(i) => TBig(i)
    case Str(s) => TStr(s)
    case Object(id) => if id in heap && heap[id].BytesNode? then TBytes(heap[id].bytes) else TOther
    case Opaque => TOther
  }

  // ---------------------------------------------------------------- records

  /** The entries of a value that counts as a record. */
  function EntriesOf(heap: Heap, v: Value): Option<map<string, Value>> {
    if v.Object? && v.id in heap && (heap[v.id].RecordNode? || heap[v.id].MapNode?) then Some(heap[v.id].entries) else None
  }

  function Get(entries: map<string, Value>, name: string): Value {
    if name in entries then entries[name] else Undefined
  }

  /** The first of two values that is neither undefined nor null. */
  function Either(a: Value, b: Value): Value {
    if a.Undefined? || a.Null? then b else a
  }

  function FieldNames(fields: seq<Field>): set<string> {
    set i | 0 <= i < |fields| :: fields[i].name
  }

  const TAG_NAMES := {"tag", "$variant"}

  predicate KnownNames(names: set<string>, fields: seq<Field>, tags: bool) {
    forall name :: name in names ==> name in FieldNames(fields) || (tags && name in TAG_NAMES)
  }

  function FindVariant(variants: seq<Variant>, name: string): Option<Variant> {
    if variants == [] then None else if variants[0].name == name then Some(variants[0]) else FindVariant(variants[1..], name)
  }

  /** A field that is left out of what crosses. */
  predicate LeftOut(field: Field, entries: map<string, Value>) {
    field.isOptional && Get(entries, field.name).Undefined?
  }

  // ---------------------------------------------------------------- what a value looks like to a schema

  /** What a schema makes of a value before going into it. `tracked`: the object whose recurrence
      is watched for. `wire`, `native`: how the tag crosses and how it is read. `late`: a problem
      that is found only after limits and recurrence. */
  datatype View =
    | Bad(error: CodecError)
    | Plain(tree: Tree)
    | Items(element: Schema, items: seq<Value>, tracked: ObjectId)
    | Fields(fields: seq<Field>, entries: map<string, Value>, wire: map<string, Tree>, native: map<string, Tree>,
             length: nat, watched: Option<ObjectId>, late: Option<CodecError>)

  function ViewOf(heap: Heap, registry: Registry, s: Schema, v: Value): View {
    match Core(registry, s, {})
    case Loops => Bad(Diverges)
    case Unresolved => Bad(UnresolvedRef)
    case Resolved(core) =>
      match core
      case Void => Plain(TNull)
      case Scalar(k) => (match CheckScalar(k, AsTree(heap, v)) case Err(e) => Bad(e) case Ok(t) => Plain(t))
      case Array(element) =>
        if v.Object? && v.id in heap && heap[v.id].ArrayNode? then Items(element, heap[v.id].items, v.id) else Bad(Mismatch)
      case Record(tag, fields) => RecordView(heap, v, tag, fields)
      case Union(variants) => UnionView(heap, v, variants)
      case _ => Bad(UnresolvedRef)
  }

  function Tagged(key: string, tag: string): map<string, Tree> {
    map[key := TStr(tag)]
  }

  /** A record: any object is watched; an untagged record allows no tag. */
  function RecordView(heap: Heap, v: Value, tag: string, fields: seq<Field>): (view: View)
    ensures view.Fields?
  {
    var entries := EntriesOf(heap, v);
    var known := if entries.Some? then entries.value else map[];
    Fields(fields, known, if tag != "" then Tagged("$variant", tag) else map[], if tag != "" then Tagged("tag", tag) else map[],
           |fields| + (if tag != "" then 1 else 0), if v.Object? then Some(v.id) else None,
           if entries.None? then Some(Mismatch)
           else if !KnownNames(known.Keys, fields, tag != "") then Some(UnknownField)
           else if tag != "" && Either(Get(known, "tag"), Get(known, "$variant")) != Str(tag) then Some(WrongTag)
           else None)
  }

  /** A variant of a union: a map is turned into a new object first, so it is not watched. */
  function UnionView(heap: Heap, v: Value, variants: seq<Variant>): (view: View)
    ensures view.Bad? || view.Fields?
  {
    match EntriesOf(heap, v)
    case None => Bad(Mismatch)
    case Some(entries) =>
      var tag := Either(Get(entries, "tag"), Get(entries, "$variant"));
      if !tag.Str? then Bad(NoVariant)
      else
        match FindVariant(variants, tag.s)
        case None => Bad(NoVariant)
        case Some(variant) =>
          Fields(variant.fields, entries, Tagged("$variant", tag.s), Tagged("tag", tag.s), |variant.fields|,
                 if heap[v.id].MapNode? then None else Some(v.id),
                 if KnownNames(entries.Keys, variant.fields, true) then None else Some(UnknownField))
  }
}
