/** Portable adapter schemas: references between compiler types are unfolded, and custom types are
    replaced by their representation. Recursive types have no finite unfolding and are refused. */
module PortableSchema {
  import opened Options

  type TypeId = nat
  type Primitive = nat

  datatype Schema =
    | Leaf(primitive: Primitive, id: Option<TypeId>)
    | Array(id: Option<TypeId>, aliases: seq<TypeId>, element: Schema)
    | Record(id: Option<TypeId>, aliases: seq<TypeId>, tag: string, fields: seq<Field>)
    | Union(id: Option<TypeId>, aliases: seq<TypeId>, variants: seq<Variant>)
    | Custom(id: Option<TypeId>, representation: Schema)
    | Ref(target: TypeId)
  datatype Field = Field(name: string, isOptional: bool, schema: Schema)
  datatype Variant = Variant(name: string, fields: seq<Field>)

  /** A schema without references and custom types. An empty tag is left out. */
  datatype Dto =
    | DtoLeaf(primitive: Primitive)
    | DtoArray(element: Dto)
    | DtoRecord(tag: Option<string>, fields: seq<DtoField>)
    | DtoUnion(variants: seq<DtoVariant>)
  datatype DtoField = DtoField(name: string, isOptional: bool, schema: Dto)
  datatype DtoVariant = DtoVariant(name: string, fields: seq<DtoField>)

  datatype PortableError = UnknownType(id: TypeId) | RecursiveType

  type Types = map<TypeId, Schema>

  // ---------------------------------------------------------------- registering types

  /** The ids under which a schema itself is registered. */
  function OwnIds(s: Schema): seq<TypeId> {
    match s
    case Leaf(_, id) => if id.Some? then [id.value] else []
    case Array(id, aliases, _) => if id.Some? then [id.value] + aliases else []
    case Record(id, aliases, _, _) => if id.Some? then [id.value] + aliases else []
    case Union(id, aliases, _) => if id.Some? then [id.value] + aliases else []
    case Custom(id, _) => if id.Some? then [id.value] else []
    case Ref(_) => []
  }

  function Put(types: Types, ids: seq<TypeId>, s: Schema): Types
    decreases |ids|
  {
    if ids == [] then types else Put(types[ids[0] := s], ids[1..], s)
  }

  /** The types after registering `s` and everything inside it; the last of several wins. */
  function Registered(types: Types, s: Schema): Types
    decreases s, 1
  {
    var own := Put(types, OwnIds(s), s);
    match s
    case Array(_, _, element) => Registered(own, element)
    case Record(_, _, _, fields) => RegisteredFields(own, fields)
    case Union(_, _, variants) => RegisteredVariants(own, variants)
    case Custom(_, representation) => Registered(own, representation)
    case _ => own
  }

  function RegisteredFields(types: Types, fields: seq<Field>): Types
    decreases fields, 0
  {
    if fields == [] then types else RegisteredFields(Registered(types, fields[0].schema), fields[1..])
  }

  function RegisteredVariants(types: Types, variants: seq<Variant>): Types
    decreases variants, 0
  {
    if variants == [] then types else RegisteredVariants(RegisteredFields(types, variants[0].fields), variants[1..])
  }

  /** `part` occurs in `s`, not looking through references. */
  predicate Within(part: Schema, s: Schema) {
    || part == s
    || match s
       case Array(_, _, element) => Within(part, element)
       case Record(_, _, _, fields) => exists i :: 0 <= i < |fields| && Within(part, fields[i].schema)
       case Union(_, _, variants) => exists i, j :: 0 <= i < |variants| && 0 <= j < |variants[i].fields| && Within(part, variants[i].fields[j].schema)
       case Custom(_, representation) => Within(part, representation)
       case _ => false
  }

  ghost predicate WithinFields(part: Schema, fields: seq<Field>) {
    exists i :: 0 <= i < |fields| && Within(part, fields[i].schema)
  }

  ghost predicate WithinVariants(part: Schema, variants: seq<Variant>) {
    exists i, j :: 0 <= i < |variants| && 0 <= j < |variants[i].fields| && Within(part, variants[i].fields[j].schema)
  }

  lemma {:induction false} PutMeaning(types: Types, ids: seq<TypeId>, s: Schema)
    decreases |ids|
    ensures forall id :: id in Put(types, ids, s) <==> id in types || id in ids
    ensures forall id :: id in Put(types, ids, s) ==> Put(types, ids, s)[id] == if id in ids then s else types[id]
  {
    if ids != [] { PutMeaning(types[ids[0] := s], ids[1..], s); }
  }

  /** A part carries its own id and, with it, its aliases. */
  predicate Carries(part: Schema, id: TypeId) {
    && !part.Ref? && part.id.Some?
    && (id == part.id.value || ((part.Array? || part.Record? || part.Union?) && id in part.aliases))
  }

  lemma OwnIdsAre(s: Schema, id: TypeId)
    ensures id in OwnIds(s) <==> Carries(s, id)
  {
  }

  /** Registering `s` adds exactly the ids carried by its parts, each for a part that carries it. */
  lemma {:induction false} RegisteredMeaning(types: Types, s: Schema, id: TypeId)
    ensures var next := Registered(types, s);
            && (id in types ==> id in next)
            && (id in next ==> (id in types && next[id] == types[id]) || (Within(next[id], s) && Carries(next[id], id)))
            && (forall part :: Within(part, s) && Carries(part, id) ==> id in next)
    decreases s, 1
  {
    var own := Put(types, OwnIds(s), s);
    PutMeaning(types, OwnIds(s), s);
    forall part ensures id in OwnIds(part) <==> Carries(part, id) { OwnIdsAre(part, id); }
    hide Carries, OwnIds;
    match s
    case Array(_, _, element) => RegisteredMeaning(own, element, id);
    case Record(_, _, _, fields) =>
      RegisteredFieldsMeaning(own, fields, id);
      assert forall part :: WithinFields(part, fields) ==> Within(part, s);
    case Union(_, _, variants) =>
      RegisteredVariantsMeaning(own, variants, id);
      assert forall part :: WithinVariants(part, variants) ==> Within(part, s);
    case Custom(_, representation) => RegisteredMeaning(own, representation, id);
    case _ =>
  }

  lemma {:induction false} RegisteredFieldsMeaning(types: Types, fields: seq<Field>, id: TypeId)
    ensures var next := RegisteredFields(types, fields);
            && (id in types ==> id in next)
            && (id in next ==> (id in types && next[id] == types[id]) || (WithinFields(next[id], fields) && Carries(next[id], id)))
            && (forall part :: WithinFields(part, fields) && Carries(part, id) ==> id in next)
    decreases fields, 0
  {
    if fields != [] {
      var first := Registered(types, fields[0].schema);
      RegisteredMeaning(types, fields[0].schema, id);
      RegisteredFieldsMeaning(first, fields[1..], id);
      forall part ensures WithinFields(part, fields) <==> Within(part, fields[0].schema) || WithinFields(part, fields[1..]) {
        if i :| 0 <= i < |fields| && Within(part, fields[i].schema) { if i > 0 { assert fields[1..][i - 1] == fields[i]; } }
        if i :| 0 <= i < |fields[1..]| && Within(part, fields[1..][i].schema) { assert fields[i + 1] == fields[1..][i]; }
      }
    }
  }

  lemma {:induction false} RegisteredVariantsMeaning(types: Types, variants: seq<Variant>, id: TypeId)
    ensures var next := RegisteredVariants(types, variants);
            && (id in types ==> id in next)
            && (id in next ==> (id in types && next[id] == types[id]) || (WithinVariants(next[id], variants) && Carries(next[id], id)))
            && (forall part :: WithinVariants(part, variants) && Carries(part, id) ==> id in next)
    decreases variants, 0
  {
    if variants != [] {
      var first := RegisteredFields(types, variants[0].fields);
      RegisteredFieldsMeaning(types, variants[0].fields, id);
      RegisteredVariantsMeaning(first, variants[1..], id);
      forall part ensures WithinVariants(part, variants) <==> WithinFields(part, variants[0].fields) || WithinVariants(part, variants[1..]) {
        if i, j :| 0 <= i < |variants| && 0 <= j < |variants[i].fields| && Within(part, variants[i].fields[j].schema) {
          if i > 0 { assert variants[1..][i - 1] == variants[i]; }
        }
        if i, j :| 0 <= i < |variants[1..]| && 0 <= j < |variants[1..][i].fields| && Within(part, variants[1..][i].fields[j].schema) {
          assert variants[i + 1] == variants[1..][i];
        }
      }
    }
  }

  // Which part an id ends up with.

  /** `s` and the parts inside it, each before those inside it. */
  function PartsIn(s: Schema): (r: seq<Schema>)
    decreases s, 1
  {
    [s] + match s
          case Array(_, _, element) => PartsIn(element)
          case Record(_, _, _, fields) => PartsInFields(fields)
          case Union(_, _, variants) => PartsInVariants(variants)
          case Custom(_, representation) => PartsIn(representation)
          case _ => []
  }

  function PartsInFields(fields: seq<Field>): seq<Schema>
    decreases fields, 0
  {
    if fields == [] then [] else PartsIn(fields[0].schema) + PartsInFields(fields[1..])
  }

  function PartsInVariants(variants: seq<Variant>): seq<Schema>
    decreases variants, 0
  {
    if variants == [] then [] else PartsInFields(variants[0].fields) + PartsInVariants(variants[1..])
  }

  /** One part after another is registered. */
  function Overlaid(types: Types, parts: seq<Schema>): Types
    decreases |parts|
  {
    if parts == [] then types else Overlaid(Put(types, OwnIds(parts[0]), parts[0]), parts[1..])
  }

  lemma {:induction false} OverlaidConcat(types: Types, a: seq<Schema>, b: seq<Schema>)
    ensures Overlaid(types, a + b) == Overlaid(Overlaid(types, a), b)
    decreases |a|
  {
    if a == [] {
      assert a + b == b;
    } else {
      assert (a + b)[0] == a[0] && (a + b)[1..] == a[1..] + b;
      OverlaidConcat(Put(types, OwnIds(a[0]), a[0]), a[1..], b);
    }
  }

  lemma {:induction false} RegisteredIsOverlaid(types: Types, s: Schema)
    ensures Registered(types, s) == Overlaid(types, PartsIn(s))
    decreases s, 1
  {
    var own := Put(types, OwnIds(s), s);
    assert PartsIn(s)[0] == s;
    match s
    case Array(_, _, element) => RegisteredIsOverlaid(own, element); assert PartsIn(s)[1..] == PartsIn(element);
    case Record(_, _, _, fields) => FieldsOverlaid(own, fields); assert PartsIn(s)[1..] == PartsInFields(fields);
    case Union(_, _, variants) => VariantsOverlaid(own, variants); assert PartsIn(s)[1..] == PartsInVariants(variants);
    case Custom(_, representation) => RegisteredIsOverlaid(own, representation); assert PartsIn(s)[1..] == PartsIn(representation);
    case _ => assert PartsIn(s)[1..] == [];
  }

  lemma {:induction false} FieldsOverlaid(types: Types, fields: seq<Field>)
    ensures RegisteredFields(types, fields) == Overlaid(types, PartsInFields(fields))
    decreases fields, 0
  {
    if fields != [] {
      RegisteredIsOverlaid(types, fields[0].schema);
      FieldsOverlaid(Registered(types, fields[0].schema), fields[1..]);
      OverlaidConcat(types, PartsIn(fields[0].schema), PartsInFields(fields[1..]));
    }
  }

  lemma {:induction false} VariantsOverlaid(types: Types, variants: seq<Variant>)
    ensures RegisteredVariants(types, variants) == Overlaid(types, PartsInVariants(variants))
    decreases variants, 0
  {
    if variants != [] {
      FieldsOverlaid(types, variants[0].fields);
      VariantsOverlaid(RegisteredFields(types, variants[0].fields), variants[1..]);
      OverlaidConcat(types, PartsInFields(variants[0].fields), PartsInVariants(variants[1..]));
    }
  }

  /** The last part that carries `id`. */
  ghost predicate LastCarrier(parts: seq<Schema>, id: TypeId, k: int) {
    0 <= k < |parts| && Carries(parts[k], id) && forall j :: k < j < |parts| ==> !Carries(parts[j], id)
  }

  lemma {:induction false} OverlaidLast(types: Types, parts: seq<Schema>, id: TypeId)
    ensures var next := Overlaid(types, parts);
            && (forall k :: LastCarrier(parts, id, k) ==> id in next && next[id] == parts[k])
            && ((forall k :: 0 <= k < |parts| ==> !Carries(parts[k], id)) ==> (id in next <==> id in types) && (id in next ==> next[id] == types[id]))
    decreases |parts|
  {
    hide Carries, OwnIds;
    if parts != [] {
      var s, rest := parts[0], parts[1..];
      var own := Put(types, OwnIds(s), s);
      PutMeaning(types, OwnIds(s), s);
      OwnIdsAre(s, id);
      OverlaidLast(own, rest, id);
      assert forall k :: 0 <= k < |rest| ==> rest[k] == parts[k + 1];
      forall k | LastCarrier(parts, id, k) ensures id in Overlaid(types, parts) && Overlaid(types, parts)[id] == parts[k] {
        if k > 0 {
          assert LastCarrier(rest, id, k - 1);
        } else {
          assert forall j :: 0 <= j < |rest| ==> !Carries(rest[j], id);
        }
      }
    }
  }

  /** Of several parts with one id the last is registered, where a part comes before those inside it. */
  lemma LastOneWins(types: Types, s: Schema, id: TypeId)
    ensures forall part :: part in PartsIn(s) <==> Within(part, s)
    ensures var next := Registered(types, s);
            && (forall k :: LastCarrier(PartsIn(s), id, k) ==> id in next && next[id] == PartsIn(s)[k])
            && ((forall k :: 0 <= k < |PartsIn(s)| ==> !Carries(PartsIn(s)[k], id)) ==> (id in next <==> id in types) && (id in next ==> next[id] == types[id]))
  {
    forall part ensures part in PartsIn(s) <==> Within(part, s) { PartsAreWithin(s, part); }
    RegisteredIsOverlaid(types, s);
    OverlaidLast(types, PartsIn(s), id);
  }

  lemma {:induction false} PartsAreWithin(s: Schema, part: Schema)
    ensures part in PartsIn(s) <==> Within(part, s)
    decreases s, 1
  {
    match s
    case Array(_, _, element) => PartsAreWithin(element, part);
    case Record(_, _, _, fields) => FieldPartsAreWithin(fields, part);
    case Union(_, _, variants) => VariantPartsAreWithin(variants, part);
    case Custom(_, representation) => PartsAreWithin(representation, part);
    case _ =>
  }

  lemma {:induction false} FieldPartsAreWithin(fields: seq<Field>, part: Schema)
    ensures part in PartsInFields(fields) <==> WithinFields(part, fields)
    decreases fields, 0
  {
    if fields != [] {
      PartsAreWithin(fields[0].schema, part);
      FieldPartsAreWithin(fields[1..], part);
      assert fields == [fields[0]] + fields[1..];
      hide Within;
    }
  }

  lemma {:induction false} VariantPartsAreWithin(variants: seq<Variant>, part: Schema)
    ensures part in PartsInVariants(variants) <==> WithinVariants(part, variants)
    decreases variants, 0
  {
    if variants != [] {
      FieldPartsAreWithin(variants[0].fields, part);
      VariantPartsAreWithin(variants[1..], part);
      hide Within;
      if i, j :| 0 <= i < |variants| && 0 <= j < |variants[i].fields| && Within(part, variants[i].fields[j].schema) {
        if i > 0 { assert variants[1..][i - 1] == variants[i]; }
      }
      if i, j :| 0 <= i < |variants[1..]| && 0 <= j < |variants[1..][i].fields| && Within(part, variants[1..][i].fields[j].schema) {
        assert variants[i + 1] == variants[1..][i];
      }
    }
  }

  /** The table of types, filled in place. */
  class TypeTable {
    var types: Types

    constructor ()
      ensures types == map[]
    {
      types := map[];
    }

    method Register(s: Schema)
      modifies this
      ensures types == Registered(old(types), s)
      decreases s, 1
    {
      var ids := OwnIds(s);
      var i := 0;
      while i < |ids|
        invariant 0 <= i <= |ids|
        invariant Put(types, ids[i..], s) == Put(old(types), ids, s)
      {
        types := types[ids[i] := s];
        assert ids[i..][1..] == ids[i + 1..];
        i := i + 1;
      }
      match s
      case Array(_, _, element) => Register(element);
      case Record(_, _, _, fields) => RegisterFields(fields);
      case Union(_, _, variants) => RegisterVariants(variants);
      case Custom(_, representation) => Register(representation);
      case _ =>
    }

    method RegisterFields(fields: seq<Field>)
      modifies this
      ensures types == RegisteredFields(old(types), fields)
      decreases fields, 0
    {
      if fields != [] {
        Register(fields[0].schema);
        RegisterFields(fields[1..]);
      }
    }

    method RegisterVariants(variants: seq<Variant>)
      modifies this
      ensures types == RegisteredVariants(old(types), variants)
      decreases variants, 0
    {
      if variants != [] {
        RegisterFields(variants[0].fields);
        RegisterVariants(variants[1..]);
      }
    }
  }

  // ---------------------------------------------------------------- unfolding

  function Tag(tag: string): Option<string> {
    if tag == "" then None else Some(tag)
  }

  /** The portable form of `s`. `active` are the references being unfolded. */
  function Portable(types: Types, s: Schema, active: set<TypeId>): Result<Dto, PortableError>
    decreases types.Keys - active, s, 1
  {
    match s
    case Leaf(p, _) => Ok(DtoLeaf(p))
    case Array(_, _, element) =>
      (match Portable(types, element, active)
       case Err(e) => Err(e)
       case Ok(d) => Ok(DtoArray(d)))
    case Record(_, _, tag, fields) =>
      (match PortableFields(types, fields, active)
       case Err(e) => Err(e)
       case Ok(ds) => Ok(DtoRecord(Tag(tag), ds)))
    case Union(_, _, variants) =>
      (match PortableVariants(types, variants, active)
       case Err(e) => Err(e)
       case Ok(ds) => Ok(DtoUnion(ds)))
    case Custom(_, representation) => Portable(types, representation, active)
    case Ref(id) =>
      if id !in types then Err(UnknownType(id))
      else if id in active then Err(RecursiveType)
      else
        assert id in types.Keys - active;
        Portable(types, types[id], active + {id})
  }

  function PortableFields(types: Types, fields: seq<Field>, active: set<TypeId>): Result<seq<DtoField>, PortableError>
    decreases types.Keys - active, fields, 0
  {
    if fields == [] then Ok([])
    else
      match Portable(types, fields[0].schema, active)
      case Err(e) => Err(e)
      case Ok(d) =>
        match PortableFields(types, fields[1..], active)
        case Err(e) => Err(e)
        case Ok(ds) => Ok([DtoField(fields[0].name, fields[0].isOptional, d)] + ds)
  }

  function PortableVariants(types: Types, variants: seq<Variant>, active: set<TypeId>): Result<seq<DtoVariant>, PortableError>
    decreases types.Keys - active, variants, 0
  {
    if variants == [] then Ok([])
    else
      match PortableFields(types, variants[0].fields, active)
      case Err(e) => Err(e)
      case Ok(d) =>
        match PortableVariants(types, variants[1..], active)
        case Err(e) => Err(e)
        case Ok(ds) => Ok([DtoVariant(variants[0].name, d)] + ds)
  }

  /** The unfolding of `s`, if at most `n` references have to be followed on any path. */
  function Unfold(types: Types, s: Schema, n: nat): Option<Dto>
    decreases n, s, 1
  {
    match s
    case Leaf(p, _) => Some(DtoLeaf(p))
    case Array(_, _, element) =>
      var d := Unfold(types, element, n);
      if d.None? then None else Some(DtoArray(d.value))
    case Record(_, _, tag, fields) =>
      var ds := UnfoldFields(types, fields, n);
      if ds.None? then None else Some(DtoRecord(if tag != "" then Some(tag) else None, ds.value))
    case Union(_, _, variants) =>
      var ds := UnfoldVariants(types, variants, n);
      if ds.None? then None else Some(DtoUnion(ds.value))
    case Custom(_, representation) => Unfold(types, representation, n)
    case Ref(id) => if n == 0 || id !in types then None else Unfold(types, types[id], n - 1)
  }

  function UnfoldFields(types: Types, fields: seq<Field>, n: nat): Option<seq<DtoField>>
    decreases n, fields, 0
  {
    if fields == [] then Some([])
    else
      var d, ds := Unfold(types, fields[0].schema, n), UnfoldFields(types, fields[1..], n);
      if d.None? || ds.None? then None else Some([DtoField(fields[0].name, fields[0].isOptional, d.value)] + ds.value)
  }

  function UnfoldVariants(types: Types, variants: seq<Variant>, n: nat): Option<seq<DtoVariant>>
    decreases n, variants, 0
  {
    if variants == [] then Some([])
    else
      var d, ds := UnfoldFields(types, variants[0].fields, n), UnfoldVariants(types, variants[1..], n);
      if d.None? || ds.None? then None else Some([DtoVariant(variants[0].name, d.value)] + ds.value)
  }

  // Following more references changes nothing once the unfolding is complete.

  lemma {:induction false} MoreIsTheSame(types: Types, s: Schema, n: nat, k: nat)
    requires n <= k && Unfold(types, s, n).Some?
    ensures Unfold(types, s, k) == Unfold(types, s, n)
    decreases n, s, 1
  {
    match s
    case Leaf(_, _) =>
    case Array(_, _, element) => MoreIsTheSame(types, element, n, k);
    case Record(_, _, _, fields) => MoreFieldsTheSame(types, fields, n, k);
    case Union(_, _, variants) => MoreVariantsTheSame(types, variants, n, k);
    case Custom(_, representation) => MoreIsTheSame(types, representation, n, k);
    case Ref(id) => MoreIsTheSame(types, types[id], n - 1, k - 1);
  }

  lemma {:induction false} MoreFieldsTheSame(types: Types, fields: seq<Field>, n: nat, k: nat)
    requires n <= k && UnfoldFields(types, fields, n).Some?
    ensures UnfoldFields(types, fields, k) == UnfoldFields(types, fields, n)
    decreases n, fields, 0
  {
    if fields != [] {
      MoreIsTheSame(types, fields[0].schema, n, k);
      MoreFieldsTheSame(types, fields[1..], n, k);
    }
  }

  lemma {:induction false} MoreVariantsTheSame(types: Types, variants: seq<Variant>, n: nat, k: nat)
    requires n <= k && UnfoldVariants(types, variants, n).Some?
    ensures UnfoldVariants(types, variants, k) == UnfoldVariants(types, variants, n)
    decreases n, variants, 0
  {
    if variants != [] {
      MoreFieldsTheSame(types, variants[0].fields, n, k);
      MoreVariantsTheSame(types, variants[1..], n, k);
    }
  }

  // A portable form is the unfolding, and follows no more references than there are left.

  lemma {:induction false} PortableIsUnfolding(types: Types, s: Schema, active: set<TypeId>)
    requires Portable(types, s, active).Ok?
    ensures Unfold(types, s, |types.Keys - active|) == Some(Portable(types, s, active).value)
    decreases types.Keys - active, s, 1
  {
    match s
    case Leaf(_, _) =>
    case Array(_, _, element) => PortableIsUnfolding(types, element, active);
    case Record(_, _, _, fields) => PortableFieldsAreUnfolding(types, fields, active);
    case Union(_, _, variants) => PortableVariantsAreUnfolding(types, variants, active);
    case Custom(_, representation) => PortableIsUnfolding(types, representation, active);
    case Ref(id) =>
      assert id in types.Keys - active;
      assert types.Keys - active == (types.Keys - (active + {id})) + {id};
      PortableIsUnfolding(types, types[id], active + {id});
  }

  lemma {:induction false} PortableFieldsAreUnfolding(types: Types, fields: seq<Field>, active: set<TypeId>)
    requires PortableFields(types, fields, active).Ok?
    ensures UnfoldFields(types, fields, |types.Keys - active|) == Some(PortableFields(types, fields, active).value)
    decreases types.Keys - active, fields, 0
  {
    if fields != [] {
      PortableIsUnfolding(types, fields[0].schema, active);
      PortableFieldsAreUnfolding(types, fields[1..], active);
    }
  }

  lemma {:induction false} PortableVariantsAreUnfolding(types: Types, variants: seq<Variant>, active: set<TypeId>)
    requires PortableVariants(types, variants, active).Ok?
    ensures UnfoldVariants(types, variants, |types.Keys - active|) == Some(PortableVariants(types, variants, active).value)
    decreases types.Keys - active, variants, 0
  {
    if variants != [] {
      PortableFieldsAreUnfolding(types, variants[0].fields, active);
      PortableVariantsAreUnfolding(types, variants[1..], active);
    }
  }

  // A finite unfolding is found: no reference being unfolded can be met again below.

  /** None of the active types unfolds with fewer than `n` references. */
  ghost predicate TooDeep(types: Types, active: set<TypeId>, n: nat) {
    forall a, j: nat {:trigger Unfold(types, types[a], j)} :: a in active && a in types && j < n ==> Unfold(types, types[a], j).None?
  }

  lemma {:induction false} Least(types: Types, s: Schema, n: nat) returns (k: nat)
    requires Unfold(types, s, n).Some?
    ensures k <= n && Unfold(types, s, k).Some? && forall j: nat :: j < k ==> Unfold(types, s, j).None?
  {
    if n > 0 && Unfold(types, s, n - 1).Some? {
      k := Least(types, s, n - 1);
    } else {
      k := n;
      forall j: nat | j < k ensures Unfold(types, s, j).None? {
        if Unfold(types, s, j).Some? { MoreIsTheSame(types, s, j, n - 1); }
      }
    }
  }

  lemma {:induction false} FiniteIsPortable(types: Types, s: Schema, active: set<TypeId>, n: nat)
    requires Unfold(types, s, n).Some? && TooDeep(types, active, n)
    ensures Portable(types, s, active) == Ok(Unfold(types, s, n).value)
    decreases n, s, 1
  {
    match s
    case Leaf(_, _) =>
    case Array(_, _, element) => FiniteIsPortable(types, element, active, n);
    case Record(_, _, _, fields) => FiniteFieldsArePortable(types, fields, active, n);
    case Union(_, _, variants) => FiniteVariantsArePortable(types, variants, active, n);
    case Custom(_, representation) => FiniteIsPortable(types, representation, active, n);
    case Ref(id) =>
      assert id !in active;
      var k := Least(types, types[id], n - 1);
      MoreIsTheSame(types, types[id], k, n - 1);
      FiniteIsPortable(types, types[id], active + {id}, k);
  }

  lemma {:induction false} FiniteFieldsArePortable(types: Types, fields: seq<Field>, active: set<TypeId>, n: nat)
    requires UnfoldFields(types, fields, n).Some? && TooDeep(types, active, n)
    ensures PortableFields(types, fields, active) == Ok(UnfoldFields(types, fields, n).value)
    decreases n, fields, 0
  {
    if fields != [] {
      FiniteIsPortable(types, fields[0].schema, active, n);
      FiniteFieldsArePortable(types, fields[1..], active, n);
    }
  }

  lemma {:induction false} FiniteVariantsArePortable(types: Types, variants: seq<Variant>, active: set<TypeId>, n: nat)
    requires UnfoldVariants(types, variants, n).Some? && TooDeep(types, active, n)
    ensures PortableVariants(types, variants, active) == Ok(UnfoldVariants(types, variants, n).value)
    decreases n, variants, 0
  {
    if variants != [] {
      FiniteFieldsArePortable(types, variants[0].fields, active, n);
      FiniteVariantsArePortable(types, variants[1..], active, n);
    }
  }

  /** A schema has a portable form exactly when its unfolding is finite, and then it is the
      unfolding; following each registered type once is enough to tell. */
  lemma PortableIffFinite(types: Types, s: Schema, d: Dto)
    ensures Portable(types, s, {}) == Ok(d) <==> exists n: nat :: Unfold(types, s, n) == Some(d)
    ensures (exists n: nat :: Unfold(types, s, n).Some?) <==> Unfold(types, s, |types|).Some?
  {
    assert types.Keys - {} == types.Keys && |types.Keys| == |types|;
    if Portable(types, s, {}).Ok? { PortableIsUnfolding(types, s, {}); }
    if n: nat :| Unfold(types, s, n).Some? {
      FiniteIsPortable(types, s, {}, n);
      assert Unfold(types, s, n) == Some(Portable(types, s, {}).value);
      forall k: nat | Unfold(types, s, k).Some? ensures Unfold(types, s, k) == Unfold(types, s, n) {
        FiniteIsPortable(types, s, {}, k);
      }
    }
  }

  /** Every reference in `s` is registered. */
  predicate RefsKnown(types: Types, s: Schema) {
    match s
    case Leaf(_, _) => true
    case Array(_, _, element) => RefsKnown(types, element)
    case Record(_, _, _, fields) => forall i :: 0 <= i < |fields| ==> RefsKnown(types, fields[i].schema)
    case Union(_, _, variants) => forall i, j :: 0 <= i < |variants| && 0 <= j < |variants[i].fields| ==> RefsKnown(types, variants[i].fields[j].schema)
    case Custom(_, representation) => RefsKnown(types, representation)
    case Ref(id) => id in types
  }

  /** That is, every reference among its parts. */
  lemma {:induction false} RefsKnownIff(types: Types, s: Schema)
    ensures RefsKnown(types, s) <==> forall part :: Within(part, s) && part.Ref? ==> part.target in types
  {
    match s
    case Array(_, _, element) => RefsKnownIff(types, element);
    case Record(_, _, _, fields) =>
      forall i | 0 <= i < |fields| { RefsKnownIff(types, fields[i].schema); }
    case Union(_, _, variants) =>
      forall i, j | 0 <= i < |variants| && 0 <= j < |variants[i].fields| { RefsKnownIff(types, variants[i].fields[j].schema); }
    case Custom(_, representation) => RefsKnownIff(types, representation);
    case _ =>
  }

  ghost predicate Closed(types: Types) {
    forall id :: id in types ==> RefsKnown(types, types[id])
  }

  /** When every reference is registered, the only failure is an infinite unfolding. */
  lemma {:induction false} OnlyRecursionFails(types: Types, s: Schema, active: set<TypeId>)
    requires Closed(types) && RefsKnown(types, s)
    ensures Portable(types, s, active).Err? ==> Portable(types, s, active) == Err(RecursiveType)
    decreases types.Keys - active, s, 1
  {
    match s
    case Leaf(_, _) =>
    case Array(_, _, element) => OnlyRecursionFails(types, element, active);
    case Record(_, _, _, fields) => OnlyRecursionFailsFields(types, fields, active);
    case Union(_, _, variants) => OnlyRecursionFailsVariants(types, variants, active);
    case Custom(_, representation) => OnlyRecursionFails(types, representation, active);
    case Ref(id) =>
      if id !in active {
        assert id in types.Keys - active;
        OnlyRecursionFails(types, types[id], active + {id});
      }
  }

  lemma {:induction false} OnlyRecursionFailsFields(types: Types, fields: seq<Field>, active: set<TypeId>)
    requires Closed(types) && forall i :: 0 <= i < |fields| ==> RefsKnown(types, fields[i].schema)
    ensures PortableFields(types, fields, active).Err? ==> PortableFields(types, fields, active) == Err(RecursiveType)
    decreases types.Keys - active, fields, 0
  {
    if fields != [] {
      OnlyRecursionFails(types, fields[0].schema, active);
      OnlyRecursionFailsFields(types, fields[1..], active);
    }
  }

  lemma {:induction false} OnlyRecursionFailsVariants(types: Types, variants: seq<Variant>, active: set<TypeId>)
    requires Closed(types)
    requires forall i, j :: 0 <= i < |variants| && 0 <= j < |variants[i].fields| ==> RefsKnown(types, variants[i].fields[j].schema)
    ensures PortableVariants(types, variants, active).Err? ==> PortableVariants(types, variants, active) == Err(RecursiveType)
    decreases types.Keys - active, variants, 0
  {
    if variants != [] {
      OnlyRecursionFailsFields(types, variants[0].fields, active);
      OnlyRecursionFailsVariants(types, variants[1..], active);
    }
  }

  /** With every reference registered, a schema is refused exactly when its unfolding is infinite. */
  lemma RefusedIffInfinite(types: Types, s: Schema)
    requires Closed(types) && RefsKnown(types, s)
    ensures Portable(types, s, {}) == Err(RecursiveType) <==> forall n: nat :: Unfold(types, s, n).None?
  {
    OnlyRecursionFails(types, s, {});
    if Portable(types, s, {}).Ok? { PortableIsUnfolding(types, s, {}); }
    if n: nat :| Unfold(types, s, n).Some? { FiniteIsPortable(types, s, {}, n); }
  }
}
