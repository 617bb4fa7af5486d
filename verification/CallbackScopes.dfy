/** Retained callbacks: a registry of handlers under opaque tokens, and a manager that releases
    them in bulk when a scope ends or its owner finishes. */
module CallbackScopes {
  import opened Options
  import opened Capabilities

  type Token = nat
  type Owner = nat
  type Handler = nat

  datatype ScopeError = StaleCallback | NoActiveScope | ScopeNotActive | OutOfTokens

  // ---------------------------------------------------------------- releasing many tokens

  ghost predicate Distinct<T>(q: seq<T>) {
    forall i, j :: 0 <= i < j < |q| ==> q[i] != q[j]
  }

  function Elements(q: seq<Token>): (s: set<Token>)
    ensures forall x :: x in s <==> x in q
  {
    set x | x in q
  }

  /** What is left after releasing `ids` one by one, up to the first stale one. */
  function Remaining(handlers: map<Token, Handler>, ids: seq<Token>): map<Token, Handler> {
    if ids == [] || ids[0] !in handlers then handlers else Remaining(handlers - {ids[0]}, ids[1..])
  }

  /** Releasing meets no stale token. */
  predicate ReleasesAll(handlers: map<Token, Handler>, ids: seq<Token>) {
    ids == [] || (ids[0] in handlers && ReleasesAll(handlers - {ids[0]}, ids[1..]))
  }

  /** Releasing succeeds exactly when the tokens are registered and distinct, and then removes
      exactly them. */
  lemma {:induction false} ReleaseMeaning(handlers: map<Token, Handler>, ids: seq<Token>)
    ensures ReleasesAll(handlers, ids) <==> Distinct(ids) && (forall t :: t in ids ==> t in handlers)
    ensures ReleasesAll(handlers, ids) ==> Remaining(handlers, ids) == handlers - Elements(ids)
    ensures Remaining(handlers, ids).Keys <= handlers.Keys
    ensures forall t :: t in handlers && t !in ids ==>
              t in Remaining(handlers, ids) && Remaining(handlers, ids)[t] == handlers[t]
    decreases |ids|
  {
    if ids == [] {
      assert handlers - Elements(ids) == handlers;
    } else {
      assert ids == [ids[0]] + ids[1..];
      assert forall t :: t in ids <==> t == ids[0] || t in ids[1..];
      DistinctTail(ids);
      if ids[0] in handlers {
        var rest := handlers - {ids[0]};
        ReleaseMeaning(rest, ids[1..]);
        if ReleasesAll(rest, ids[1..]) {
          assert rest - Elements(ids[1..]) == handlers - Elements(ids);
        }
        forall t | t in handlers && t !in ids
          ensures t in Remaining(handlers, ids) && Remaining(handlers, ids)[t] == handlers[t]
        {
          assert t in rest && rest[t] == handlers[t] && t !in ids[1..];
          assert Remaining(handlers, ids) == Remaining(rest, ids[1..]);
        }
      }
    }
  }

  lemma DistinctTail<T>(q: seq<T>)
    requires q != []
    ensures Distinct(q) <==> q[0] !in q[1..] && Distinct(q[1..])
  {
    if Distinct(q) {
      forall i, j | 0 <= i < j < |q[1..]| ensures q[1..][i] != q[1..][j] {
        assert q[i + 1] != q[j + 1];
      }
    } else {
      var i, j :| 0 <= i < j < |q| && q[i] == q[j];
      if i > 0 { assert q[1..][i - 1] == q[1..][j - 1]; } else { assert q[1..][j - 1] == q[0]; }
    }
  }

  lemma ReleaseStep(handlers: map<Token, Handler>, ids: seq<Token>)
    requires ids != []
    ensures Remaining(handlers, ids) == if ids[0] in handlers then Remaining(handlers - {ids[0]}, ids[1..]) else handlers
    ensures ReleasesAll(handlers, ids) <==> ids[0] in handlers && ReleasesAll(handlers - {ids[0]}, ids[1..])
  {
  }

  lemma NothingToRelease(handlers: map<Token, Handler>)
    ensures Remaining(handlers, []) == handlers && ReleasesAll(handlers, [])
  {
  }

  class Registry {
    const capabilities: CapabilityAllocator
    var handlers: map<Token, Handler>
    /** Every handler ever retained, and the tokens released since. */
    ghost var retained: map<Token, Handler>
    ghost var gone: set<Token>

    /** The registered tokens are those retained and not yet released; a token is retained once. */
    ghost predicate Valid()
      reads this, capabilities
    {
      && capabilities.Valid()
      && (forall t :: t in handlers ==> t in retained && handlers[t] == retained[t])
      && (forall t :: t in retained ==> t in capabilities.issued && (t in handlers <==> t !in gone))
      && gone <= retained.Keys
    }

    constructor (capabilities: CapabilityAllocator)
      requires capabilities.Valid()
      ensures Valid() && this.capabilities == capabilities && handlers == map[] && retained == map[]
    {
      this.capabilities := capabilities;
      handlers, retained, gone := map[], map[], {};
    }

    /** Registers a handler under a token that was never issued before. */
    method Retain(handler: Handler) returns (r: Result<Token, ScopeError>)
      requires Valid()
      modifies this, capabilities
      ensures Valid()
      ensures r.Ok? ==> r.value !in old(capabilities.issued) && capabilities.issued == old(capabilities.issued) + [r.value]
      ensures r.Ok? ==> handlers == old(handlers)[r.value := handler] && retained == old(retained)[r.value := handler] && r.value !in old(retained)
      ensures gone == old(gone) && (r.Err? ==> retained == old(retained))
      ensures r.Err? ==> handlers == old(handlers) && capabilities.issued == old(capabilities.issued)
    {
      var token := capabilities.Allocate();
      if token.Err? { return Err(OutOfTokens); }
      handlers, retained := handlers[token.value := handler], retained[token.value := handler];
      return Ok(token.value);
    }

    /** A token leads to the handler retained under it until it is released, and never again. */
    method Resolve(token: Token) returns (r: Result<Handler, ScopeError>)
      requires Valid()
      ensures r.Ok? <==> token in retained && token !in gone
      ensures r.Ok? ==> r.value == retained[token]
      ensures r.Err? ==> r.error == StaleCallback
    {
      return if token in handlers then Ok(handlers[token]) else Err(StaleCallback);
    }

    method Release(token: Token) returns (r: Result<(), ScopeError>)
      requires Valid()
      modifies this
      ensures Valid() && r.Ok? == (token in old(handlers)) && handlers == old(handlers) - {token}
      ensures retained == old(retained) && gone == old(gone) + (if r.Ok? then {token} else {})
    {
      hide CapabilityAllocator.Valid;
      var found := Resolve(token);
      if found.Err? { return Err(StaleCallback); }
      handlers, gone := handlers - {token}, gone + {token};
      return Ok(());
    }

    /** Releases tokens in order; the first stale one stops it, and those before it stay released. */
    method ReleaseMany(ids: seq<Token>) returns (r: Result<(), ScopeError>)
      requires Valid()
      modifies this
      ensures Valid()
      ensures handlers == Remaining(old(handlers), ids)
      ensures r.Ok? == ReleasesAll(old(handlers), ids)
      ensures retained == old(retained)
    {
      hide Remaining, ReleasesAll, CapabilityAllocator.Valid;
      var i := 0;
      assert ids[0..] == ids;
      while i < |ids|
        invariant 0 <= i <= |ids| && Valid()
        invariant Remaining(old(handlers), ids) == Remaining(handlers, ids[i..])
        invariant ReleasesAll(old(handlers), ids) == ReleasesAll(handlers, ids[i..])
        invariant retained == old(retained)
      {
        assert ids[i..][0] == ids[i] && ids[i..][1..] == ids[i + 1..];
        ReleaseStep(handlers, ids[i..]);
        var released := Release(ids[i]);
        if released.Err? { return released; }
        i := i + 1;
      }
      assert ids[|ids|..] == [];
      NothingToRelease(handlers);
      return Ok(());
    }
  }

  // ---------------------------------------------------------------- scopes

  datatype Scope = Scope(id: nat, retained: seq<Token>)

  /** The stacks of open scopes and the tokens retained outside any scope, owner by owner. */
  datatype Scopes = Scopes(stacks: map<Owner, seq<Scope>>, unscoped: map<Owner, seq<Token>>, nextScopeId: nat)

  /** Where a token is tracked. */
  datatype Place = InScope(owner: Owner, depth: nat) | Unscoped(owner: Owner)

  ghost predicate Holds(s: Scopes, p: Place, t: Token) {
    match p
    case InScope(o, i) => o in s.stacks && i < |s.stacks[o]| && t in s.stacks[o][i].retained
    case Unscoped(o) => o in s.unscoped && t in s.unscoped[o]
  }

  ghost predicate Tracked(s: Scopes, t: Token) {
    exists p :: Holds(s, p, t)
  }

  ghost predicate StackOk(stack: seq<Scope>, next: nat) {
    && stack != []
    && (forall i :: 0 <= i < |stack| ==> stack[i].id < next && Distinct(stack[i].retained))
    && (forall i, j :: 0 <= i < j < |stack| ==> stack[i].id < stack[j].id)
  }

  /** The scopes of an owner form a strictly increasing stack. */
  ghost predicate Stacks(s: Scopes) {
    forall o {:trigger StackOk(s.stacks[o], s.nextScopeId)} :: o in s.stacks ==> StackOk(s.stacks[o], s.nextScopeId)
  }

  ghost predicate OutsideOk(s: Scopes, o: Owner) {
    o in s.unscoped ==> s.unscoped[o] != [] && Distinct(s.unscoped[o])
  }

  ghost predicate Outside(s: Scopes) {
    forall o {:trigger OutsideOk(s, o)} :: OutsideOk(s, o)
  }

  /** Every tracked token has one place. */
  ghost predicate OnePlace(s: Scopes) {
    forall t, p, q {:trigger Holds(s, p, t), Holds(s, q, t)} :: Holds(s, p, t) && Holds(s, q, t) ==> p == q
  }

  /** Scope `id` is open for `o`, with `i` scopes around it. */
  ghost predicate Open(s: Scopes, o: Owner, i: nat, id: nat) {
    o in s.stacks && i < |s.stacks[o]| && s.stacks[o][i].id == id
  }

  /** An open scope has one owner and one position. */
  ghost predicate OwnIds(s: Scopes) {
    forall id, o, i, u, j {:trigger Open(s, o, i, id), Open(s, u, j, id)} :: Open(s, o, i, id) && Open(s, u, j, id) ==> o == u && i == j
  }

  ghost predicate Valid(s: Scopes) {
    Stacks(s) && Outside(s) && OnePlace(s) && OwnIds(s)
  }

  function Top(stack: seq<Scope>): Scope
    requires stack != []
  {
    stack[|stack| - 1]
  }

  /** Adds a token to a set that is kept in the order of insertion. */
  function Added(q: seq<Token>, t: Token): seq<Token> {
    if t in q then q else q + [t]
  }

  function Without(q: seq<Token>, t: Token): (r: seq<Token>)
    ensures forall x :: x in r <==> x in q && x != t
  {
    if q == [] then [] else (if q[0] == t then [] else [q[0]]) + Without(q[1..], t)
  }

  function ToTop(stack: seq<Scope>, t: Token): seq<Scope>
    requires stack != []
  {
    stack[|stack| - 1 := Top(stack).(retained := Added(Top(stack).retained, t))]
  }

  function Begun(s: Scopes, o: Owner): Scopes {
    var stack := if o in s.stacks then s.stacks[o] else [];
    s.(stacks := s.stacks[o := stack + [Scope(s.nextScopeId, [])]], nextScopeId := s.nextScopeId + 1)
  }

  function Retained(s: Scopes, o: Owner, t: Token): Scopes {
    if o in s.stacks && s.stacks[o] != [] then
      s.(stacks := s.stacks[o := ToTop(s.stacks[o], t)])
    else
      s.(unscoped := s.unscoped[o := Added(if o in s.unscoped then s.unscoped[o] else [], t)])
  }

  /** A token retained outside any scope moves into the active one. */
  function Claimed(s: Scopes, o: Owner, t: Token): Scopes
    requires o in s.unscoped && o in s.stacks && s.stacks[o] != []
  {
    var rest := Without(s.unscoped[o], t);
    s.(unscoped := if rest == [] then s.unscoped - {o} else s.unscoped[o := rest],
       stacks := s.stacks[o := ToTop(s.stacks[o], t)])
  }

  function Ended(s: Scopes, o: Owner): Scopes
    requires o in s.stacks && s.stacks[o] != []
  {
    var stack := s.stacks[o][..|s.stacks[o]| - 1];
    s.(stacks := if stack == [] then s.stacks - {o} else s.stacks[o := stack])
  }

  function Finished(s: Scopes, o: Owner): Scopes {
    s.(stacks := s.stacks - {o}, unscoped := s.unscoped - {o})
  }

  function AllRetained(stack: seq<Scope>): seq<Token> {
    if stack == [] then [] else stack[0].retained + AllRetained(stack[1..])
  }

  // ---------------------------------------------------------------- every step keeps one place per token

  lemma AtOwner(s: Scopes, o: Owner)
    requires Valid(s)
    ensures o in s.stacks ==> StackOk(s.stacks[o], s.nextScopeId) && s.stacks[o] != []
    ensures o in s.unscoped ==> s.unscoped[o] != [] && Distinct(s.unscoped[o])
  {
    assert OutsideOk(s, o);
  }

  /** A stack that keeps its lower scopes and adds a newer one stays increasing. */
  lemma BegunStacks(s: Scopes, o: Owner)
    requires Stacks(s) && OwnIds(s)
    ensures Stacks(Begun(s, o)) && OwnIds(Begun(s, o))
  {
    var s' := Begun(s, o);
    forall u | u in s'.stacks ensures StackOk(s'.stacks[u], s'.nextScopeId) {
      if u in s.stacks { assert StackOk(s.stacks[u], s.nextScopeId); }
    }
    forall id, u, i, v, j | Open(s', u, i, id) && Open(s', v, j, id) ensures u == v && i == j {
      OpenBefore(s, o, u, i, id);
      OpenBefore(s, o, v, j, id);
    }
  }

  lemma OpenBefore(s: Scopes, o: Owner, u: Owner, i: nat, id: nat)
    requires Stacks(s) && Open(Begun(s, o), u, i, id)
    ensures (Open(s, u, i, id) && id < s.nextScopeId) || (id == s.nextScopeId && u == o && i == if o in s.stacks then |s.stacks[o]| else 0)
  {
    if u in s.stacks { assert StackOk(s.stacks[u], s.nextScopeId); }
  }

  lemma BegunHolds(s: Scopes, o: Owner, p: Place, t: Token)
    ensures Holds(Begun(s, o), p, t) <==> Holds(s, p, t)
  {
  }

  lemma BegunKeeps(s: Scopes, o: Owner)
    requires Valid(s)
    ensures Valid(Begun(s, o))
    ensures forall p, t {:trigger Holds(Begun(s, o), p, t)} :: Holds(Begun(s, o), p, t) <==> Holds(s, p, t)
  {
    var s' := Begun(s, o);
    BegunStacks(s, o);
    forall p, t ensures Holds(s', p, t) <==> Holds(s, p, t) { BegunHolds(s, o, p, t); }
    forall u ensures OutsideOk(s', u) { assert OutsideOk(s, u); }
    hide Begun, Holds, Stacks, Outside, OwnIds;
    assert OnePlace(s');
  }

  /** Scopes keep their ids and positions, or are gone. */
  lemma SameIds(s: Scopes, s': Scopes)
    requires OwnIds(s) && forall o, i, id :: Open(s', o, i, id) ==> Open(s, o, i, id)
    ensures OwnIds(s')
  {
    forall id, o, i, u, j | Open(s', o, i, id) && Open(s', u, j, id) ensures o == u && i == j {
      assert Open(s, o, i, id) && Open(s, u, j, id);
    }
  }

  /** Where a token goes that an owner retains now. */
  ghost function Home(s: Scopes, o: Owner): Place {
    if o in s.stacks && s.stacks[o] != [] then InScope(o, |s.stacks[o]| - 1) else Unscoped(o)
  }

  lemma RetainedHolds(s: Scopes, o: Owner, t: Token, p: Place, x: Token)
    ensures Holds(Retained(s, o, t), p, x) <==> Holds(s, p, x) || (x == t && p == Home(s, o))
  {
  }

  lemma RetainedStacks(s: Scopes, o: Owner, t: Token)
    requires Stacks(s) && Outside(s) && OwnIds(s)
    ensures var s' := Retained(s, o, t); Stacks(s') && Outside(s') && OwnIds(s')
  {
    var s' := Retained(s, o, t);
    forall u | u in s'.stacks ensures StackOk(s'.stacks[u], s'.nextScopeId) { assert StackOk(s.stacks[u], s.nextScopeId); }
    forall u ensures OutsideOk(s', u) { assert OutsideOk(s, u); }
    SameIds(s, s');
  }

  /** A token that is not tracked yet ends up in one place: the active scope if there is one. */
  lemma RetainedKeeps(s: Scopes, o: Owner, t: Token)
    requires Valid(s) && !Tracked(s, t)
    ensures Valid(Retained(s, o, t))
    ensures forall p, x {:trigger Holds(Retained(s, o, t), p, x)} ::
              Holds(Retained(s, o, t), p, x) <==> Holds(s, p, x) || (x == t && p == Home(s, o))
  {
    var s' := Retained(s, o, t);
    RetainedStacks(s, o, t);
    forall p, x ensures Holds(s', p, x) <==> Holds(s, p, x) || (x == t && p == Home(s, o)) { RetainedHolds(s, o, t, p, x); }
    hide Retained, Holds, Stacks, Outside, OwnIds, Home;
    assert forall p :: !Holds(s, p, t);
    assert OnePlace(s');
  }

  lemma {:induction false} WithoutDistinct(q: seq<Token>, t: Token)
    requires Distinct(q)
    ensures Distinct(Without(q, t))
  {
    if q != [] {
      DistinctTail(q);
      WithoutDistinct(q[1..], t);
      if q[0] != t {
        assert Without(q, t)[1..] == Without(q[1..], t);
        DistinctTail(Without(q, t));
      }
    }
  }

  lemma ClaimedHolds(s: Scopes, o: Owner, t: Token, p: Place, x: Token)
    requires o in s.unscoped && o in s.stacks && s.stacks[o] != []
    ensures Holds(Claimed(s, o, t), p, x) <==> (Holds(s, p, x) && !(x == t && p == Unscoped(o))) || (x == t && p == Home(s, o))
  {
  }

  lemma ClaimedStacks(s: Scopes, o: Owner, t: Token)
    requires Stacks(s) && Outside(s) && OwnIds(s) && o in s.unscoped && o in s.stacks && s.stacks[o] != []
    ensures var s' := Claimed(s, o, t); Stacks(s') && Outside(s') && OwnIds(s')
  {
    var s' := Claimed(s, o, t);
    assert OutsideOk(s, o);
    WithoutDistinct(s.unscoped[o], t);
    forall u | u in s'.stacks ensures StackOk(s'.stacks[u], s'.nextScopeId) { assert StackOk(s.stacks[u], s.nextScopeId); }
    forall u ensures OutsideOk(s', u) { assert OutsideOk(s, u); }
    SameIds(s, s');
  }

  /** A claimed token moves from the unscoped ones to the active scope, and no other token moves. */
  lemma ClaimedKeeps(s: Scopes, o: Owner, t: Token)
    requires Valid(s) && Holds(s, Unscoped(o), t) && o in s.stacks && s.stacks[o] != []
    ensures o in s.unscoped && Valid(Claimed(s, o, t))
    ensures forall p, x {:trigger Holds(Claimed(s, o, t), p, x)} ::
              Holds(Claimed(s, o, t), p, x) <==> if x == t then p == Home(s, o) else Holds(s, p, x)
  {
    var s' := Claimed(s, o, t);
    ClaimedStacks(s, o, t);
    forall p, x ensures Holds(s', p, x) <==> if x == t then p == Home(s, o) else Holds(s, p, x) {
      ClaimedHolds(s, o, t, p, x);
      if x == t && Holds(s, p, t) { assert p == Unscoped(o); }
    }
    hide Claimed, Holds, Stacks, Outside, OwnIds, Home;
    assert OnePlace(s');
  }

  lemma ClaimedStays(s: Scopes, o: Owner, t: Token)
    requires Valid(s) && Holds(s, Unscoped(o), t) && o in s.unscoped && o in s.stacks && s.stacks[o] != []
    ensures forall p, x {:trigger Holds(Claimed(s, o, t), p, x)} :: Holds(Claimed(s, o, t), p, x) ==> Tracked(s, x)
  {
    hide Valid, Claimed, Holds, Home;
    ClaimedKeeps(s, o, t);
    forall p, x | Holds(Claimed(s, o, t), p, x) ensures Tracked(s, x) {
      if x == t { assert Holds(s, Unscoped(o), x); } else { assert Holds(s, p, x); }
    }
  }

  lemma EndedHolds(s: Scopes, o: Owner, p: Place, x: Token)
    requires o in s.stacks && s.stacks[o] != []
    ensures Holds(Ended(s, o), p, x) <==> Holds(s, p, x) && p != Home(s, o)
  {
  }

  lemma EndedStacks(s: Scopes, o: Owner)
    requires Stacks(s) && Outside(s) && OwnIds(s) && o in s.stacks && s.stacks[o] != []
    ensures var s' := Ended(s, o); Stacks(s') && Outside(s') && OwnIds(s')
  {
    var s' := Ended(s, o);
    forall u | u in s'.stacks ensures StackOk(s'.stacks[u], s'.nextScopeId) { assert StackOk(s.stacks[u], s.nextScopeId); }
    forall u ensures OutsideOk(s', u) { assert OutsideOk(s, u); }
    SameIds(s, s');
  }

  /** Ending a scope untracks what it retained, and nothing else. */
  lemma EndedKeeps(s: Scopes, o: Owner)
    requires Valid(s) && o in s.stacks && s.stacks[o] != []
    ensures Valid(Ended(s, o))
    ensures forall p, x {:trigger Holds(Ended(s, o), p, x)} :: Holds(Ended(s, o), p, x) <==> Holds(s, p, x) && p != Home(s, o)
  {
    var s' := Ended(s, o);
    EndedStacks(s, o);
    forall p, x ensures Holds(s', p, x) <==> Holds(s, p, x) && p != Home(s, o) { EndedHolds(s, o, p, x); }
    hide Ended, Holds, Stacks, Outside, OwnIds, Home;
    assert OnePlace(s');
  }

  lemma FinishedHolds(s: Scopes, o: Owner, p: Place, x: Token)
    ensures Holds(Finished(s, o), p, x) <==> Holds(s, p, x) && p.owner != o
  {
  }

  lemma FinishedKeeps(s: Scopes, o: Owner)
    requires Valid(s)
    ensures Valid(Finished(s, o))
    ensures forall p, x {:trigger Holds(Finished(s, o), p, x)} :: Holds(Finished(s, o), p, x) <==> Holds(s, p, x) && p.owner != o
  {
    var s' := Finished(s, o);
    forall u | u in s'.stacks ensures StackOk(s'.stacks[u], s'.nextScopeId) { assert StackOk(s.stacks[u], s.nextScopeId); }
    forall u ensures OutsideOk(s', u) { assert OutsideOk(s, u); }
    SameIds(s, s');
    forall p, x ensures Holds(s', p, x) <==> Holds(s, p, x) && p.owner != o { FinishedHolds(s, o, p, x); }
    hide Finished, Holds, Stacks, Outside, OwnIds;
    assert OnePlace(s');
  }

  /** What an owner's scopes retain, all together, is distinct, and is what they hold one by one. */
  lemma {:induction false} AllRetainedMeaning(s: Scopes, o: Owner, i: nat)
    requires Valid(s) && o in s.stacks && i <= |s.stacks[o]|
    ensures Distinct(AllRetained(s.stacks[o][i..]))
    ensures forall t :: t in AllRetained(s.stacks[o][i..]) <==> exists j :: i <= j && Holds(s, InScope(o, j), t)
    decreases |s.stacks[o]| - i
  {
    var stack := s.stacks[o];
    if i < |stack| {
      assert StackOk(stack, s.nextScopeId);
      AllRetainedMeaning(s, o, i + 1);
      assert stack[i..][0] == stack[i] && stack[i..][1..] == stack[i + 1..];
      var head, rest := stack[i].retained, AllRetained(stack[i + 1..]);
      forall t | t in head ensures t !in rest {
        assert Holds(s, InScope(o, i), t);
      }
      DistinctConcat(head, rest);
      forall t ensures t in head + rest <==> exists j :: i <= j && Holds(s, InScope(o, j), t) {
        if t in head { assert Holds(s, InScope(o, i), t); }
        if j :| i <= j && Holds(s, InScope(o, j), t) {
          if j > i { assert t in rest; }
        }
      }
    }
  }

  lemma DistinctConcat<T>(a: seq<T>, b: seq<T>)
    requires Distinct(a) && Distinct(b) && forall x :: x in a ==> x !in b
    ensures Distinct(a + b)
  {
    forall i, j | 0 <= i < j < |a + b| ensures (a + b)[i] != (a + b)[j] {
      if i < |a| && j >= |a| { assert a[i] in a && b[j - |a|] in b; }
    }
  }

  // ---------------------------------------------------------------- the manager

  class ScopeManager {
    const registry: Registry
    var stacks: map<Owner, seq<Scope>>
    var unscoped: map<Owner, seq<Token>>
    var nextScopeId: nat

    ghost function State(): Scopes
      reads this
    {
      Scopes(stacks, unscoped, nextScopeId)
    }

    /** Tracked tokens were issued by the registry's allocator. */
    ghost predicate Sound()
      reads this, registry, registry.capabilities
    {
      && registry.Valid() && Valid(State())
      && forall p, t {:trigger Holds(State(), p, t)} :: Holds(State(), p, t) ==> t in registry.capabilities.issued
    }

    /** Nobody else has released a tracked token. */
    ghost predicate AllRegistered()
      reads this, registry
    {
      forall p, t {:trigger Holds(State(), p, t)} :: Holds(State(), p, t) ==> t in registry.handlers
    }

    constructor (registry: Registry)
      requires registry.Valid()
      ensures Sound() && AllRegistered() && this.registry == registry && State() == Scopes(map[], map[], 1)
    {
      this.registry := registry;
      stacks, unscoped, nextScopeId := map[], map[], 1;
    }

    method BeginScope(o: Owner) returns (id: nat)
      requires Sound()
      modifies this
      ensures Sound() && State() == Begun(old(State()), o) && id == old(nextScopeId)
      ensures old(AllRegistered()) ==> AllRegistered()
    {
      BegunKeeps(State(), o);
      id := nextScopeId;
      nextScopeId := nextScopeId + 1;
      var stack := if o in stacks then stacks[o] else [];
      stacks := stacks[o := stack + [Scope(id, [])]];
    }

    /** Retains a handler for an owner, or for nobody. */
    method Retain(owner: Option<Owner>, handler: Handler) returns (r: Result<Token, ScopeError>)
      requires Sound()
      modifies this, registry, registry.capabilities
      ensures Sound()
      ensures r.Ok? ==> registry.handlers == old(registry.handlers)[r.value := handler] && !Tracked(old(State()), r.value)
      ensures r.Err? ==> State() == old(State()) && registry.handlers == old(registry.handlers)
      ensures r.Ok? && owner.None? ==> State() == old(State())
      ensures r.Ok? && owner.Some? ==> State() == Retained(old(State()), owner.value, r.value)
      ensures old(AllRegistered()) ==> AllRegistered()
    {
      ghost var s := State();
      r := registry.Retain(handler);
      if r.Err? || owner.None? { return; }
      var o, t := owner.value, r.value;
      RetainedKeeps(s, o, t);
      if o in stacks && stacks[o] != [] {
        stacks := stacks[o := ToTop(stacks[o], t)];
      } else {
        unscoped := unscoped[o := Added(if o in unscoped then unscoped[o] else [], t)];
      }
    }

    /** Moves a token into the active scope of its owner; a token that is not waiting is left alone. */
    method Claim(o: Owner, t: Token) returns (r: Result<(), ScopeError>)
      requires Sound()
      modifies this
      ensures Sound()
      ensures !Holds(old(State()), Unscoped(o), t) ==> r.Ok? && State() == old(State())
      ensures Holds(old(State()), Unscoped(o), t) && o !in old(stacks) ==> r == Err(NoActiveScope) && State() == old(State())
      ensures Holds(old(State()), Unscoped(o), t) && o in old(stacks) ==>
                r.Ok? && old(stacks)[o] != [] && State() == Claimed(old(State()), o, t)
      ensures old(AllRegistered()) ==> AllRegistered()
    {
      hide Valid, Claimed;
      ghost var s := State();
      if o !in unscoped || t !in unscoped[o] { return Ok(()); }
      AtOwner(s, o);
      if o !in stacks { return Err(NoActiveScope); }
      ClaimActive(o, t);
      return Ok(());
    }

    method ClaimActive(o: Owner, t: Token)
      requires Sound() && Holds(State(), Unscoped(o), t) && o in unscoped && o in stacks && stacks[o] != []
      modifies this
      ensures Sound() && State() == Claimed(old(State()), o, t)
      ensures old(AllRegistered()) ==> AllRegistered()
    {
      hide Valid, Claimed, Holds, Home;
      ghost var s := State();
      ClaimedKeeps(s, o, t);
      ClaimedStays(s, o, t);
      MoveToTop(o, t);
    }

    method MoveToTop(o: Owner, t: Token)
      requires o in unscoped && o in stacks && stacks[o] != []
      modifies this
      ensures State() == Claimed(old(State()), o, t)
    {
      var rest := Without(unscoped[o], t);
      unscoped := if rest == [] then unscoped - {o} else unscoped[o := rest];
      stacks := stacks[o := ToTop(stacks[o], t)];
    }

    /** Ends the innermost scope of an owner and releases exactly what it retained. Any other
        scope is refused. Only a token that somebody else released can make releasing fail. */
    method EndScope(o: Owner, scopeId: nat) returns (r: Result<(), ScopeError>)
      requires Sound()
      modifies this, registry
      ensures Sound()
      ensures o !in old(stacks) || old(stacks)[o] == [] || Top(old(stacks)[o]).id != scopeId ==>
                r == Err(ScopeNotActive) && State() == old(State()) && registry.handlers == old(registry.handlers)
      ensures o in old(stacks) && old(stacks)[o] != [] && Top(old(stacks)[o]).id == scopeId ==>
                var ids := Top(old(stacks)[o]).retained;
                && State() == Ended(old(State()), o)
                && registry.handlers == Remaining(old(registry.handlers), ids)
                && (r.Ok? <==> forall t :: t in ids ==> t in old(registry.handlers))
                && (r.Ok? ==> registry.handlers == old(registry.handlers) - Elements(ids))
      ensures old(AllRegistered()) ==> AllRegistered() && (r.Err? ==> r.error == ScopeNotActive)
    {
      ghost var s := State();
      ghost var handlers := registry.handlers;
      if o !in stacks || stacks[o] == [] || Top(stacks[o]).id != scopeId { return Err(ScopeNotActive); }
      EndedKeeps(s, o);
      assert StackOk(s.stacks[o], s.nextScopeId);
      var scope := Top(stacks[o]);
      var stack := stacks[o][..|stacks[o]| - 1];
      stacks := if stack == [] then stacks - {o} else stacks[o := stack];
      ReleaseMeaning(handlers, scope.retained);
      r := registry.ReleaseMany(scope.retained);
      assert State() == Ended(s, o);
      forall p, t | Holds(State(), p, t) ensures t in handlers ==> t in registry.handlers {
        assert Holds(s, p, t) && (t in scope.retained ==> Holds(s, InScope(o, |s.stacks[o]| - 1), t));
      }
      forall t | t in scope.retained ensures Holds(s, InScope(o, |s.stacks[o]| - 1), t) {}
    }

    /** Forgets an owner and releases exactly what its scopes retained. What it retained outside
        any scope stays registered, although nothing tracks it any more. */
    method FinishOwner(o: Owner) returns (r: Result<(), ScopeError>)
      requires Sound()
      modifies this, registry
      ensures Sound() && State() == Finished(old(State()), o)
      ensures o !in old(stacks) ==> r.Ok? && registry.handlers == old(registry.handlers)
      ensures o in old(stacks) ==>
                var ids := AllRetained(old(stacks)[o]);
                && registry.handlers == Remaining(old(registry.handlers), ids)
                && (r.Ok? <==> forall t :: t in ids ==> t in old(registry.handlers))
                && (r.Ok? ==> registry.handlers == old(registry.handlers) - Elements(ids))
      ensures forall t :: Holds(old(State()), Unscoped(o), t) && t in old(registry.handlers) ==>
                t in registry.handlers && !Tracked(State(), t)
      ensures old(AllRegistered()) ==> AllRegistered() && r.Ok?
    {
      ghost var s := State();
      ghost var handlers := registry.handlers;
      FinishedKeeps(s, o);
      var scopes := if o in stacks then stacks[o] else [];
      stacks := stacks - {o};
      unscoped := unscoped - {o};
      var ids := AllRetained(scopes);
      ReleaseMeaning(handlers, ids);
      if o in s.stacks {
        AllRetainedMeaning(s, o, 0);
        assert s.stacks[o][0..] == scopes;
      }
      r := registry.ReleaseMany(ids);
      assert State() == Finished(s, o);
      forall p, t | Holds(s, p, t) && (p.owner != o || p.Unscoped?) ensures t !in ids {}
    }
  }
}
