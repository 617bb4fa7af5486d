/** The order in which modules are lowered: a depth-first walk of a dependency graph that may
    have cycles. */
module ModuleOrder {
  import opened Options

  type ModuleId = string

  /** The dependencies of every module, in order. A module may depend on one that is not there. */
  type Graph = map<ModuleId, seq<ModuleId>>

  /** A module that can be visited: ids are never empty. */
  predicate Node(g: Graph, m: ModuleId) {
    m != "" && m in g
  }

  predicate Edge(g: Graph, u: ModuleId, v: ModuleId) {
    Node(g, u) && Node(g, v) && v in g[u]
  }

  ghost predicate Path(g: Graph, p: seq<ModuleId>) {
    p != [] && Node(g, p[0]) && forall i :: 0 <= i < |p| - 1 ==> Edge(g, p[i], p[i + 1])
  }

  ghost predicate PathBetween(g: Graph, p: seq<ModuleId>, u: ModuleId, v: ModuleId) {
    Path(g, p) && p[0] == u && p[|p| - 1] == v
  }

  ghost predicate Reaches(g: Graph, u: ModuleId, v: ModuleId) {
    exists p :: PathBetween(g, p, u, v)
  }

  /** Reaching is following dependencies through modules that are there. */
  lemma ReachesMeaning(g: Graph, u: ModuleId, v: ModuleId)
    ensures Reaches(g, u, v) <==> exists p :: Leads(g, p, u, v)
  {
    if p :| PathBetween(g, p, u, v) {
      forall i | 0 <= i < |p| ensures p[i] != "" && p[i] in g { if i > 0 { assert Edge(g, p[i - 1], p[i]); } }
      forall i | 0 <= i < |p| - 1 ensures p[i + 1] in g[p[i]] { assert Edge(g, p[i], p[i + 1]); }
      assert Leads(g, p, u, v);
    }
    if p :| Leads(g, p, u, v) { assert PathBetween(g, p, u, v); }
  }

  /** `p` leads from `u` to `v`: no id is empty, every module is there and a dependency of the one before. */
  ghost predicate Leads(g: Graph, p: seq<ModuleId>, u: ModuleId, v: ModuleId) {
    && p != [] && p[0] == u && p[|p| - 1] == v
    && (forall i :: 0 <= i < |p| ==> p[i] != "" && p[i] in g)
    && forall i :: 0 <= i < |p| - 1 ==> p[i + 1] in g[p[i]]
  }

  lemma ReachesItself(g: Graph, u: ModuleId)
    requires Node(g, u)
    ensures Reaches(g, u, u)
  {
    assert PathBetween(g, [u], u, u);
  }

  lemma ReachesFurther(g: Graph, u: ModuleId, v: ModuleId, w: ModuleId)
    requires Reaches(g, u, v) && Edge(g, v, w)
    ensures Reaches(g, u, w)
  {
    var p :| PathBetween(g, p, u, v);
    var q := p + [w];
    forall i | 0 <= i < |q| - 1 ensures Edge(g, q[i], q[i + 1]) {
      if i < |p| - 1 { assert Edge(g, p[i], p[i + 1]); }
    }
    assert PathBetween(g, q, u, w);
  }

  lemma ReachesTransitively(g: Graph, u: ModuleId, v: ModuleId, w: ModuleId)
    requires Reaches(g, u, v) && Reaches(g, v, w)
    ensures Reaches(g, u, w)
  {
    var p :| PathBetween(g, p, u, v);
    var q :| PathBetween(g, q, v, w);
    var r := p + q[1..];
    forall i | 0 <= i < |r| - 1 ensures Edge(g, r[i], r[i + 1]) {
      if i < |p| - 1 { assert Edge(g, p[i], p[i + 1]); } else { assert Edge(g, q[i - |p| + 1], q[i - |p| + 2]); }
    }
    assert PathBetween(g, r, u, w);
  }

  // ---------------------------------------------------------------- orders

  ghost predicate Distinct<T>(q: seq<T>) {
    forall i, j :: 0 <= i < j < |q| ==> q[i] != q[j]
  }

  ghost predicate Before<T>(q: seq<T>, a: T, b: T) {
    exists i, j :: 0 <= i < j < |q| && q[i] == a && q[j] == b
  }

  /** Every dependency of a listed module comes before it or depends on it in turn. */
  ghost predicate Ordered(g: Graph, order: seq<ModuleId>) {
    forall u, v {:trigger Edge(g, u, v)} :: u in order && Edge(g, u, v) ==> Before(order, v, u) || Reaches(g, v, u)
  }

  lemma BeforeGrows<T>(q: seq<T>, more: seq<T>, a: T, b: T)
    requires Before(q, a, b)
    ensures Before(q + more, a, b)
  {
    var i, j :| 0 <= i < j < |q| && q[i] == a && q[j] == b;
    assert (q + more)[i] == a && (q + more)[j] == b;
  }

  lemma BeforeLast<T>(q: seq<T>, a: T, b: T)
    requires a in q
    ensures Before(q + [b], a, b)
  {
    var i :| 0 <= i < |q| && q[i] == a;
    assert (q + [b])[i] == a && (q + [b])[|q|] == b;
  }

  function Kept(q: seq<ModuleId>, keep: set<ModuleId>): seq<ModuleId> {
    if q == [] then [] else (if q[0] in keep then [q[0]] else []) + Kept(q[1..], keep)
  }

  /** Leaving out modules keeps the others, once each and in their order. */
  lemma {:induction false} KeptMeaning(q: seq<ModuleId>, keep: set<ModuleId>)
    requires Distinct(q)
    ensures Distinct(Kept(q, keep))
    ensures forall m :: m in Kept(q, keep) <==> m in q && m in keep
  {
    if q != [] {
      DistinctTail(q);
      KeptMeaning(q[1..], keep);
      var rest := Kept(q[1..], keep);
      if q[0] in keep { assert Kept(q, keep) == [q[0]] + rest; DistinctHead(q[0], rest); }
    }
  }

  lemma DistinctTail(q: seq<ModuleId>)
    requires Distinct(q) && q != []
    ensures Distinct(q[1..]) && q[0] !in q[1..]
  {
    forall i, j | 0 <= i < j < |q[1..]| ensures q[1..][i] != q[1..][j] { assert q[i + 1] != q[j + 1]; }
  }

  lemma DistinctHead(m: ModuleId, q: seq<ModuleId>)
    requires Distinct(q) && m !in q
    ensures Distinct([m] + q)
  {
  }

  lemma {:induction false} KeptBefore(q: seq<ModuleId>, keep: set<ModuleId>, a: ModuleId, b: ModuleId)
    requires Before(q, a, b) && a in keep && b in keep
    ensures Before(Kept(q, keep), a, b)
  {
    var i, j :| 0 <= i < j < |q| && q[i] == a && q[j] == b;
    var rest := Kept(q[1..], keep);
    if i == 0 {
      KeptHas(q[1..], keep, j - 1);
      var k :| 0 <= k < |rest| && rest[k] == b;
      assert Kept(q, keep) == [a] + rest;
      assert Kept(q, keep)[0] == a && Kept(q, keep)[k + 1] == b;
    } else {
      assert q[1..][i - 1] == a && q[1..][j - 1] == b;
      KeptBefore(q[1..], keep, a, b);
      var k, l :| 0 <= k < l < |rest| && rest[k] == a && rest[l] == b;
      var d := if q[0] in keep then 1 else 0;
      assert Kept(q, keep)[k + d] == a && Kept(q, keep)[l + d] == b;
    }
  }

  lemma {:induction false} KeptHas(q: seq<ModuleId>, keep: set<ModuleId>, j: nat)
    requires j < |q| && q[j] in keep
    ensures q[j] in Kept(q, keep)
  {
    if j > 0 { KeptHas(q[1..], keep, j - 1); }
  }

  // ---------------------------------------------------------------- the walk

  /** Where the walk stands: `visited` modules that are not yet in `order` are being visited. */
  ghost predicate Walking(g: Graph, visited: set<ModuleId>, order: seq<ModuleId>) {
    && Distinct(order) && Ordered(g, order)
    && (forall u :: u in order ==> Node(g, u) && u in visited)
    && (forall u, v {:trigger Edge(g, u, v)} :: u in order && Edge(g, u, v) ==> v in visited)
  }

  /** Every module being visited reaches `m`. */
  ghost predicate OpenReach(g: Graph, visited: set<ModuleId>, order: seq<ModuleId>, m: ModuleId) {
    forall u {:trigger Reaches(g, u, m)} :: u in visited && Node(g, u) && u !in order ==> Reaches(g, u, m)
  }

  /** Going on from one point of the walk to another, only modules reachable from `m` are added,
      and each of them is finished. */
  ghost predicate Advances(g: Graph, m: ModuleId, visited: set<ModuleId>, order: seq<ModuleId>, visited': set<ModuleId>, order': seq<ModuleId>) {
    && visited <= visited' && order <= order'
    && (forall u :: u in visited' && u !in visited && Node(g, u) ==> Reaches(g, m, u) && u in order')
    && (forall u :: u in order' && u !in order ==> u !in visited)
  }

  lemma FinishModule(g: Graph, visited: set<ModuleId>, order: seq<ModuleId>, m: ModuleId)
    requires Walking(g, visited, order) && Node(g, m) && m in visited && m !in order && OpenReach(g, visited, order, m)
    requires forall v :: Edge(g, m, v) ==> v in visited
    ensures Walking(g, visited, order + [m])
  {
    var next := order + [m];
    forall u, v | u in next && Edge(g, u, v) ensures Before(next, v, u) || Reaches(g, v, u) {
      if u in order {
        if Before(order, v, u) { BeforeGrows(order, [m], v, u); }
      } else if v in order {
        BeforeLast(order, v, m);
      }
    }
  }

  class ModuleWalk {
    const modules: Graph
    var visited: set<ModuleId>
    var order: seq<ModuleId>

    constructor (modules: Graph)
      ensures this.modules == modules && visited == {} && order == []
    {
      this.modules := modules;
      visited, order := {}, [];
    }

    method Visit(m: ModuleId)
      requires Walking(modules, visited, order)
      requires Node(modules, m) && m !in visited ==> OpenReach(modules, visited, order, m)
      modifies this
      ensures Walking(modules, visited, order)
      ensures Advances(modules, m, old(visited), old(order), visited, order)
      ensures Node(modules, m) ==> m in visited
      decreases modules.Keys - visited
    {
      hide Reaches, Distinct, Before;
      if m == "" || m in visited { return; }
      visited := visited + {m};
      if m !in modules {
        return;
      }
      ReachesItself(modules, m);
      var dependencies := modules[m];
      var i := 0;
      while i < |dependencies|
        invariant 0 <= i <= |dependencies|
        invariant Walking(modules, visited, order)
        invariant Advances(modules, m, old(visited) + {m}, old(order), visited, order)
        invariant m in visited && m !in order
        invariant forall j :: 0 <= j < i && Node(modules, dependencies[j]) ==> dependencies[j] in visited
      {
        ghost var v0, o0 := visited, order;
        var d := dependencies[i];
        assert d in modules[m];
        OpenStill(modules, old(visited), old(order), visited, order, m);
        if Node(modules, d) { OpenFurther(modules, visited, order, m, d); }
        Visit(d);
        AdvancesOn(modules, m, d, old(visited) + {m}, old(order), v0, o0, visited, order);
        i := i + 1;
      }
      OpenStill(modules, old(visited), old(order), visited, order, m);
      FinishModule(modules, visited, order, m);
      order := order + [m];
    }

    /** The modules to lower, from the entry. */
    method Lower(entry: Option<ModuleId>, semantics: set<ModuleId>) returns (ordered: seq<ModuleId>)
      requires visited == {} && order == []
      modifies this
      ensures Distinct(ordered)
      ensures forall m :: m in ordered <==> m in semantics && entry.Some? && exists p :: Leads(modules, p, entry.value, m)
      ensures forall u, v :: u in ordered && v in ordered && Edge(modules, u, v) ==> Before(ordered, v, u) || Reaches(modules, v, u)
    {
      if entry.None? { return []; }
      Visit(entry.value);
      ordered := Kept(order, semantics);
      KeptMeaning(order, semantics);
      forall m | Node(modules, entry.value) ensures m in order <==> Reaches(modules, entry.value, m) {
        if Reaches(modules, entry.value, m) { ClosedUnderReach(modules, visited, order, entry.value, m); }
      }
      forall m ensures m in order <==> exists p :: Leads(modules, p, entry.value, m) {
        ReachesMeaning(modules, entry.value, m);
        if !Node(modules, entry.value) && Reaches(modules, entry.value, m) { StartsAtNode(modules, entry.value, m); }
      }
      hide Leads, Reaches;
      forall u, v | u in ordered && v in ordered && Edge(modules, u, v) ensures Before(ordered, v, u) || Reaches(modules, v, u) {
        if Before(order, v, u) { KeptBefore(order, semantics, v, u); }
      }
    }
  }

  /** After some more of the walk below `m`, the modules being visited are those from before and `m`. */
  lemma OpenStill(g: Graph, visited: set<ModuleId>, order: seq<ModuleId>, visited': set<ModuleId>, order': seq<ModuleId>, m: ModuleId)
    requires Node(g, m) && OpenReach(g, visited, order, m) && Advances(g, m, visited + {m}, order, visited', order')
    ensures OpenReach(g, visited', order', m)
  {
    ReachesItself(g, m);
    forall u | u in visited' && Node(g, u) && u !in order' ensures Reaches(g, u, m) {
      assert u !in order by { assert order == order'[..|order|]; }
    }
  }

  lemma OpenFurther(g: Graph, visited: set<ModuleId>, order: seq<ModuleId>, m: ModuleId, d: ModuleId)
    requires OpenReach(g, visited, order, m) && Edge(g, m, d)
    ensures OpenReach(g, visited, order, d)
  {
    forall u | u in visited && Node(g, u) && u !in order ensures Reaches(g, u, d) { ReachesFurther(g, u, m, d); }
  }

  lemma AdvancesOn(g: Graph, m: ModuleId, d: ModuleId, v0: set<ModuleId>, o0: seq<ModuleId>, v1: set<ModuleId>, o1: seq<ModuleId>, v2: set<ModuleId>, o2: seq<ModuleId>)
    requires Node(g, m) && d in g[m] && Advances(g, m, v0, o0, v1, o1) && Advances(g, d, v1, o1, v2, o2)
    ensures Advances(g, m, v0, o0, v2, o2)
  {
    ReachesItself(g, m);
    forall u | u in v2 && u !in v0 && Node(g, u) ensures Reaches(g, m, u) && u in o2 {
      if u !in v1 {
        StartsAtNode(g, d, u);
        ReachesFurther(g, m, m, d);
        ReachesTransitively(g, m, d, u);
      }
    }
  }

  lemma StartsAtNode(g: Graph, d: ModuleId, u: ModuleId)
    requires Reaches(g, d, u)
    ensures Node(g, d)
  {
    var p :| PathBetween(g, p, d, u);
  }

  /** When nothing is being visited any more, everything reachable has been finished. */
  lemma ClosedUnderReach(g: Graph, visited: set<ModuleId>, order: seq<ModuleId>, m: ModuleId, u: ModuleId)
    requires Walking(g, visited, order) && (forall x :: x in visited && Node(g, x) ==> x in order)
    requires m in order && Reaches(g, m, u)
    ensures u in order
  {
    var p :| PathBetween(g, p, m, u);
    AlongPath(g, visited, order, p, |p| - 1);
  }

  lemma {:induction false} AlongPath(g: Graph, visited: set<ModuleId>, order: seq<ModuleId>, p: seq<ModuleId>, i: nat)
    requires Walking(g, visited, order) && (forall x :: x in visited && Node(g, x) ==> x in order)
    requires Path(g, p) && p[0] in order && i < |p|
    ensures p[i] in order
  {
    if i > 0 {
      AlongPath(g, visited, order, p, i - 1);
      assert Edge(g, p[i - 1], p[i]);
    }
  }
}
