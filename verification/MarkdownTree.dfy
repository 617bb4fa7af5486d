/** Rendered markdown: the check that bounds a token tree before it is rendered, and the
    flattening of the rendered tree to a table whose rows refer to one another by index. */
module MarkdownTree {
  import opened Options

  // ---------------------------------------------------------------- flattening a tree

  datatype Kind = KindText | KindElement | KindFragment
  datatype Attr = Attr(name: string, value: string)

  /** A rendered node; what is absent stands for nothing. */
  datatype TreeNode = TreeNode(kind: Kind, tag: Option<string>, value: Option<string>, attrs: Option<seq<Attr>>, children: seq<TreeNode>)

  datatype Row = Row(kind: Kind, tag: string, value: string, attrs: seq<Attr>, children: seq<nat>)

  const PLACEHOLDER := Row(KindText, "", "", [], [])

  function OrElse<T>(o: Option<T>, default: T): T {
    if o.Some? then o.value else default
  }

  /** The tree with everything absent filled in. */
  function Filled(node: TreeNode): TreeNode {
    TreeNode(node.kind, Some(OrElse(node.tag, "")), Some(OrElse(node.value, "")), Some(OrElse(node.attrs, [])), AllFilled(node.children))
  }

  function AllFilled(nodes: seq<TreeNode>): seq<TreeNode> {
    if nodes == [] then [] else [Filled(nodes[0])] + AllFilled(nodes[1..])
  }

  function Size(node: TreeNode): (n: nat)
    ensures n >= 1
  {
    1 + SizeAll(node.children)
  }

  function SizeAll(nodes: seq<TreeNode>): nat {
    if nodes == [] then 0 else Size(nodes[0]) + SizeAll(nodes[1..])
  }

  /** The indices of `nodes` when the first of them is put at `base`. */
  function Indices(nodes: seq<TreeNode>, base: nat): seq<nat> {
    if nodes == [] then [] else [base] + Indices(nodes[1..], base + Size(nodes[0]))
  }

  /** The rows of the tree when its root is put at `base`: the root, then its children in order. */
  function Rows(node: TreeNode, base: nat): (rows: seq<Row>)
    ensures |rows| == Size(node)
    decreases node
  {
    [Row(node.kind, OrElse(node.tag, ""), OrElse(node.value, ""), OrElse(node.attrs, []), Indices(node.children, base + 1))]
    + RowsAll(node.children, base + 1)
  }

  function RowsAll(nodes: seq<TreeNode>, base: nat): (rows: seq<Row>)
    ensures |rows| == SizeAll(nodes)
    decreases nodes
  {
    if nodes == [] then [] else Rows(nodes[0], base) + RowsAll(nodes[1..], base + Size(nodes[0]))
  }

  lemma RowsAllFirst(nodes: seq<TreeNode>, base: nat)
    requires nodes != []
    ensures RowsAll(nodes, base) == Rows(nodes[0], base) + RowsAll(nodes[1..], base + Size(nodes[0]))
  {
  }

  lemma Regroup<T>(a: seq<T>, b: seq<T>, c: seq<T>)
    ensures (a + b) + c == a + (b + c)
  {
  }

  /** The table under construction. */
  class TreeFlattener {
    var nodes: seq<Row>

    constructor ()
      ensures nodes == []
    {
      nodes := [];
    }

    /** Appends the rows of a tree; its own row is written once its children have their indices. */
    method Visit(node: TreeNode) returns (index: nat)
      modifies this
      ensures index == |old(nodes)| && nodes == old(nodes) + Rows(node, index)
      decreases node, 1
    {
      index := |nodes|;
      nodes := nodes + [PLACEHOLDER];
      var children := VisitAll(node.children);
      nodes := nodes[index := Row(node.kind, OrElse(node.tag, ""), OrElse(node.value, ""), OrElse(node.attrs, []), children)];
      assert nodes == old(nodes) + [nodes[index]] + RowsAll(node.children, index + 1);
    }

    method VisitAll(children: seq<TreeNode>) returns (indices: seq<nat>)
      modifies this
      ensures indices == Indices(children, |old(nodes)|) && nodes == old(nodes) + RowsAll(children, |old(nodes)|)
      decreases children, 0
    {
      if children == [] { return []; }
      RowsAllFirst(children, |nodes|);
      hide Rows, RowsAll;
      ghost var before := nodes;
      var first := Visit(children[0]);
      var rest := VisitAll(children[1..]);
      indices := [first] + rest;
      Regroup(before, Rows(children[0], |before|), RowsAll(children[1..], |before| + Size(children[0])));
    }

    method Flatten(root: TreeNode) returns (index: nat)
      requires nodes == []
      modifies this
      ensures index == 0 && nodes == Rows(root, 0)
    {
      index := Visit(root);
    }
  }

  // ---------------------------------------------------------------- what the table means

  ghost predicate Between(q: seq<nat>, low: nat, high: nat) {
    forall j :: 0 <= j < |q| ==> low <= q[j] < high
  }

  /** Children come after their parent. */
  ghost predicate Forward(rows: seq<Row>) {
    forall i {:trigger rows[i]} :: 0 <= i < |rows| ==> Between(rows[i].children, i + 1, |rows|)
  }

  /** The tree that the table describes from row `i` on. */
  function Rebuild(rows: seq<Row>, i: nat): TreeNode
    requires Forward(rows) && i < |rows|
    decreases |rows| - i, 1, 0
  {
    var row := rows[i];
    TreeNode(row.kind, Some(row.tag), Some(row.value), Some(row.attrs), RebuildAll(rows, i, row.children))
  }

  function RebuildAll(rows: seq<Row>, i: nat, children: seq<nat>): seq<TreeNode>
    requires Forward(rows) && i < |rows| && Between(children, i + 1, |rows|)
    decreases |rows| - i, 0, |children|
  {
    if children == [] then [] else [Rebuild(rows, children[0])] + RebuildAll(rows, i, children[1..])
  }

  /** The rows of `node` stand in `rows` from `base` on. */
  ghost predicate Holds(rows: seq<Row>, node: TreeNode, base: nat) {
    base + Size(node) <= |rows| && rows[base..base + Size(node)] == Rows(node, base)
  }

  ghost predicate HoldsAll(rows: seq<Row>, nodes: seq<TreeNode>, base: nat) {
    base + SizeAll(nodes) <= |rows| && rows[base..base + SizeAll(nodes)] == RowsAll(nodes, base)
  }

  lemma HoldsParts(rows: seq<Row>, node: TreeNode, base: nat)
    requires Holds(rows, node, base)
    ensures rows[base] == Rows(node, base)[0] && HoldsAll(rows, node.children, base + 1)
  {
    var all := Rows(node, base);
    assert rows[base] == rows[base..base + Size(node)][0];
    assert rows[base + 1..base + Size(node)] == all[1..];
  }

  lemma HoldsEach(rows: seq<Row>, nodes: seq<TreeNode>, base: nat)
    requires nodes != [] && HoldsAll(rows, nodes, base)
    ensures Holds(rows, nodes[0], base) && HoldsAll(rows, nodes[1..], base + Size(nodes[0]))
  {
    var n := Size(nodes[0]);
    var all := RowsAll(nodes, base);
    assert rows[base..base + n] == all[..n];
    assert rows[base + n..base + SizeAll(nodes)] == all[n..];
  }

  lemma {:induction false} IndicesInRange(nodes: seq<TreeNode>, base: nat)
    ensures Between(Indices(nodes, base), base, base + SizeAll(nodes))
  {
    if nodes != [] { IndicesInRange(nodes[1..], base + Size(nodes[0])); }
  }

  /** Rebuilding undoes flattening, wherever the rows stand. */
  lemma {:induction false} RebuildsNode(rows: seq<Row>, node: TreeNode, base: nat)
    requires Forward(rows) && Holds(rows, node, base)
    ensures Rebuild(rows, base) == Filled(node)
    decreases node, 1
  {
    HoldsParts(rows, node, base);
    IndicesInRange(node.children, base + 1);
    RebuildsAll(rows, base, node.children, base + 1);
  }

  lemma {:induction false} RebuildsAll(rows: seq<Row>, i: nat, nodes: seq<TreeNode>, base: nat)
    requires Forward(rows) && i < base && i < |rows| && HoldsAll(rows, nodes, base)
    ensures Between(Indices(nodes, base), i + 1, |rows|)
    ensures RebuildAll(rows, i, Indices(nodes, base)) == AllFilled(nodes)
    decreases nodes, 0
  {
    IndicesInRange(nodes, base);
    if nodes != [] {
      HoldsEach(rows, nodes, base);
      RebuildsNode(rows, nodes[0], base);
      assert Indices(nodes, base)[1..] == Indices(nodes[1..], base + Size(nodes[0]));
      RebuildsAll(rows, i, nodes[1..], base + Size(nodes[0]));
    }
  }

  /** How often row `c` is a child of the rows. */
  function Parents(rows: seq<Row>, c: nat): nat {
    if rows == [] then 0 else Occurrences(rows[0].children, c) + Parents(rows[1..], c)
  }

  function Occurrences(q: seq<nat>, c: nat): nat {
    if q == [] then 0 else (if q[0] == c then 1 else 0) + Occurrences(q[1..], c)
  }

  lemma {:induction false} ParentsConcat(a: seq<Row>, b: seq<Row>, c: nat)
    ensures Parents(a + b, c) == Parents(a, c) + Parents(b, c)
  {
    if a == [] {
      assert a + b == b;
    } else {
      assert (a + b)[1..] == a[1..] + b;
      ParentsConcat(a[1..], b, c);
    }
  }

  /** Within the rows of a tree, every row but the root is the child of exactly one row, and no
      other index occurs. */
  lemma {:induction false} OneParent(node: TreeNode, base: nat, c: nat)
    ensures Parents(Rows(node, base), c) == if base < c < base + Size(node) then 1 else 0
    decreases node, 1
  {
    var rows := Rows(node, base);
    assert rows[1..] == RowsAll(node.children, base + 1);
    OneParentOrRoot(node.children, base + 1, c);
  }

  lemma {:induction false} OneParentOrRoot(nodes: seq<TreeNode>, base: nat, c: nat)
    ensures Occurrences(Indices(nodes, base), c) + Parents(RowsAll(nodes, base), c) == if base <= c < base + SizeAll(nodes) then 1 else 0
    decreases nodes, 0
  {
    if nodes != [] {
      var n := Size(nodes[0]);
      OneParent(nodes[0], base, c);
      OneParentOrRoot(nodes[1..], base + n, c);
      ParentsConcat(Rows(nodes[0], base), RowsAll(nodes[1..], base + n), c);
      assert Indices(nodes, base)[1..] == Indices(nodes[1..], base + n);
    }
  }

  /** Children come after their parent and within the tree's own rows. */
  ghost predicate ForwardFrom(rows: seq<Row>, base: nat, end: nat) {
    forall i {:trigger rows[i]} :: 0 <= i < |rows| ==> Between(rows[i].children, base + i + 1, end)
  }

  lemma {:induction false} RowsForward(node: TreeNode, base: nat)
    ensures ForwardFrom(Rows(node, base), base, base + Size(node))
    decreases node, 1
  {
    IndicesInRange(node.children, base + 1);
    AllRowsForward(node.children, base + 1);
    var rows, rest := Rows(node, base), RowsAll(node.children, base + 1);
    forall i | 0 <= i < |rows| ensures Between(rows[i].children, base + i + 1, base + Size(node)) {
      if i > 0 { assert rows[i] == rest[i - 1]; }
    }
  }

  lemma {:induction false} AllRowsForward(nodes: seq<TreeNode>, base: nat)
    ensures ForwardFrom(RowsAll(nodes, base), base, base + SizeAll(nodes))
    decreases nodes, 0
  {
    if nodes != [] {
      var n := Size(nodes[0]);
      RowsForward(nodes[0], base);
      AllRowsForward(nodes[1..], base + n);
      var rows, first, rest := RowsAll(nodes, base), Rows(nodes[0], base), RowsAll(nodes[1..], base + n);
      forall i | 0 <= i < |rows| ensures Between(rows[i].children, base + i + 1, base + SizeAll(nodes)) {
        if i < n { assert rows[i] == first[i]; } else { assert rows[i] == rest[i - n]; }
      }
    }
  }

  /** Flattening is undone by rebuilding from the root, and the table is a tree: children come
      after their parents, and every row but the root is the child of exactly one row. */
  lemma FlatteningIsUndone(root: TreeNode, c: nat)
    ensures var rows := Rows(root, 0);
            && |rows| == Size(root) && Forward(rows) && Rebuild(rows, 0) == Filled(root)
            && (c < |rows| ==> Parents(rows, c) == if c == 0 then 0 else 1)
  {
    var rows := Rows(root, 0);
    RowsForward(root, 0);
    assert rows[0..0 + Size(root)] == rows;
    RebuildsNode(rows, root, 0);
    OneParent(root, 0, c);
  }

  // ---------------------------------------------------------------- bounding the token tree

  const MAX_TOKEN_DEPTH: nat := 64
  const MAX_TOKEN_COUNT: nat := 50_000

  /** A token with the lists of tokens below it; an absent list is empty. */
  datatype Token = Token(tokens: seq<Token>, items: seq<Token>, header: seq<Token>, rows: seq<TableRow>)
  datatype TableRow = TableRow(cells: seq<Token>)

  datatype BudgetError = TooDeep | TooMany

  datatype Pending = Pending(token: Token, depth: nat)

  function Flat(rows: seq<TableRow>): seq<Token> {
    if rows == [] then [] else rows[0].cells + Flat(rows[1..])
  }

  lemma {:induction false} FlatFrom(rows: seq<TableRow>, k: nat) returns (i: nat, j: nat)
    requires k < |Flat(rows)|
    ensures i < |rows| && j < |rows[i].cells| && Flat(rows)[k] == rows[i].cells[j]
  {
    if k < |rows[0].cells| {
      i, j := 0, k;
    } else {
      i, j := FlatFrom(rows[1..], k - |rows[0].cells|);
      i := i + 1;
    }
  }

  /** Every token of `ts` is a proper part of `bound`. */
  ghost predicate Parts(ts: seq<Token>, bound: Token) {
    forall i {:trigger ts[i]} :: 0 <= i < |ts| ==> ts[i] < bound
  }

  lemma CellsAreParts(t: Token)
    ensures Parts(Flat(t.rows), t)
  {
    forall k | 0 <= k < |Flat(t.rows)| ensures Flat(t.rows)[k] < t {
      var i, j := FlatFrom(t.rows, k);
      assert t.rows[i] < t;
    }
  }

  function Nested(t: Token): (r: seq<Token>)
    ensures Parts(r, t)
  {
    CellsAreParts(t);
    t.tokens + t.items + t.header + Flat(t.rows)
  }

  /** The number of tokens of a tree. */
  function Count(t: Token): (n: nat)
    ensures n >= 1
    decreases t, 1, 0
  {
    1 + CountBelow(Nested(t), t)
  }

  function CountBelow(ts: seq<Token>, bound: Token): nat
    requires Parts(ts, bound)
    decreases bound, 0, |ts|
  {
    if ts == [] then 0 else Count(ts[0]) + CountBelow(ts[1..], bound)
  }

  function Height(t: Token): (n: nat)
    ensures n >= 1
    decreases t, 1, 0
  {
    1 + HeightBelow(Nested(t), t)
  }

  function HeightBelow(ts: seq<Token>, bound: Token): nat
    requires Parts(ts, bound)
    decreases bound, 0, |ts|
  {
    if ts == [] then 0
    else
      var rest := HeightBelow(ts[1..], bound);
      if Height(ts[0]) > rest then Height(ts[0]) else rest
  }

  function TotalCount(pending: seq<Pending>): nat {
    if pending == [] then 0 else TotalCount(pending[..|pending| - 1]) + Count(pending[|pending| - 1].token)
  }

  /** No pending tree reaches below the allowed depth. */
  predicate Shallow(pending: seq<Pending>) {
    forall p :: p in pending ==> p.depth - 1 + Height(p.token) <= MAX_TOKEN_DEPTH
  }

  function AtDepth(ts: seq<Token>, depth: nat): (r: seq<Pending>)
    ensures |r| == |ts|
  {
    seq(|ts|, i requires 0 <= i < |ts| => Pending(ts[i], depth))
  }

  lemma {:induction false} TotalConcat(a: seq<Pending>, b: seq<Pending>)
    ensures TotalCount(a + b) == TotalCount(a) + TotalCount(b)
    decreases |b|
  {
    if b == [] {
      assert a + b == a;
    } else {
      assert (a + b)[..|a + b| - 1] == a + b[..|b| - 1];
      TotalConcat(a, b[..|b| - 1]);
    }
  }

  lemma {:induction false} NestedCount(ts: seq<Token>, bound: Token, depth: nat)
    requires Parts(ts, bound)
    ensures TotalCount(AtDepth(ts, depth)) == CountBelow(ts, bound)
    decreases |ts|
  {
    if ts != [] {
      NestedCount(ts[1..], bound, depth);
      var one := AtDepth([ts[0]], depth);
      assert AtDepth(ts, depth) == one + AtDepth(ts[1..], depth);
      TotalConcat(one, AtDepth(ts[1..], depth));
      assert one[..0] == [];
      assert TotalCount(one) == TotalCount(one[..0]) + Count(ts[0]);
    }
  }

  lemma {:induction false} NestedHeight(ts: seq<Token>, bound: Token, depth: nat)
    requires Parts(ts, bound) && depth >= 1
    ensures ts != [] ==> (Shallow(AtDepth(ts, depth)) <==> depth - 1 + HeightBelow(ts, bound) <= MAX_TOKEN_DEPTH)
    decreases |ts|
  {
    if ts != [] {
      NestedHeight(ts[1..], bound, depth);
      var all, rest := AtDepth(ts, depth), AtDepth(ts[1..], depth);
      assert all[0] in all && all == [all[0]] + rest;
      assert forall p :: p in all <==> p == all[0] || p in rest;
    }
  }

  lemma ExpandsCount(front: seq<Pending>, last: Pending)
    ensures TotalCount(front + AtDepth(Nested(last.token), last.depth + 1)) + 1 == TotalCount(front + [last])
  {
    var below := Nested(last.token);
    NestedCount(below, last.token, last.depth + 1);
    TotalConcat(front, AtDepth(below, last.depth + 1));
    assert (front + [last])[..|front|] == front;
  }

  /** Replacing a pending token by what is below it counts one token, and keeps the trees as deep. */
  lemma Expands(front: seq<Pending>, last: Pending)
    requires last.depth >= 1
    ensures var nested := AtDepth(Nested(last.token), last.depth + 1);
            && TotalCount(front + nested) + 1 == TotalCount(front + [last])
            && (last.depth <= MAX_TOKEN_DEPTH ==> (Shallow(front + nested) <==> Shallow(front + [last])))
            && (last.depth > MAX_TOKEN_DEPTH ==> !Shallow(front + [last]))
  {
    hide TotalCount, Nested, Count, HeightBelow;
    ExpandsCount(front, last);
    assert last in front + [last];
    if last.depth <= MAX_TOKEN_DEPTH {
      ExpandsShallow(last);
      ShallowSplit(front, [last], AtDepth(Nested(last.token), last.depth + 1));
    }
  }

  lemma ExpandsShallow(last: Pending)
    requires 1 <= last.depth <= MAX_TOKEN_DEPTH
    ensures Shallow(AtDepth(Nested(last.token), last.depth + 1)) <==> Shallow([last])
  {
    var below := Nested(last.token);
    NestedHeight(below, last.token, last.depth + 1);
    assert last in [last];
    assert Height(last.token) == 1 + HeightBelow(below, last.token);
    assert Shallow([last]) <==> last.depth - 1 + Height(last.token) <= MAX_TOKEN_DEPTH;
    if below == [] { assert AtDepth(below, last.depth + 1) == []; }
  }

  lemma ShallowSplit(a: seq<Pending>, b: seq<Pending>, c: seq<Pending>)
    requires Shallow(b) <==> Shallow(c)
    ensures Shallow(a + b) <==> Shallow(a + c)
  {
    assert forall p :: p in a + b <==> p in a || p in b;
    assert forall p :: p in a + c <==> p in a || p in c;
  }

  lemma Leftover(pending: seq<Pending>)
    ensures pending == [] ==> TotalCount(pending) == 0 && Shallow(pending)
    ensures pending != [] ==> TotalCount(pending) > 0
  {
  }

  // What the bounds mean.

  /** `c` stands directly below `t`: in one of its lists or in a cell of its table. */
  ghost predicate Below(c: Token, t: Token) {
    c in t.tokens || c in t.items || c in t.header || exists i :: 0 <= i < |t.rows| && c in t.rows[i].cells
  }

  /** Tokens of which each stands directly below the one before it. */
  ghost predicate Chain(p: seq<Token>) {
    forall i :: 0 <= i < |p| - 1 ==> Below(p[i + 1], p[i])
  }

  /** Some token of `ts` has a chain of `n` tokens. */
  ghost predicate HasChain(ts: seq<Token>, n: nat) {
    exists p :: ChainFrom(ts, p, n)
  }

  ghost predicate ChainFrom(ts: seq<Token>, p: seq<Token>, n: nat) {
    |p| == n && n > 0 && p[0] in ts && Chain(p)
  }

  lemma {:induction false} FlatHas(rows: seq<TableRow>, c: Token)
    ensures c in Flat(rows) <==> exists i :: 0 <= i < |rows| && c in rows[i].cells
  {
    if rows != [] {
      FlatHas(rows[1..], c);
      assert rows == [rows[0]] + rows[1..];
    }
  }

  lemma NestedHas(t: Token, c: Token)
    ensures c in Nested(t) <==> Below(c, t)
  {
    FlatHas(t.rows, c);
  }

  /** A tree is as high as its longest chain. */
  lemma {:induction false} HeightBounds(t: Token, p: seq<Token>)
    requires p != [] && p[0] == t && Chain(p)
    ensures |p| <= Height(t)
    decreases |p|
  {
    if |p| > 1 {
      NestedHas(t, p[1]);
      forall i | 0 <= i < |p[1..]| - 1 ensures Below(p[1..][i + 1], p[1..][i]) { assert Below(p[(i + 1) + 1], p[i + 1]); }
      HeightBounds(p[1], p[1..]);
      HighestBelow(Nested(t), t, p[1]);
    }
  }

  lemma {:induction false} HighestBelow(ts: seq<Token>, bound: Token, c: Token)
    requires Parts(ts, bound) && c in ts
    ensures Height(c) <= HeightBelow(ts, bound)
    decreases |ts|
  {
    if c != ts[0] { HighestBelow(ts[1..], bound, c); }
  }

  lemma {:induction false} HeightReached(t: Token, n: nat) returns (p: seq<Token>)
    requires 1 <= n <= Height(t)
    ensures |p| == n && p[0] == t && Chain(p)
    decreases n
  {
    if n == 1 {
      p := [t];
    } else {
      var c := SomeHigh(Nested(t), t, n - 1);
      var q := HeightReached(c, n - 1);
      NestedHas(t, c);
      p := [t] + q;
    }
  }

  lemma {:induction false} SomeHigh(ts: seq<Token>, bound: Token, n: nat) returns (c: Token)
    requires Parts(ts, bound) && 1 <= n <= HeightBelow(ts, bound)
    ensures c in ts && Height(c) >= n
    decreases |ts|
  {
    if Height(ts[0]) >= n {
      c := ts[0];
    } else {
      c := SomeHigh(ts[1..], bound, n);
    }
  }

  /** No token is deeper than 64 levels if and only if no chain is longer. */
  lemma ShallowIff(tokens: seq<Token>)
    ensures Shallow(AtDepth(tokens, 1)) <==> !HasChain(tokens, 65)
  {
    var pending := AtDepth(tokens, 1);
    if p :| ChainFrom(tokens, p, 65) {
      HeightBounds(p[0], p);
      var i :| 0 <= i < |tokens| && tokens[i] == p[0];
      assert pending[i] in pending && pending[i] == Pending(p[0], 1);
    }
    if !Shallow(pending) {
      var x :| x in pending && x.depth - 1 + Height(x.token) > 64;
      var p := HeightReached(x.token, 65);
      assert ChainFrom(tokens, p, 65);
    }
  }

  /** The number of tokens in `ts` and below. */
  function Tokens(ts: seq<Token>): nat {
    if ts == [] then 0 else Count(ts[0]) + Tokens(ts[1..])
  }

  function TokensInRows(rows: seq<TableRow>): nat {
    if rows == [] then 0 else Tokens(rows[0].cells) + TokensInRows(rows[1..])
  }

  lemma {:induction false} TokensConcat(a: seq<Token>, b: seq<Token>)
    ensures Tokens(a + b) == Tokens(a) + Tokens(b)
  {
    hide Count;
    if a == [] {
      assert a + b == b;
    } else {
      assert (a + b)[0] == a[0] && (a + b)[1..] == a[1..] + b;
      TokensConcat(a[1..], b);
    }
  }

  lemma {:induction false} TokensFlat(rows: seq<TableRow>)
    ensures Tokens(Flat(rows)) == TokensInRows(rows)
  {
    hide Count;
    if rows != [] {
      TokensConcat(rows[0].cells, Flat(rows[1..]));
      TokensFlat(rows[1..]);
    }
  }

  lemma {:induction false} TokensBelow(ts: seq<Token>, bound: Token)
    requires Parts(ts, bound)
    ensures CountBelow(ts, bound) == Tokens(ts)
    decreases |ts|
  {
    hide Count;
    if ts != [] { TokensBelow(ts[1..], bound); }
  }

  /** A tree has its root and the tokens in each of its lists and in its table. */
  lemma CountMeaning(t: Token)
    ensures Count(t) == 1 + Tokens(t.tokens) + Tokens(t.items) + Tokens(t.header) + TokensInRows(t.rows)
  {
    TokensBelow(Nested(t), t);
    TokensFlat(t.rows);
    TokensConcat(t.tokens + t.items + t.header, Flat(t.rows));
    TokensConcat(t.tokens + t.items, t.header);
    TokensConcat(t.tokens, t.items);
    assert Count(t) == 1 + CountBelow(Nested(t), t);
    hide Tokens, TokensInRows, CountBelow;
  }

  lemma {:induction false} TotalIs(tokens: seq<Token>)
    ensures TotalCount(AtDepth(tokens, 1)) == Tokens(tokens)
  {
    hide Count;
    if tokens != [] {
      var one, rest := AtDepth([tokens[0]], 1), AtDepth(tokens[1..], 1);
      assert AtDepth(tokens, 1) == one + rest;
      TotalConcat(one, rest);
      assert one[..0] == [] && TotalCount(one) == TotalCount(one[..0]) + Count(tokens[0]);
      TotalIs(tokens[1..]);
    }
  }

  /** Accepts a document exactly when it has at most 50000 tokens and no chain of more than 64 tokens
      below one another; the error names a bound that is exceeded. */
  method AssertTokenBudget(tokens: seq<Token>) returns (r: Result<(), BudgetError>)
    ensures r.Ok? <==> Tokens(tokens) <= 50000 && !HasChain(tokens, 65)
    ensures r == Err(TooDeep) ==> HasChain(tokens, 65)
    ensures r == Err(TooMany) ==> Tokens(tokens) > 50000
  {
    hide TotalCount, Shallow, Nested, Count, Height, HasChain, Tokens;
    ShallowIff(tokens);
    TotalIs(tokens);
    var pending := AtDepth(tokens, 1);
    ghost var all := pending;
    var count := 0;
    Leftover(pending);
    while pending != []
      invariant forall i :: 0 <= i < |pending| ==> pending[i].depth >= 1
      invariant 0 <= count <= MAX_TOKEN_COUNT && count + TotalCount(pending) == TotalCount(all)
      invariant Shallow(all) <==> Shallow(pending)
      decreases TotalCount(pending)
    {
      var last := pending[|pending| - 1];
      var front := pending[..|pending| - 1];
      assert pending == front + [last];
      Expands(front, last);
      count := count + 1;
      if last.depth > MAX_TOKEN_DEPTH { return Err(TooDeep); }
      if count > MAX_TOKEN_COUNT { return Err(TooMany); }
      pending := front + AtDepth(Nested(last.token), last.depth + 1);
    }
    Leftover(pending);
    return Ok(());
  }
}
