/** A skeletal HTML reader: tags, double-quoted attributes and the character references that the
    server renderer emits, after section 13.2.5 of the WHATWG HTML Living Standard. A text is
    read into a tree without the repairs of full tree construction; a U+0000 is replaced in attribute
    values (section 13.2.5.36) and textareas, and ignored in other text (section 13.2.6.4.7). */
module HtmlReader {
  import opened Options

  datatype Attr = Attr(name: string, value: string)
  datatype Token = StartTag(name: string, attrs: seq<Attr>) | EndTag(name: string) | Char(c: char)
  datatype Node = TextNode(value: string) | Element(tag: string, attrs: seq<Attr>, children: seq<Node>)

  const VOID_TAGS := {"area", "base", "br", "col", "embed", "hr", "img", "input", "link", "meta", "param", "source", "track", "wbr"}
  const NEWLINE_STRIPPING_TAGS := {"listing", "pre", "textarea"}

  /** Where a U+0000 in the text is replaced; in other text it is dropped. */
  const REPLACING_TAGS := {"textarea", "title"}

  function Filled(s: string): (r: string)
    ensures '\0' !in r && ('\0' !in s ==> r == s)
  {
    if s == "" then "" else [FilledChar(s[0])] + Filled(s[1..])
  }

  function FilledChar(c: char): char {
    if c == '\0' then '\U{fffd}' else c
  }

  function Dropped(s: string): (r: string)
    ensures '\0' !in r && ('\0' !in s ==> r == s)
  {
    if s == "" then "" else (if s[0] == '\0' then "" else [s[0]]) + Dropped(s[1..])
  }

  /** What becomes of text in an element `tag`. */
  function Seen(s: string, tag: string): (r: string)
    ensures '\0' !in r && ('\0' !in s ==> r == s)
  {
    if tag in REPLACING_TAGS then Filled(s) else Dropped(s)
  }

  predicate StartsWith(s: string, p: string) {
    |p| <= |s| && s[..|p|] == p
  }

  // ---------------------------------------------------------------- tokens

  /** The character that `s`, which starts with an ampersand, stands for, and how much of `s` it takes. */
  function Reference(s: string): (r: (char, nat))
    requires s != ""
    ensures 1 <= r.1 <= |s| && r.0 != '\n'
  {
    if StartsWith(s, "&amp;") then ('&', 5)
    else if StartsWith(s, "&#13;") then ('\r', 5)
    else if StartsWith(s, "&lt;") then ('<', 4)
    else if StartsWith(s, "&gt;") then ('>', 4)
    else if StartsWith(s, "&quot;") then ('"', 6)
    else ('&', 1)
  }

  /** The name at the start of `s`, up to one of the characters that end it, and what follows. */
  function ReadName(s: string, stops: set<char>): (r: (string, string))
    ensures |r.1| <= |s|
  {
    if s == "" || s[0] in stops then ("", s)
    else
      var (name, rest) := ReadName(s[1..], stops);
      ([s[0]] + name, rest)
  }

  /** The attribute value up to the closing quote, and what follows the quote. */
  function ReadQuoted(s: string): (r: Option<(string, string)>)
    ensures r.Some? ==> |r.value.1| < |s|
    decreases |s|
  {
    if s == "" then None
    else if s[0] == '"' then Some(("", s[1..]))
    else
      var (c, n) := if s[0] == '&' then Reference(s) else (FilledChar(s[0]), 1);
      match ReadQuoted(s[n..])
      case None => None
      case Some((value, rest)) => Some(([c] + value, rest))
  }

  const TAG_STOPS := {' ', '>'}
  const ATTR_STOPS := {' ', '>', '='}

  /** The attributes of a tag and what follows its end. */
  function ReadAttrs(s: string): (r: Option<(seq<Attr>, string)>)
    ensures r.Some? ==> |r.value.1| < |s|
    decreases |s|
  {
    if s == "" then None
    else if s[0] == '>' then Some(([], s[1..]))
    else if s[0] != ' ' then None
    else
      var (name, rest) := ReadName(s[1..], ATTR_STOPS);
      if StartsWith(rest, "=\"") then
        match ReadQuoted(rest[2..])
        case None => None
        case Some((value, after)) =>
          (match ReadAttrs(after)
           case None => None
           case Some((attrs, end)) => Some(([Attr(name, value)] + attrs, end)))
      else
        match ReadAttrs(rest)
        case None => None
        case Some((attrs, end)) => Some(([Attr(name, "")] + attrs, end))
  }

  /** The tokens of `s`; reading stops at the first malformed tag. */
  function Tokenize(s: string): seq<Token>
    decreases |s|
  {
    if s == "" then []
    else if s[0] == '<' then
      if |s| > 1 && s[1] == '/' then
        var (name, rest) := ReadName(s[2..], TAG_STOPS);
        if rest != "" && rest[0] == '>' then [EndTag(name)] + Tokenize(rest[1..]) else []
      else
        var (name, rest) := ReadName(s[1..], TAG_STOPS);
        match ReadAttrs(rest)
        case None => []
        case Some((attrs, after)) => [StartTag(name, attrs)] + Tokenize(after)
    else if s[0] == '&' then
      var (c, n) := Reference(s);
      [Char(c)] + Tokenize(s[n..])
    else
      [Char(s[0])] + Tokenize(s[1..])
  }

  // ---------------------------------------------------------------- trees

  /** An element whose end tag has not been read yet. */
  datatype Open = Open(tag: string, attrs: seq<Attr>, children: seq<Node>)

  /** Adds a node; text next to text becomes one text node. */
  function Join(children: seq<Node>, node: Node): seq<Node> {
    if node.TextNode? && children != [] && children[|children| - 1].TextNode? then
      children[..|children| - 1] + [TextNode(children[|children| - 1].value + node.value)]
    else
      children + [node]
  }

  function JoinAll(children: seq<Node>, nodes: seq<Node>): seq<Node>
    decreases |nodes|
  {
    if nodes == [] then children else JoinAll(Join(children, nodes[0]), nodes[1..])
  }

  /** Builds the tree of `tokens` below the open elements `stack`, the innermost first. `skip`:
      a newline that comes next is dropped. */
  function Build(tokens: seq<Token>, stack: seq<Open>, skip: bool): seq<Node>
    requires stack != []
  {
    if tokens == [] then stack[|stack| - 1].children
    else
      var top, below, rest := stack[0], stack[1..], tokens[1..];
      match tokens[0]
      case Char(c) =>
        if skip && c == '\n' then Build(rest, stack, false)
        else if c == '\0' && top.tag !in REPLACING_TAGS then Build(rest, stack, false)
        else Build(rest, [top.(children := Join(top.children, TextNode([FilledChar(c)])))] + below, false)
      case StartTag(name, attrs) =>
        if name in VOID_TAGS then Build(rest, [top.(children := Join(top.children, Element(name, attrs, [])))] + below, false)
        else Build(rest, [Open(name, attrs, [])] + stack, name in NEWLINE_STRIPPING_TAGS)
      case EndTag(name) =>
        if below != [] && top.tag == name then
          var parent := below[0];
          Build(rest, [parent.(children := Join(parent.children, Element(top.tag, top.attrs, top.children)))] + below[1..], false)
        else Build(rest, stack, false)
  }

  function Read(s: string): seq<Node> {
    Build(Tokenize(s), [Open("", [], [])], false)
  }

  // ---------------------------------------------------------------- what reading does to what was written

  lemma {:induction false} ReadsName(name: string, rest: string, stops: set<char>)
    requires (forall c :: c in name ==> c !in stops) && rest != "" && rest[0] in stops
    ensures ReadName(name + rest, stops) == (name, rest)
  {
    if name == "" {
      assert name + rest == rest;
    } else {
      assert (name + rest)[0] == name[0] && (name + rest)[1..] == name[1..] + rest;
      ReadsName(name[1..], rest, stops);
      assert [name[0]] + name[1..] == name;
    }
  }

  lemma PrefixOf(p: string, rest: string)
    ensures StartsWith(p + rest, p) && (p + rest)[|p|..] == rest
  {
  }

  /** A newline is read first exactly when it stands first. */
  lemma NewlineFirst(s: string)
    ensures (Tokenize(s) != [] && Tokenize(s)[0] == Char('\n')) <==> (s != "" && s[0] == '\n')
  {
  }

  lemma {:induction false} JoinAllConcat(children: seq<Node>, a: seq<Node>, b: seq<Node>)
    ensures JoinAll(children, a + b) == JoinAll(JoinAll(children, a), b)
    decreases |a|
  {
    if a == [] {
      assert a + b == b;
    } else {
      assert (a + b)[0] == a[0] && (a + b)[1..] == a[1..] + b;
      JoinAllConcat(Join(children, a[0]), a[1..], b);
    }
  }

  /** No text node is empty or stands next to another. */
  ghost predicate Merged(nodes: seq<Node>) {
    && (forall i :: 0 <= i < |nodes| && nodes[i].TextNode? ==> nodes[i].value != "")
    && (forall i :: 0 <= i < |nodes| - 1 ==> !(nodes[i].TextNode? && nodes[i + 1].TextNode?))
  }

  /** Joining non-empty nodes leaves no text node empty or next to another, ... */
  lemma {:induction false} JoinAllMerges(children: seq<Node>, nodes: seq<Node>)
    requires Merged(children) && forall i :: 0 <= i < |nodes| && nodes[i].TextNode? ==> nodes[i].value != ""
    ensures Merged(JoinAll(children, nodes))
    decreases |nodes|
  {
    if nodes != [] {
      JoinMerged(children, nodes[0]);
      JoinAllMerges(Join(children, nodes[0]), nodes[1..]);
    }
  }

  /** ... and keeps all text ... */
  lemma {:induction false} JoinAllKeepsText(children: seq<Node>, nodes: seq<Node>)
    ensures TextOf(JoinAll(children, nodes)) == TextOf(children) + TextOf(nodes)
    decreases |nodes|
  {
    if nodes != [] {
      var first, rest := [nodes[0]], nodes[1..];
      JoinAllKeepsText(Join(children, nodes[0]), rest);
      JoinKeeps(children, nodes[0]);
      assert nodes == first + rest;
      TextOfConcat(first, rest);
      hide TextOf, Join;
      Associates(TextOf(children), TextOf(first), TextOf(rest));
    }
  }

  /** ... and all elements, in order. */
  lemma {:induction false} JoinAllKeepsElements(children: seq<Node>, nodes: seq<Node>)
    ensures ElementsOf(JoinAll(children, nodes)) == ElementsOf(children) + ElementsOf(nodes)
    decreases |nodes|
  {
    if nodes != [] {
      var first, rest := [nodes[0]], nodes[1..];
      JoinAllKeepsElements(Join(children, nodes[0]), rest);
      JoinKeeps(children, nodes[0]);
      assert nodes == first + rest;
      ElementsOfConcat(first, rest);
      hide ElementsOf, Join;
      Associates(ElementsOf(children), ElementsOf(first), ElementsOf(rest));
    }
  }

  lemma Associates<T>(a: seq<T>, b: seq<T>, c: seq<T>)
    ensures (a + b) + c == a + (b + c)
  {
  }

  /** The text directly among `nodes`. */
  function TextOf(nodes: seq<Node>): string {
    if nodes == [] then "" else (if nodes[0].TextNode? then nodes[0].value else "") + TextOf(nodes[1..])
  }

  function ElementsOf(nodes: seq<Node>): seq<Node> {
    if nodes == [] then [] else (if nodes[0].Element? then [nodes[0]] else []) + ElementsOf(nodes[1..])
  }

  lemma {:induction false} TextOfConcat(a: seq<Node>, b: seq<Node>)
    ensures TextOf(a + b) == TextOf(a) + TextOf(b)
  {
    if a == [] { assert a + b == b; } else {
      assert (a + b)[0] == a[0] && (a + b)[1..] == a[1..] + b;
      TextOfConcat(a[1..], b);
      Associates(if a[0].TextNode? then a[0].value else "", TextOf(a[1..]), TextOf(b));
    }
  }

  lemma {:induction false} ElementsOfConcat(a: seq<Node>, b: seq<Node>)
    ensures ElementsOf(a + b) == ElementsOf(a) + ElementsOf(b)
  {
    if a == [] { assert a + b == b; } else {
      assert (a + b)[0] == a[0] && (a + b)[1..] == a[1..] + b;
      ElementsOfConcat(a[1..], b);
      Associates(if a[0].Element? then [a[0]] else [], ElementsOf(a[1..]), ElementsOf(b));
    }
  }

  lemma JoinMerged(children: seq<Node>, node: Node)
    requires Merged(children) && (node.TextNode? ==> node.value != "")
    ensures Merged(Join(children, node))
  {
  }

  lemma TextOfOne(node: Node)
    ensures TextOf([node]) == if node.TextNode? then node.value else ""
    ensures ElementsOf([node]) == if node.Element? then [node] else []
  {
    assert [node][1..] == [];
  }

  lemma JoinKeeps(children: seq<Node>, node: Node)
    ensures TextOf(Join(children, node)) == TextOf(children) + TextOf([node])
    ensures ElementsOf(Join(children, node)) == ElementsOf(children) + ElementsOf([node])
  {
    hide TextOf, ElementsOf;
    if node.TextNode? && children != [] && children[|children| - 1].TextNode? {
      var front, last := children[..|children| - 1], children[|children| - 1];
      var joined := TextNode(last.value + node.value);
      assert children == front + [last] && Join(children, node) == front + [joined];
      hide Join;
      TextOfOne(joined);
      TextOfOne(last);
      TextOfOne(node);
      TextOfConcat(front, [last]);
      TextOfConcat(front, [joined]);
      ElementsOfConcat(front, [last]);
      ElementsOfConcat(front, [joined]);
      Associates(TextOf(front), TextOf([last]), TextOf([node]));
    } else {
      TextOfConcat(children, [node]);
      ElementsOfConcat(children, [node]);
    }
  }

  /** The node that text becomes, if anything of it is left. */
  function TextNodes(s: string): seq<Node> {
    if s == "" then [] else [TextNode(s)]
  }

  /** The characters of a text, read one by one, become one text node. */
  lemma {:induction false} BuildsText(value: string, rest: seq<Token>, top: Open, below: seq<Open>)
    ensures Build(Chars(value) + rest, [top] + below, false)
         == Build(rest, [top.(children := JoinAll(top.children, TextNodes(Seen(value, top.tag))))] + below, false)
    decreases |value|
  {
    if value == "" {
      assert Chars(value) + rest == rest;
    } else {
      var next := top.(children := JoinAll(top.children, TextNodes(Seen([value[0]], top.tag))));
      assert (Chars(value) + rest)[0] == Char(value[0]);
      assert (Chars(value) + rest)[1..] == Chars(value[1..]) + rest;
      assert ([top] + below)[0] == top && ([top] + below)[1..] == below;
      SeenFirst(value, top.tag);
      BuildsChar(value[0], Chars(value[1..]) + rest, top, below);
      BuildsText(value[1..], rest, next, below);
      hide Build, Seen, JoinAll, Chars;
      JoinTexts(top.children, Seen([value[0]], top.tag), Seen(value[1..], top.tag));
    }
  }

  lemma BuildsChar(c: char, rest: seq<Token>, top: Open, below: seq<Open>)
    ensures Build([Char(c)] + rest, [top] + below, false)
         == Build(rest, [top.(children := JoinAll(top.children, TextNodes(Seen([c], top.tag))))] + below, false)
  {
    var tokens, stack := [Char(c)] + rest, [top] + below;
    assert tokens[0] == Char(c) && tokens[1..] == rest && stack[0] == top && stack[1..] == below;
    assert [c][1..] == "" && Filled([c]) == [FilledChar(c)] && Dropped([c]) == if c == '\0' then "" else [c];
    JoinOne(top.children, TextNode([FilledChar(c)]));
    if c == '\0' && top.tag !in REPLACING_TAGS {
      assert top.(children := JoinAll(top.children, TextNodes(Seen([c], top.tag)))) == top;
      assert [top] + below == stack;
    } else {
      assert Seen([c], top.tag) == [FilledChar(c)];
    }
  }

  lemma JoinOne(children: seq<Node>, node: Node)
    ensures JoinAll(children, [node]) == Join(children, node)
  {
    assert [node][1..] == [];
  }

  lemma SeenFirst(value: string, tag: string)
    requires value != ""
    ensures Seen(value, tag) == Seen([value[0]], tag) + Seen(value[1..], tag)
  {
    assert [value[0]][1..] == "";
  }

  lemma JoinTexts(children: seq<Node>, a: string, b: string)
    ensures JoinAll(JoinAll(children, TextNodes(a)), TextNodes(b)) == JoinAll(children, TextNodes(a + b))
  {
    if a == "" {
      assert a + b == b;
    } else if b == "" {
      assert a + b == a;
    } else {
      JoinOne(children, TextNode(a));
      JoinOne(Join(children, TextNode(a)), TextNode(b));
      JoinOne(children, TextNode(a + b));
      JoinText(children, a, b);
    }
  }

  lemma JoinText(children: seq<Node>, a: string, b: string)
    ensures Join(Join(children, TextNode(a)), TextNode(b)) == Join(children, TextNode(a + b))
  {
    if children != [] && children[|children| - 1].TextNode? {
      var last := children[|children| - 1].value;
      assert (last + a) + b == last + (a + b);
    }
  }

  function Chars(s: string): (r: seq<Token>)
    ensures |r| == |s|
  {
    seq(|s|, i requires 0 <= i < |s| => Char(s[i]))
  }

  // ---------------------------------------------------------------- trees without U+0000

  predicate CleanNode(node: Node) {
    match node
    case TextNode(value) => '\0' !in value
    case Element(_, attrs, children) => CleanAttrs(attrs) && Clean(children)
  }

  predicate CleanAttrs(attrs: seq<Attr>) {
    forall i :: 0 <= i < |attrs| ==> '\0' !in attrs[i].value
  }

  predicate Clean(nodes: seq<Node>) {
    forall i :: 0 <= i < |nodes| ==> CleanNode(nodes[i])
  }

  lemma CleanOne(node: Node)
    ensures Clean([node]) <==> CleanNode(node)
  {
    assert [node][0] == node;
  }

  lemma CleanConcat(a: seq<Node>, b: seq<Node>)
    ensures Clean(a + b) <==> Clean(a) && Clean(b)
  {
    forall i | 0 <= i < |a| && Clean(a + b) ensures CleanNode(a[i]) { assert (a + b)[i] == a[i]; }
    forall i | 0 <= i < |b| && Clean(a + b) ensures CleanNode(b[i]) { assert (a + b)[|a| + i] == b[i]; }
  }

  lemma JoinClean(children: seq<Node>, node: Node)
    ensures Clean(Join(children, node)) <==> Clean(children) && CleanNode(node)
  {
    if node.TextNode? && children != [] && children[|children| - 1].TextNode? {
      var front, last := children[..|children| - 1], children[|children| - 1];
      assert children == front + [last];
      CleanConcat(front, [last]);
      CleanConcat(front, [TextNode(last.value + node.value)]);
      CleanOne(last);
      CleanOne(TextNode(last.value + node.value));
    } else {
      CleanConcat(children, [node]);
      CleanOne(node);
    }
  }

  lemma {:induction false} JoinAllClean(children: seq<Node>, nodes: seq<Node>)
    ensures Clean(JoinAll(children, nodes)) <==> Clean(children) && Clean(nodes)
    decreases |nodes|
  {
    if nodes != [] {
      JoinAllClean(Join(children, nodes[0]), nodes[1..]);
      JoinClean(children, nodes[0]);
      assert nodes == [nodes[0]] + nodes[1..];
      CleanConcat([nodes[0]], nodes[1..]);
      CleanOne(nodes[0]);
    }
  }

  /** Where nothing is dropped, it does not matter whether a newline would be. */
  lemma NothingSkipped(tokens: seq<Token>, stack: seq<Open>)
    requires stack != [] && tokens != [] && tokens[0] != Char('\n')
    ensures Build(tokens, stack, true) == Build(tokens, stack, false)
  {
  }
}
