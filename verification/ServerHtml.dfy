/** The server renderer: a tree of markup nodes printed as HTML. */
module ServerHtml {
  import opened Options
  import opened HtmlReader

  /** An attribute or property value: null or undefined, a boolean, or anything else as text. */
  datatype AttrValue = Absent | Flag(on: bool) | Text(text: string)
  datatype Entry = Entry(key: string, value: AttrValue)
  datatype Style = Style(key: string, value: string)

  datatype VNode =
    | VText(value: string)
    | VFragment(children: seq<VNode>)
    | VElement(tag: string, attrs: seq<Entry>, props: seq<Entry>, styles: seq<Style>, children: seq<VNode>)

  datatype RenderError =
    | ElementInRawText
    | InvalidTag
    | InvalidAttribute
    | InvalidProperty
    | InvalidStyle
    | TextareaMismatch
    | TextareaElement
    | RawTextCharacter
    | RawTextDelimiter

  datatype Namespace = Html | Svg

  const RAW_TEXT_TAGS := {"script", "style"}

  /** The validation rules that this model does not spell out: those for properties and styles,
      and those of the SVG namespace. */
  datatype Rules = Rules(
    property: (string, string, AttrValue) -> bool,
    style: (string, string) -> bool,
    svgTag: string -> bool,
    svgAttribute: string -> bool,
    svgHtmlPoint: string -> bool)

  // ---------------------------------------------------------------- names

  predicate TagStart(c: char) { 'a' <= c <= 'z' }

  predicate TagChar(c: char) { 'a' <= c <= 'z' || '0' <= c <= '9' || c == ':' || c == '-' }

  predicate ValidTag(tag: string) {
    tag != "" && TagStart(tag[0]) && forall i :: 0 <= i < |tag| ==> TagChar(tag[i])
  }

  predicate Space(c: char) {
    c in {' ', '\U{a0}', '\U{1680}', '\U{2028}', '\U{2029}', '\U{202f}', '\U{205f}', '\U{3000}', '\U{feff}'} || '\U{2000}' <= c <= '\U{200a}'
  }

  predicate AttributeChar(c: char) {
    && !('A' <= c <= 'Z') && !Space(c) && c !in {'"', '\'', '/', '>', '='}
    && !(c <= '\U{1f}') && c != '\U{7f}'
  }

  predicate ValidAttribute(name: string) {
    name != "" && forall i :: 0 <= i < |name| ==> AttributeChar(name[i])
  }

  // ---------------------------------------------------------------- escaping

  /** Every `c` in `s` replaced by `text`. */
  function Replace(s: string, c: char, text: string): string {
    if s == "" then "" else (if s[0] == c then text else [s[0]]) + Replace(s[1..], c, text)
  }

  function EscapeText(s: string): string {
    Replace(Replace(Replace(Replace(s, '&', "&amp;"), '\r', "&#13;"), '<', "&lt;"), '>', "&gt;")
  }

  function EscapeAttribute(s: string): string {
    Replace(EscapeText(s), '"', "&quot;")
  }

  function Escaped(c: char): string {
    match c
    case '&' => "&amp;"
    case '\r' => "&#13;"
    case '<' => "&lt;"
    case '>' => "&gt;"
    case _ => [c]
  }

  function EscapedInAttribute(c: char): string {
    if c == '"' then "&quot;" else Escaped(c)
  }

  lemma {:induction false} ReplaceConcat(a: string, b: string, c: char, text: string)
    ensures Replace(a + b, c, text) == Replace(a, c, text) + Replace(b, c, text)
  {
    if a == "" {
      assert a + b == b;
    } else {
      assert (a + b)[0] == a[0] && (a + b)[1..] == a[1..] + b;
      ReplaceConcat(a[1..], b, c, text);
    }
  }

  lemma {:induction false} ReplaceNothing(s: string, c: char, text: string)
    requires forall i :: 0 <= i < |s| ==> s[i] != c
    ensures Replace(s, c, text) == s
  {
    if s != "" { ReplaceNothing(s[1..], c, text); }
  }

  /** A character that is replaced: no later pass finds anything in its replacement. */
  lemma EscapeSpecial(c: char)
    requires c == '&' || c == '\r' || c == '<' || c == '>'
    ensures EscapeText([c]) == Escaped(c) && EscapeAttribute([c]) == Escaped(c)
  {
    var e := Escaped(c);
    ReplaceOne(c, '&', "&amp;");
    ReplaceOne(c, '\r', "&#13;");
    ReplaceOne(c, '<', "&lt;");
    ReplaceOne(c, '>', "&gt;");
    assert forall i :: 0 <= i < |e| ==> e[i] != '\r' && e[i] != '<' && e[i] != '>' && e[i] != '"';
    ReplaceNothing(e, '\r', "&#13;");
    ReplaceNothing(e, '<', "&lt;");
    ReplaceNothing(e, '>', "&gt;");
    ReplaceNothing(e, '"', "&quot;");
    hide Replace;
  }

  lemma EscapeOne(c: char)
    ensures EscapeText([c]) == Escaped(c) && EscapeAttribute([c]) == EscapedInAttribute(c)
  {
    if c == '&' || c == '\r' || c == '<' || c == '>' {
      EscapeSpecial(c);
    } else {
      ReplaceOne(c, '&', "&amp;");
      ReplaceOne(c, '\r', "&#13;");
      ReplaceOne(c, '<', "&lt;");
      ReplaceOne(c, '>', "&gt;");
      ReplaceOne(c, '"', "&quot;");
    }
  }

  lemma ReplaceOne(c: char, d: char, text: string)
    ensures Replace([c], d, text) == if c == d then text else [c]
  {
    assert [c][1..] == "";
  }

  /** Escaping in passes over the whole text is escaping character by character: no pass touches
      what an earlier one has put in. */
  lemma EscapeFirst(s: string)
    requires s != ""
    ensures EscapeText(s) == Escaped(s[0]) + EscapeText(s[1..])
    ensures EscapeAttribute(s) == EscapedInAttribute(s[0]) + EscapeAttribute(s[1..])
  {
    EscapeConcat([s[0]], s[1..]);
    assert [s[0]] + s[1..] == s;
    EscapeOne(s[0]);
  }

  lemma EscapeConcat(a: string, b: string)
    ensures EscapeText(a + b) == EscapeText(a) + EscapeText(b)
    ensures EscapeAttribute(a + b) == EscapeAttribute(a) + EscapeAttribute(b)
  {
    var a1, b1 := Replace(a, '&', "&amp;"), Replace(b, '&', "&amp;");
    var a2, b2 := Replace(a1, '\r', "&#13;"), Replace(b1, '\r', "&#13;");
    var a3, b3 := Replace(a2, '<', "&lt;"), Replace(b2, '<', "&lt;");
    ReplaceConcat(a, b, '&', "&amp;");
    ReplaceConcat(a1, b1, '\r', "&#13;");
    ReplaceConcat(a2, b2, '<', "&lt;");
    ReplaceConcat(a3, b3, '>', "&gt;");
    ReplaceConcat(EscapeText(a), EscapeText(b), '"', "&quot;");
  }

  // ---------------------------------------------------------------- attributes

  /** Assigns to a record that remembers the order of its keys. */
  function Assign(record: seq<Entry>, key: string, value: AttrValue): seq<Entry> {
    if record == [] then [Entry(key, value)]
    else if record[0].key == key then [Entry(key, value)] + record[1..]
    else [record[0]] + Assign(record[1..], key, value)
  }

  /** The attributes with the properties assigned over them, except a textarea's value. */
  function WithProps(rules: Rules, tag: string, attrs: seq<Entry>, props: seq<Entry>): Result<seq<Entry>, RenderError>
    decreases |props|
  {
    if props == [] then Ok(attrs)
    else if !rules.property(tag, props[0].key, props[0].value) then Err(InvalidProperty)
    else if tag == "textarea" && props[0].key == "value" then WithProps(rules, tag, attrs, props[1..])
    else WithProps(rules, tag, Assign(attrs, props[0].key, props[0].value), props[1..])
  }

  function StyleText(rules: Rules, styles: seq<Style>): Result<string, RenderError> {
    if styles == [] then Ok("")
    else if !rules.style(styles[0].key, styles[0].value) then Err(InvalidStyle)
    else
      match StyleText(rules, styles[1..])
      case Err(e) => Err(e)
      case Ok(rest) => Ok(styles[0].key + ": " + styles[0].value + (if styles[1..] == [] then "" else "; " + rest))
  }

  /** The attributes that are printed, before they are checked and printed. */
  function AllAttributes(rules: Rules, tag: string, attrs: seq<Entry>, props: seq<Entry>, styles: seq<Style>): Result<seq<Entry>, RenderError> {
    match WithProps(rules, tag, attrs, props)
    case Err(e) => Err(e)
    case Ok(record) =>
      match StyleText(rules, styles)
      case Err(e) => Err(e)
      case Ok(style) => Ok(if style == "" then record else Assign(record, "style", Text(style)))
  }

  predicate Skipped(e: Entry) {
    e.key == "key" || e.value.Absent? || e.value == Flag(false)
  }

  function PrintEntries(rules: Rules, entries: seq<Entry>, namespace: Namespace): Result<string, RenderError> {
    if entries == [] then Ok("")
    else if Skipped(entries[0]) then PrintEntries(rules, entries[1..], namespace)
    else if !(if namespace.Svg? then rules.svgAttribute(entries[0].key) else ValidAttribute(entries[0].key)) then Err(InvalidAttribute)
    else
      match PrintEntries(rules, entries[1..], namespace)
      case Err(e) => Err(e)
      case Ok(rest) =>
        Ok(" " + entries[0].key + (if entries[0].value.Flag? then "" else "=\"" + EscapeAttribute(entries[0].value.text) + "\"") + rest)
  }

  function RenderAttrs(rules: Rules, tag: string, attrs: seq<Entry>, props: seq<Entry>, styles: seq<Style>, namespace: Namespace): Result<string, RenderError> {
    match AllAttributes(rules, tag, attrs, props, styles)
    case Err(e) => Err(e)
    case Ok(entries) => PrintEntries(rules, entries, namespace)
  }

  /** The attributes a reader finds. */
  function ReadBack(entries: seq<Entry>): seq<Attr> {
    if entries == [] then []
    else if Skipped(entries[0]) then ReadBack(entries[1..])
    else [Attr(entries[0].key, if entries[0].value.Flag? then "" else Filled(entries[0].value.text))] + ReadBack(entries[1..])
  }

  /** The attributes that were meant. */
  function GivenAttrs(entries: seq<Entry>): seq<Attr> {
    if entries == [] then []
    else if Skipped(entries[0]) then GivenAttrs(entries[1..])
    else [Attr(entries[0].key, if entries[0].value.Flag? then "" else entries[0].value.text)] + GivenAttrs(entries[1..])
  }

  /** Collects the attributes as the renderer does, assigning into a local record. */
  method CollectAttributes(rules: Rules, tag: string, attrs: seq<Entry>, props: seq<Entry>, styles: seq<Style>) returns (r: Result<seq<Entry>, RenderError>)
    ensures r == AllAttributes(rules, tag, attrs, props, styles)
  {
    var record := attrs;
    var i := 0;
    while i < |props|
      invariant 0 <= i <= |props|
      invariant WithProps(rules, tag, record, props[i..]) == WithProps(rules, tag, attrs, props)
    {
      var prop := props[i];
      assert props[i..][0] == prop && props[i..][1..] == props[i + 1..];
      if !rules.property(tag, prop.key, prop.value) { return Err(InvalidProperty); }
      if !(tag == "textarea" && prop.key == "value") {
        record := Assign(record, prop.key, prop.value);
      }
      i := i + 1;
    }
    var style := StyleText(rules, styles);
    if style.Err? { return Err(style.error); }
    if style.value != "" {
      record := Assign(record, "style", Text(style.value));
    }
    return Ok(record);
  }

  // ---------------------------------------------------------------- raw text and textareas

  function LowerChar(c: char): char {
    if 'A' <= c <= 'Z' then 'a' + (c - 'A') else c
  }

  function Lower(s: string): string {
    seq(|s|, i requires 0 <= i < |s| => LowerChar(s[i]))
  }

  predicate Contains(s: string, p: string) {
    exists i :: 0 <= i <= |s| && StartsWith(s[i..], p)
  }

  function RenderRawText(value: string, tag: string): Result<string, RenderError> {
    if '\0' in value || '\r' in value then Err(RawTextCharacter)
    else if Contains(Lower(value), "</" + tag) then Err(RawTextDelimiter)
    else Ok(value)
  }

  function TextareaText(children: seq<VNode>): Result<string, RenderError> {
    if children == [] then Ok("")
    else
      var first := match children[0] case VText(v) => Ok(v) case VFragment(inner) => TextareaText(inner) case VElement(_, _, _, _, _) => Err(TextareaElement);
      match first
      case Err(e) => Err(e)
      case Ok(a) =>
        match TextareaText(children[1..])
        case Err(e) => Err(e)
        case Ok(b) => Ok(a + b)
  }

  function ValueProp(props: seq<Entry>): Option<AttrValue> {
    if props == [] then None else if props[0].key == "value" then Some(props[0].value) else ValueProp(props[1..])
  }

  /** A textarea with a value must hold that value as its text. */
  function TextareaProblem(tag: string, props: seq<Entry>, children: seq<VNode>): Option<RenderError> {
    if tag != "textarea" || ValueProp(props).None? then None
    else if !ValueProp(props).value.Text? then Some(TextareaMismatch)
    else
      match TextareaText(children)
      case Err(e) => Some(e)
      case Ok(text) => if text == ValueProp(props).value.text then None else Some(TextareaMismatch)
  }

  // ---------------------------------------------------------------- rendering

  function ElementNamespace(tag: string, parent: Namespace): Namespace {
    if parent.Svg? || tag == "svg" then Svg else Html
  }

  function ChildNamespace(rules: Rules, tag: string, namespace: Namespace): Namespace {
    if namespace.Svg? && rules.svgHtmlPoint(tag) then Html else namespace
  }

  function RenderNode(rules: Rules, v: VNode, rawText: Option<string>, parent: Namespace): Result<string, RenderError>
    decreases v, 1
  {
    match v
    case VText(value) => if rawText.Some? then RenderRawText(value, rawText.value) else Ok(EscapeText(value))
    case VFragment(children) => RenderAll(rules, children, rawText, parent)
    case VElement(tag, attrs, props, styles, children) =>
      if rawText.Some? then Err(ElementInRawText)
      else
        var namespace := ElementNamespace(tag, parent);
        if namespace.Svg? && !rules.svgTag(tag) then Err(InvalidTag)
        else if namespace.Html? && !ValidTag(tag) then Err(InvalidTag)
        else if namespace.Html? && TextareaProblem(tag, props, children).Some? then Err(TextareaProblem(tag, props, children).value)
        else
          match RenderAttrs(rules, tag, attrs, props, styles, namespace)
          case Err(e) => Err(e)
          case Ok(printed) =>
            if namespace.Html? && tag in VOID_TAGS then Ok("<" + tag + printed + ">")
            else
              var raw := if namespace.Html? && tag in RAW_TEXT_TAGS then Some(tag) else None;
              match RenderAll(rules, children, raw, ChildNamespace(rules, tag, namespace))
              case Err(e) => Err(e)
              case Ok(inner) =>
                var newline := if namespace.Html? && tag in NEWLINE_STRIPPING_TAGS && StartsWith(inner, "\n") then "\n" else "";
                Ok("<" + tag + printed + ">" + newline + inner + "</" + tag + ">")
  }

  function RenderAll(rules: Rules, vs: seq<VNode>, rawText: Option<string>, parent: Namespace): Result<string, RenderError>
    decreases vs, 0
  {
    if vs == [] then Ok("")
    else
      match RenderNode(rules, vs[0], rawText, parent)
      case Err(e) => Err(e)
      case Ok(a) =>
        match RenderAll(rules, vs[1..], rawText, parent)
        case Err(e) => Err(e)
        case Ok(b) => Ok(a + b)
  }

  // ---------------------------------------------------------------- what the output means

  /** Elements of other namespaces, and those whose content a reader takes as it stands, without tags
      and character references (the RAWTEXT and PLAINTEXT states of section 13.2.5). */
  const OPAQUE_TAGS := {"svg", "math", "iframe", "noembed", "noframes", "noscript", "plaintext", "script", "style", "xmp"}

  predicate TextOnly(v: VNode) {
    match v
    case VText(_) => true
    case VFragment(children) => forall i :: 0 <= i < |children| ==> TextOnly(children[i])
    case VElement(_, _, _, _, _) => false
  }

  /** Trees in the HTML namespace without elements whose content is not markup; there are no tags in
      textareas and titles (the RCDATA state). */
  predicate Readable(v: VNode) {
    match v
    case VText(_) => true
    case VFragment(children) => forall i :: 0 <= i < |children| ==> Readable(children[i])
    case VElement(tag, _, _, _, children) =>
      && tag !in OPAQUE_TAGS
      && (tag in REPLACING_TAGS ==> forall i :: 0 <= i < |children| ==> TextOnly(children[i]))
      && forall i :: 0 <= i < |children| ==> Readable(children[i])
  }

  /** The nodes that `v` means: fragments are spliced, empty text is dropped, and a void element
      has no children. Neighbouring text is merged inside elements. */
  function Given(rules: Rules, v: VNode): seq<Node>
    decreases v, 1
  {
    match v
    case VText(value) => TextNodes(value)
    case VFragment(children) => AllGiven(rules, children)
    case VElement(tag, attrs, props, styles, children) =>
      match AllAttributes(rules, tag, attrs, props, styles)
      case Err(_) => []
      case Ok(entries) =>
        [Element(tag, GivenAttrs(entries), if tag in VOID_TAGS then [] else JoinAll([], AllGiven(rules, children)))]
  }

  function AllGiven(rules: Rules, vs: seq<VNode>): seq<Node>
    decreases vs, 0
  {
    if vs == [] then [] else Given(rules, vs[0]) + AllGiven(rules, vs[1..])
  }

  /** The nodes that are read back of `v` in an element `parent`: the same, but for U+0000. */
  function Nodes(rules: Rules, v: VNode, parent: string): seq<Node>
    decreases v, 1
  {
    match v
    case VText(value) => TextNodes(Seen(value, parent))
    case VFragment(children) => AllNodes(rules, children, parent)
    case VElement(tag, attrs, props, styles, children) =>
      match AllAttributes(rules, tag, attrs, props, styles)
      case Err(_) => []
      case Ok(entries) =>
        [Element(tag, ReadBack(entries), if tag in VOID_TAGS then [] else JoinAll([], AllNodes(rules, children, tag)))]
  }

  function AllNodes(rules: Rules, vs: seq<VNode>, parent: string): seq<Node>
    decreases vs, 0
  {
    if vs == [] then [] else Nodes(rules, vs[0], parent) + AllNodes(rules, vs[1..], parent)
  }

  /** The tokens that the rendered text of `v` consists of. */
  function Tokens(rules: Rules, v: VNode): seq<Token>
    decreases v, 1
  {
    match v
    case VText(value) => Chars(value)
    case VFragment(children) => AllTokens(rules, children)
    case VElement(tag, attrs, props, styles, children) =>
      match AllAttributes(rules, tag, attrs, props, styles)
      case Err(_) => []
      case Ok(entries) =>
        var start := [StartTag(tag, ReadBack(entries))];
        if tag in VOID_TAGS then start
        else
          var inner := AllTokens(rules, children);
          start + (if tag in NEWLINE_STRIPPING_TAGS && inner != [] && inner[0] == Char('\n') then [Char('\n')] else []) + inner + [EndTag(tag)]
  }

  function AllTokens(rules: Rules, vs: seq<VNode>): seq<Token>
    decreases vs, 0
  {
    if vs == [] then [] else Tokens(rules, vs[0]) + AllTokens(rules, vs[1..])
  }

  // Reading characters.

  lemma ReadsEscaped(c: char, rest: string)
    ensures Tokenize(Escaped(c) + rest) == [Char(c)] + Tokenize(rest)
  {
    var s := Escaped(c) + rest;
    PrefixOf(Escaped(c), rest);
    if c == '&' || c == '\r' || c == '<' || c == '>' {
      assert s[0] == '&' && s[1] == Escaped(c)[1] && s[2] == Escaped(c)[2];
      ReferenceOf(c, s);
    }
  }

  /** The references that escaping emits are told apart by their first characters. */
  lemma ReferenceOf(c: char, s: string)
    requires (c == '&' || c == '\r' || c == '<' || c == '>' || c == '"') && StartsWith(s, EscapedInAttribute(c))
    ensures Reference(s) == (c, |EscapedInAttribute(c)|)
  {
    var e := EscapedInAttribute(c);
    assert s[1] == e[1] && s[2] == e[2];
    assert StartsWith(s, "&amp;") ==> s[1] == "&amp;"[1];
    assert StartsWith(s, "&#13;") ==> s[1] == "&#13;"[1];
    assert StartsWith(s, "&lt;") ==> s[1] == "&lt;"[1];
    assert StartsWith(s, "&gt;") ==> s[1] == "&gt;"[1];
    assert StartsWith(s, "&quot;") ==> s[1] == "&quot;"[1];
  }

  lemma {:induction false} ReadsText(value: string, rest: string)
    ensures Tokenize(EscapeText(value) + rest) == Chars(value) + Tokenize(rest)
    decreases |value|
  {
    if value == "" {
      assert EscapeText(value) + rest == rest;
      assert Chars(value) + Tokenize(rest) == Tokenize(rest);
    } else {
      EscapeFirst(value);
      CharsFirst(value);
      ReadsText(value[1..], rest);
      hide EscapeText, Escaped, Tokenize, Chars;
      Associates(Escaped(value[0]), EscapeText(value[1..]), rest);
      ReadsEscaped(value[0], EscapeText(value[1..]) + rest);
      Associates([Char(value[0])], Chars(value[1..]), Tokenize(rest));
    }
  }

  lemma CharsFirst(value: string)
    requires value != ""
    ensures Chars(value) == [Char(value[0])] + Chars(value[1..])
  {
  }

  lemma ReadsQuotedChar(c: char, tail: string)
    ensures ReadQuoted(EscapedInAttribute(c) + tail) ==
              match ReadQuoted(tail) case None => None case Some((value, rest)) => Some(([FilledChar(c)] + value, rest))
  {
    var s := EscapedInAttribute(c) + tail;
    PrefixOf(EscapedInAttribute(c), tail);
    if c == '&' || c == '\r' || c == '<' || c == '>' || c == '"' {
      ReferenceOf(c, s);
      assert s[0] == '&';
    }
  }

  lemma {:induction false} ReadsQuoted(value: string, rest: string)
    ensures ReadQuoted(EscapeAttribute(value) + ("\"" + rest)) == Some((Filled(value), rest))
    decreases |value|
  {
    if value == "" {
      assert EscapeAttribute(value) + ("\"" + rest) == "\"" + rest;
      assert ("\"" + rest)[1..] == rest;
    } else {
      EscapeFirst(value);
      ReadsQuoted(value[1..], rest);
      assert [value[0]] + value[1..] == value;
      hide EscapeAttribute, EscapedInAttribute, ReadQuoted;
      Associates(EscapedInAttribute(value[0]), EscapeAttribute(value[1..]), "\"" + rest);
      ReadsQuotedChar(value[0], EscapeAttribute(value[1..]) + ("\"" + rest));
    }
  }

  // Reading attributes and tags.

  /** One printed attribute, the space before it included. */
  function PrintEntry(e: Entry): string {
    " " + e.key + (if e.value.Flag? then "" else if e.value.Text? then "=\"" + EscapeAttribute(e.value.text) + "\"" else "")
  }

  lemma PrintedFirst(rules: Rules, entries: seq<Entry>, rest: string)
    requires entries != [] && !Skipped(entries[0]) && PrintEntries(rules, entries, Html).Ok?
    ensures PrintEntries(rules, entries[1..], Html).Ok? && ValidAttribute(entries[0].key) && !entries[0].value.Absent?
    ensures PrintEntries(rules, entries, Html).value + rest == PrintEntry(entries[0]) + (PrintEntries(rules, entries[1..], Html).value + rest)
  {
    hide EscapeAttribute, ValidAttribute;
    Associates(PrintEntry(entries[0]), PrintEntries(rules, entries[1..], Html).value, rest);
  }

  lemma {:induction false} ReadsAttrs(rules: Rules, entries: seq<Entry>, rest: string)
    requires PrintEntries(rules, entries, Html).Ok?
    ensures ReadAttrs(PrintEntries(rules, entries, Html).value + (">" + rest)) == Some((ReadBack(entries), rest))
    ensures var s := PrintEntries(rules, entries, Html).value; s == "" || s[0] == ' '
    decreases |entries|
  {
    if entries == [] {
      assert "" + (">" + rest) == ">" + rest && (">" + rest)[1..] == rest;
    } else {
      ReadsAttrs(rules, entries[1..], rest);
      if !Skipped(entries[0]) {
        var after := PrintEntries(rules, entries[1..], Html).value + (">" + rest);
        assert after[0] == ' ' || after[0] == '>';
        PrintedFirst(rules, entries, ">" + rest);
        ReadsEntry(entries[0], after);
        hide PrintEntry, ReadAttrs, ValidAttribute, EscapeAttribute;
      }
    }
  }

  lemma ReadsEntry(e: Entry, after: string)
    requires ValidAttribute(e.key) && !e.value.Absent? && after != "" && (after[0] == ' ' || after[0] == '>')
    ensures ReadAttrs(PrintEntry(e) + after) ==
              match ReadAttrs(after) case None => None
              case Some((attrs, end)) => Some(([Attr(e.key, if e.value.Flag? then "" else Filled(e.value.text))] + attrs, end))
  {
    hide EscapeAttribute, ReadAttrs, ValidAttribute;
    if e.value.Flag? {
      assert PrintEntry(e) + after == " " + e.key + after;
      ReadsFlag(e.key, after);
    } else {
      var quoted := EscapeAttribute(e.value.text);
      assert PrintEntry(e) + after == " " + (e.key + ("=\"" + (quoted + ("\"" + after))));
      ReadsValue(e.key, e.value.text, after);
    }
  }

  lemma NameStops(name: string)
    requires ValidAttribute(name)
    ensures forall c :: c in name ==> c !in ATTR_STOPS
  {
  }

  lemma ReadsFlag(name: string, after: string)
    requires ValidAttribute(name) && after != "" && (after[0] == ' ' || after[0] == '>')
    ensures ReadAttrs(" " + name + after) ==
              match ReadAttrs(after) case None => None case Some((attrs, end)) => Some(([Attr(name, "")] + attrs, end))
  {
    NameStops(name);
    var s := " " + name + after;
    assert s[1..] == name + after;
    ReadsName(name, after, ATTR_STOPS);
    assert "=\""[0] == '=' && (|after| >= 2 ==> after[..2][0] == after[0]);
  }

  lemma ReadsValue(name: string, value: string, after: string)
    requires ValidAttribute(name)
    ensures ReadAttrs(" " + (name + ("=\"" + (EscapeAttribute(value) + ("\"" + after))))) ==
              match ReadAttrs(after) case None => None case Some((attrs, end)) => Some(([Attr(name, Filled(value))] + attrs, end))
  {
    NameStops(name);
    var quoted := EscapeAttribute(value) + ("\"" + after);
    var s := " " + (name + ("=\"" + quoted));
    assert s[1..] == name + ("=\"" + quoted);
    ReadsName(name, "=\"" + quoted, ATTR_STOPS);
    PrefixOf("=\"", quoted);
    ReadsQuoted(value, after);
    hide EscapeAttribute, ReadQuoted;
  }

  /** The text of an element, piece by piece. */
  lemma Regroups(a: string, n: string, i: string, e: string, t: string, g: string, rest: string)
    ensures a + n + i + e + t + g + rest == a + (n + (i + (e + (t + (g + rest)))))
  {
    Associates(a + n + i + e + t, g, rest);
    Associates(a + n + i + e, t, g + rest);
    Associates(a + n + i, e, t + (g + rest));
    Associates(a + n, i, e + (t + (g + rest)));
    Associates(a, n, i + (e + (t + (g + rest))));
  }

  lemma ReadsStartTag(rules: Rules, tag: string, entries: seq<Entry>, rest: string)
    requires ValidTag(tag) && PrintEntries(rules, entries, Html).Ok?
    ensures Tokenize("<" + tag + PrintEntries(rules, entries, Html).value + ">" + rest) == [StartTag(tag, ReadBack(entries))] + Tokenize(rest)
  {
    var printed := PrintEntries(rules, entries, Html).value;
    var s := "<" + (tag + (printed + (">" + rest)));
    ReadsAttrs(rules, entries, rest);
    Associates("<" + tag + printed, ">", rest);
    Associates("<" + tag, printed, ">" + rest);
    Associates("<", tag, printed + (">" + rest));
    hide PrintEntries, ReadAttrs;
    assert s[1..] == tag + (printed + (">" + rest));
    assert s[1] == tag[0];
    ReadsName(tag, printed + (">" + rest), TAG_STOPS);
  }

  lemma ReadsEndTag(tag: string, rest: string)
    requires ValidTag(tag)
    ensures Tokenize("</" + (tag + (">" + rest))) == [EndTag(tag)] + Tokenize(rest)
  {
    var s := "</" + (tag + (">" + rest));
    assert s[2..] == tag + (">" + rest);
    ReadsName(tag, ">" + rest, TAG_STOPS);
    assert (">" + rest)[1..] == rest;
  }

  // Reading trees.

  lemma {:induction false} ReadsNode(rules: Rules, v: VNode, rest: string)
    requires Readable(v) && RenderNode(rules, v, None, Html).Ok?
    ensures Tokenize(RenderNode(rules, v, None, Html).value + rest) == Tokens(rules, v) + Tokenize(rest)
    decreases v, 1
  {
    match v
    case VText(value) => ReadsText(value, rest);
    case VFragment(children) => ReadsAll(rules, children, rest);
    case VElement(tag, attrs, props, styles, children) =>
      var entries := AllAttributes(rules, tag, attrs, props, styles).value;
      if tag in VOID_TAGS {
        ReadsStartTag(rules, tag, entries, rest);
      } else {
        ReadsElement(rules, tag, attrs, props, styles, children, rest);
      }
  }

  lemma {:induction false} ReadsAll(rules: Rules, vs: seq<VNode>, rest: string)
    requires (forall i :: 0 <= i < |vs| ==> Readable(vs[i])) && RenderAll(rules, vs, None, Html).Ok?
    ensures Tokenize(RenderAll(rules, vs, None, Html).value + rest) == AllTokens(rules, vs) + Tokenize(rest)
    decreases vs, 0
  {
    if vs == [] {
      assert "" + rest == rest;
    } else {
      var a, b := RenderNode(rules, vs[0], None, Html).value, RenderAll(rules, vs[1..], None, Html).value;
      ReadsNode(rules, vs[0], b + rest);
      ReadsAll(rules, vs[1..], rest);
      Associates(a, b, rest);
      Associates(Tokens(rules, vs[0]), AllTokens(rules, vs[1..]), Tokenize(rest));
    }
  }

  /** What an element is rendered to, piece by piece. */
  lemma ElementText(rules: Rules, tag: string, attrs: seq<Entry>, props: seq<Entry>, styles: seq<Style>, children: seq<VNode>, rest: string)
    requires var v := VElement(tag, attrs, props, styles, children);
             Readable(v) && RenderNode(rules, v, None, Html).Ok? && tag !in VOID_TAGS
    ensures ValidTag(tag) && AllAttributes(rules, tag, attrs, props, styles).Ok?
    ensures PrintEntries(rules, AllAttributes(rules, tag, attrs, props, styles).value, Html).Ok? && RenderAll(rules, children, None, Html).Ok?
    ensures var printed := PrintEntries(rules, AllAttributes(rules, tag, attrs, props, styles).value, Html).value;
            var inner := RenderAll(rules, children, None, Html).value;
            var newline := if tag in NEWLINE_STRIPPING_TAGS && StartsWith(inner, "\n") then "\n" else "";
            RenderNode(rules, VElement(tag, attrs, props, styles, children), None, Html).value + rest
              == "<" + tag + printed + ">" + (newline + (inner + ("</" + (tag + (">" + rest)))))
  {
    hide PrintEntries, AllAttributes, RenderAll, ValidTag, TextareaProblem;
    var printed := PrintEntries(rules, AllAttributes(rules, tag, attrs, props, styles).value, Html).value;
    var inner := RenderAll(rules, children, None, Html).value;
    var newline := if tag in NEWLINE_STRIPPING_TAGS && StartsWith(inner, "\n") then "\n" else "";
    Regroups("<" + tag + printed + ">", newline, inner, "</", tag, ">", rest);
  }

  lemma {:induction false} ReadsElement(rules: Rules, tag: string, attrs: seq<Entry>, props: seq<Entry>, styles: seq<Style>, children: seq<VNode>, rest: string)
    requires var v := VElement(tag, attrs, props, styles, children);
             Readable(v) && RenderNode(rules, v, None, Html).Ok? && tag !in VOID_TAGS
    ensures var v := VElement(tag, attrs, props, styles, children);
            Tokenize(RenderNode(rules, v, None, Html).value + rest) == Tokens(rules, v) + Tokenize(rest)
    decreases children, 2
  {
    ElementText(rules, tag, attrs, props, styles, children, rest);
    var entries := AllAttributes(rules, tag, attrs, props, styles).value;
    var inner := RenderAll(rules, children, None, Html).value;
    var tokens := AllTokens(rules, children);
    var end := "</" + (tag + (">" + rest));
    var newline := if tag in NEWLINE_STRIPPING_TAGS && StartsWith(inner, "\n") then "\n" else "";
    ReadsAll(rules, children, end);
    ReadsEndTag(tag, rest);
    ReadsStartTag(rules, tag, entries, newline + (inner + end));
    FirstNewline(rules, children);
    var doubled := if newline == "" then [] else [Char('\n')];
    ReadsNewline(newline, inner + end);
    TokensOfElement(rules, tag, attrs, props, styles, children, doubled, Tokenize(rest));
    hide RenderNode, Tokens, Tokenize, AllAttributes, PrintEntries, ValidTag, Readable;
  }

  lemma ReadsNewline(newline: string, s: string)
    requires newline == "" || newline == "\n"
    ensures Tokenize(newline + s) == (if newline == "" then [] else [Char('\n')]) + Tokenize(s)
  {
    if newline == "" {
      assert newline + s == s && [] + Tokenize(s) == Tokenize(s);
    } else {
      assert (newline + s)[1..] == s;
    }
  }

  lemma NewlineStarts(s: string)
    ensures StartsWith(s, "\n") <==> s != "" && s[0] == '\n'
  {
    if s != "" { assert s[..1] == [s[0]]; }
  }

  /** The children's text starts with a newline exactly when their tokens do. */
  lemma FirstNewline(rules: Rules, children: seq<VNode>)
    requires (forall i :: 0 <= i < |children| ==> Readable(children[i])) && RenderAll(rules, children, None, Html).Ok?
    ensures var tokens := AllTokens(rules, children);
            (tokens != [] && tokens[0] == Char('\n')) <==> StartsWith(RenderAll(rules, children, None, Html).value, "\n")
    decreases children, 1
  {
    var inner, tokens := RenderAll(rules, children, None, Html).value, AllTokens(rules, children);
    ReadsAll(rules, children, "");
    hide RenderAll, AllTokens, Readable;
    assert inner + "" == inner && tokens + [] == tokens && Tokenize("") == [];
    assert Tokenize(inner) == tokens;
    NewlineFirst(inner);
    NewlineStarts(inner);
  }

  lemma TokensOfElement(rules: Rules, tag: string, attrs: seq<Entry>, props: seq<Entry>, styles: seq<Style>, children: seq<VNode>, doubled: seq<Token>, rest: seq<Token>)
    requires AllAttributes(rules, tag, attrs, props, styles).Ok? && tag !in VOID_TAGS
    requires var tokens := AllTokens(rules, children);
             doubled == if tag in NEWLINE_STRIPPING_TAGS && tokens != [] && tokens[0] == Char('\n') then [Char('\n')] else []
    ensures Tokens(rules, VElement(tag, attrs, props, styles, children)) + rest
         == [StartTag(tag, ReadBack(AllAttributes(rules, tag, attrs, props, styles).value))] + (doubled + (AllTokens(rules, children) + ([EndTag(tag)] + rest)))
  {
    hide AllTokens, AllAttributes, ReadBack;
    var start := [StartTag(tag, ReadBack(AllAttributes(rules, tag, attrs, props, styles).value))];
    var tokens := AllTokens(rules, children);
    assert Tokens(rules, VElement(tag, attrs, props, styles, children)) == start + doubled + tokens + [EndTag(tag)];
    Associates(start + doubled + tokens, [EndTag(tag)], rest);
    Associates(start + doubled, tokens, [EndTag(tag)] + rest);
    Associates(start, doubled, tokens + ([EndTag(tag)] + rest));
  }

  // Building trees.

  lemma {:induction false} BuildsNode(rules: Rules, v: VNode, rest: seq<Token>, top: Open, below: seq<Open>)
    requires Readable(v) && RenderNode(rules, v, None, Html).Ok?
    ensures Build(Tokens(rules, v) + rest, [top] + below, false)
         == Build(rest, [top.(children := JoinAll(top.children, Nodes(rules, v, top.tag)))] + below, false)
    decreases v, 1
  {
    match v
    case VText(value) =>
      BuildsText(value, rest, top, below);
    case VFragment(children) => BuildsAll(rules, children, rest, top, below);
    case VElement(tag, attrs, props, styles, children) =>
      BuildsOneElement(rules, tag, attrs, props, styles, children, rest, top, below);
  }

  lemma {:induction false} BuildsOneElement(rules: Rules, tag: string, attrs: seq<Entry>, props: seq<Entry>, styles: seq<Style>, children: seq<VNode>, rest: seq<Token>, top: Open, below: seq<Open>)
    requires var v := VElement(tag, attrs, props, styles, children); Readable(v) && RenderNode(rules, v, None, Html).Ok?
    ensures var v := VElement(tag, attrs, props, styles, children);
            Build(Tokens(rules, v) + rest, [top] + below, false)
              == Build(rest, [top.(children := JoinAll(top.children, Nodes(rules, v, top.tag)))] + below, false)
    decreases children, 2
  {
    var v := VElement(tag, attrs, props, styles, children);
    var read := ReadBack(AllAttributes(rules, tag, attrs, props, styles).value);
    var node := Nodes(rules, v, top.tag)[0];
    assert JoinAll(top.children, [node]) == Join(top.children, node) by { assert [node][1..] == []; }
    if tag in VOID_TAGS {
      var start := StartTag(tag, read);
      assert Tokens(rules, v) == [start];
      assert ([start] + rest)[0] == start && ([start] + rest)[1..] == rest;
      assert ([top] + below)[0] == top && ([top] + below)[1..] == below;
    } else {
      var inner := AllTokens(rules, children);
      var doubled := if tag in NEWLINE_STRIPPING_TAGS && inner != [] && inner[0] == Char('\n') then [Char('\n')] else [];
      TokensOfElement(rules, tag, attrs, props, styles, children, doubled, rest);
      BuildsElement(rules, tag, read, children, doubled, rest, top, below);
      hide Build, Tokens, AllTokens, JoinAll, RenderNode, Readable;
    }
  }

  lemma {:induction false} BuildsAll(rules: Rules, vs: seq<VNode>, rest: seq<Token>, top: Open, below: seq<Open>)
    requires (forall i :: 0 <= i < |vs| ==> Readable(vs[i])) && RenderAll(rules, vs, None, Html).Ok?
    ensures Build(AllTokens(rules, vs) + rest, [top] + below, false)
         == Build(rest, [top.(children := JoinAll(top.children, AllNodes(rules, vs, top.tag)))] + below, false)
    decreases vs, 0
  {
    if vs == [] {
      assert AllTokens(rules, vs) + rest == rest;
    } else {
      Associates(Tokens(rules, vs[0]), AllTokens(rules, vs[1..]), rest);
      BuildsNode(rules, vs[0], AllTokens(rules, vs[1..]) + rest, top, below);
      var next := top.(children := JoinAll(top.children, Nodes(rules, vs[0], top.tag)));
      BuildsAll(rules, vs[1..], rest, next, below);
      JoinAllConcat(top.children, Nodes(rules, vs[0], top.tag), AllNodes(rules, vs[1..], top.tag));
    }
  }

  lemma {:induction false} BuildsElement(rules: Rules, tag: string, attrs: seq<Attr>, children: seq<VNode>, doubled: seq<Token>, rest: seq<Token>, top: Open, below: seq<Open>)
    requires tag !in VOID_TAGS && (forall i :: 0 <= i < |children| ==> Readable(children[i])) && RenderAll(rules, children, None, Html).Ok?
    requires var inner := AllTokens(rules, children);
             doubled == if tag in NEWLINE_STRIPPING_TAGS && inner != [] && inner[0] == Char('\n') then [Char('\n')] else []
    ensures Build([StartTag(tag, attrs)] + (doubled + (AllTokens(rules, children) + ([EndTag(tag)] + rest))), [top] + below, false)
         == Build(rest, [top.(children := Join(top.children, Element(tag, attrs, JoinAll([], AllNodes(rules, children, tag)))))] + below, false)
    decreases children, 1
  {
    var inner := AllTokens(rules, children);
    var end := [EndTag(tag)] + rest;
    var body := inner + end;
    var open := Open(tag, attrs, []);
    var outer := [top] + below;
    var skip := tag in NEWLINE_STRIPPING_TAGS;
    var all := [StartTag(tag, attrs)] + (doubled + body);
    assert all[0] == StartTag(tag, attrs) && all[1..] == doubled + body;
    assert Build(all, outer, false) == Build(doubled + body, [open] + outer, skip);
    Opens(doubled, inner, body, [open] + outer, skip, tag, rest);
    BuildsAll(rules, children, end, open, outer);
    Closes(tag, attrs, JoinAll([], AllNodes(rules, children, tag)), rest, top, below);
    hide Build, JoinAll, AllTokens, AllNodes;
  }

  /** After a start tag the doubled newline is dropped, and nothing else is. */
  lemma Opens(doubled: seq<Token>, inner: seq<Token>, body: seq<Token>, stack: seq<Open>, skip: bool, tag: string, rest: seq<Token>)
    requires stack != [] && body == inner + ([EndTag(tag)] + rest)
    requires doubled == if skip && inner != [] && inner[0] == Char('\n') then [Char('\n')] else []
    ensures Build(doubled + body, stack, skip) == Build(body, stack, false)
  {
    if doubled != [] {
      assert (doubled + body)[0] == Char('\n') && (doubled + body)[1..] == body;
    } else {
      assert doubled + body == body;
      if skip {
        assert body[0] == if inner != [] then inner[0] else EndTag(tag);
        NothingSkipped(body, stack);
      }
    }
  }

  lemma Closes(tag: string, attrs: seq<Attr>, children: seq<Node>, rest: seq<Token>, top: Open, below: seq<Open>)
    ensures Build([EndTag(tag)] + rest, [Open(tag, attrs, children)] + ([top] + below), false)
         == Build(rest, [top.(children := Join(top.children, Element(tag, attrs, children)))] + below, false)
  {
    var end, stack := [EndTag(tag)] + rest, [Open(tag, attrs, children)] + ([top] + below);
    assert end[0] == EndTag(tag) && end[1..] == rest;
    assert stack[0] == Open(tag, attrs, children) && stack[1..] == [top] + below;
    assert ([top] + below)[0] == top && ([top] + below)[1..] == below;
  }

  /** Reading what was rendered gives the tree with fragments spliced, empty text dropped and
      neighbouring text merged; a U+0000 is dropped or replaced. */
  lemma RenderedIsRead(rules: Rules, v: VNode)
    requires Readable(v) && RenderNode(rules, v, None, Html).Ok?
    ensures Read(RenderNode(rules, v, None, Html).value) == JoinAll([], Nodes(rules, v, ""))
  {
    var html := RenderNode(rules, v, None, Html).value;
    ReadsNode(rules, v, "");
    assert html + "" == html;
    var root := Open("", [], []);
    BuildsNode(rules, v, [], root, []);
    assert [root] + [] == [root];
    var done := root.(children := JoinAll([], Nodes(rules, v, "")));
    assert [done] + [] == [done];
  }

  // ---------------------------------------------------------------- the round trip

  /** No text and no printed attribute value holds U+0000. */
  predicate NullFree(rules: Rules, v: VNode)
    decreases v, 1
  {
    match v
    case VText(value) => '\0' !in value
    case VFragment(children) => AllNullFree(rules, children)
    case VElement(tag, attrs, props, styles, children) =>
      match AllAttributes(rules, tag, attrs, props, styles)
      case Err(_) => true
      case Ok(entries) => CleanAttrs(GivenAttrs(entries)) && (tag in VOID_TAGS || AllNullFree(rules, children))
  }

  predicate AllNullFree(rules: Rules, vs: seq<VNode>)
    decreases vs, 0
  {
    forall i :: 0 <= i < |vs| ==> NullFree(rules, vs[i])
  }

  /** The round trip: reading what was rendered gives the tree that was meant, every text and
      attribute value as it was, if and only if none of them holds U+0000. */
  lemma RenderedIsReadBackIff(rules: Rules, v: VNode)
    requires Readable(v) && RenderNode(rules, v, None, Html).Ok?
    ensures Read(RenderNode(rules, v, None, Html).value) == JoinAll([], Given(rules, v)) <==> NullFree(rules, v)
  {
    RenderedIsRead(rules, v);
    if NullFree(rules, v) {
      ReadAsGiven(rules, v, "");
    }
    if JoinAll([], Nodes(rules, v, "")) == JoinAll([], Given(rules, v)) {
      ReadIsClean(rules, v, "");
      JoinAllClean([], Nodes(rules, v, ""));
      JoinAllClean([], Given(rules, v));
      GivenClean(rules, v);
    }
  }

  lemma {:induction false} ReadAsGiven(rules: Rules, v: VNode, parent: string)
    requires NullFree(rules, v)
    ensures Nodes(rules, v, parent) == Given(rules, v)
    decreases v, 1
  {
    match v
    case VText(_) =>
    case VFragment(children) => AllReadAsGiven(rules, children, parent);
    case VElement(tag, attrs, props, styles, children) =>
      var entries := AllAttributes(rules, tag, attrs, props, styles);
      if entries.Ok? { ReadBackIsGiven(entries.value); }
      if entries.Ok? && tag !in VOID_TAGS { AllReadAsGiven(rules, children, tag); }
  }

  lemma {:induction false} AllReadAsGiven(rules: Rules, vs: seq<VNode>, parent: string)
    requires AllNullFree(rules, vs)
    ensures AllNodes(rules, vs, parent) == AllGiven(rules, vs)
    decreases vs, 0
  {
    if vs != [] {
      ReadAsGiven(rules, vs[0], parent);
      assert AllNullFree(rules, vs[1..]) by { forall i | 0 <= i < |vs[1..]| ensures NullFree(rules, vs[1..][i]) { assert vs[1..][i] == vs[i + 1]; } }
      AllReadAsGiven(rules, vs[1..], parent);
    }
  }

  lemma {:induction false} ReadBackIsGiven(entries: seq<Entry>)
    ensures CleanAttrs(ReadBack(entries))
    ensures CleanAttrs(GivenAttrs(entries)) ==> ReadBack(entries) == GivenAttrs(entries)
  {
    if entries != [] {
      ReadBackIsGiven(entries[1..]);
      if !Skipped(entries[0]) {
        var rest := GivenAttrs(entries[1..]);
        assert GivenAttrs(entries)[1..] == rest;
        assert CleanAttrs(GivenAttrs(entries)) ==> CleanAttrs(rest) by {
          forall i | 0 <= i < |rest| && CleanAttrs(GivenAttrs(entries)) ensures '\0' !in rest[i].value { assert rest[i] == GivenAttrs(entries)[i + 1]; }
        }
        assert CleanAttrs(GivenAttrs(entries)) ==> '\0' !in GivenAttrs(entries)[0].value;
      }
    }
  }

  lemma {:induction false} ReadIsClean(rules: Rules, v: VNode, parent: string)
    ensures Clean(Nodes(rules, v, parent))
    decreases v, 1
  {
    match v
    case VText(_) =>
    case VFragment(children) => AllReadIsClean(rules, children, parent);
    case VElement(tag, attrs, props, styles, children) =>
      var entries := AllAttributes(rules, tag, attrs, props, styles);
      if entries.Ok? {
        ReadBackIsGiven(entries.value);
        AllReadIsClean(rules, children, tag);
        JoinAllClean([], AllNodes(rules, children, tag));
      }
  }

  lemma {:induction false} AllReadIsClean(rules: Rules, vs: seq<VNode>, parent: string)
    ensures Clean(AllNodes(rules, vs, parent))
    decreases vs, 0
  {
    if vs != [] {
      ReadIsClean(rules, vs[0], parent);
      AllReadIsClean(rules, vs[1..], parent);
      CleanConcat(Nodes(rules, vs[0], parent), AllNodes(rules, vs[1..], parent));
    }
  }

  lemma {:induction false} GivenClean(rules: Rules, v: VNode)
    ensures Clean(Given(rules, v)) <==> NullFree(rules, v)
    decreases v, 1
  {
    match v
    case VText(value) => assert value != "" ==> Given(rules, v)[0] == TextNode(value);
    case VFragment(children) => AllGivenClean(rules, children);
    case VElement(tag, attrs, props, styles, children) =>
      var entries := AllAttributes(rules, tag, attrs, props, styles);
      if entries.Ok? {
        var node := Given(rules, v)[0];
        CleanOne(node);
        assert Given(rules, v) == [node];
        AllGivenClean(rules, children);
        JoinAllClean([], AllGiven(rules, children));
      }
  }

  lemma {:induction false} AllGivenClean(rules: Rules, vs: seq<VNode>)
    ensures Clean(AllGiven(rules, vs)) <==> AllNullFree(rules, vs)
    decreases vs, 0
  {
    if vs != [] {
      GivenClean(rules, vs[0]);
      AllGivenClean(rules, vs[1..]);
      CleanConcat(Given(rules, vs[0]), AllGiven(rules, vs[1..]));
      assert vs == [vs[0]] + vs[1..];
      assert AllNullFree(rules, vs) <==> NullFree(rules, vs[0]) && AllNullFree(rules, vs[1..]) by {
        forall i | 0 <= i < |vs[1..]| && AllNullFree(rules, vs) ensures NullFree(rules, vs[1..][i]) { assert vs[1..][i] == vs[i + 1]; }
      }
    }
  }

  /** A text that does not come back, ... */
  lemma NullTextIsLost(rules: Rules)
    ensures RenderNode(rules, VText("\0"), None, Html) == Ok("\0") && Read("\0") == [] && Given(rules, VText("\0")) == [TextNode("\0")]
  {
    hide EscapeText;
    EscapeOne('\0');
    RenderedIsRead(rules, VText("\0"));
    assert "\0"[1..] == "";
  }

  /** ... and an attribute value. */
  lemma NullAttributeIsLost(rules: Rules)
    ensures var v := VElement("br", [Entry("title", Text("\0"))], [], [], []);
            && Readable(v) && RenderNode(rules, v, None, Html).Ok?
            && Read(RenderNode(rules, v, None, Html).value) != JoinAll([], Given(rules, v))
  {
    hide EscapeText, EscapeAttribute;
    var entry := Entry("title", Text("\0"));
    var v := VElement("br", [entry], [], [], []);
    assert ValidAttribute("title") && ValidTag("br") && [entry][1..] == [];
    assert AllAttributes(rules, "br", [entry], [], []) == Ok([entry]);
    assert GivenAttrs([entry])[0].value == "\0";
    assert PrintEntries(rules, [entry], Html).Ok?;
    hide ValidAttribute, ValidTag, Read, JoinAll;
    RenderedIsReadBackIff(rules, v);
  }

  /** What is read back has no empty and no neighbouring text, and the same text and elements. */
  lemma ReadBackIsMerged(rules: Rules, v: VNode, parent: string)
    ensures var nodes := JoinAll([], Nodes(rules, v, parent));
            Merged(nodes) && TextOf(nodes) == TextOf(Nodes(rules, v, parent)) && ElementsOf(nodes) == ElementsOf(Nodes(rules, v, parent))
  {
    NodesNotEmpty(rules, v, parent);
    JoinAllMerges([], Nodes(rules, v, parent));
    JoinAllKeepsText([], Nodes(rules, v, parent));
    JoinAllKeepsElements([], Nodes(rules, v, parent));
  }

  lemma {:induction false} NodesNotEmpty(rules: Rules, v: VNode, parent: string)
    ensures forall i :: 0 <= i < |Nodes(rules, v, parent)| && Nodes(rules, v, parent)[i].TextNode? ==> Nodes(rules, v, parent)[i].value != ""
    decreases v, 1
  {
    match v
    case VFragment(children) => AllNodesNotEmpty(rules, children, parent);
    case _ =>
  }

  lemma {:induction false} AllNodesNotEmpty(rules: Rules, vs: seq<VNode>, parent: string)
    ensures forall i :: 0 <= i < |AllNodes(rules, vs, parent)| && AllNodes(rules, vs, parent)[i].TextNode? ==> AllNodes(rules, vs, parent)[i].value != ""
    decreases vs, 0
  {
    if vs != [] {
      NodesNotEmpty(rules, vs[0], parent);
      AllNodesNotEmpty(rules, vs[1..], parent);
    }
  }
}
