/** An element knows its listeners by a key that joins the parts of an event with colons. The key
    tells events apart, and gives back the name of the event, unless a name contains a colon. */
module EventKeys {
  /** What a listener does: it calls a retained handler or sends a message, given by its text. */
  datatype Action = Handler(id: nat) | Message(text: string)

  datatype Event = Event(
    name: string,
    action: Action,
    mappers: seq<nat>,
    capture: bool,
    passive: bool,
    preventDefault: bool,
    stopPropagation: bool,
    pointerCapture: bool)

  function Decimal(n: nat): (s: string)
    ensures |s| > 0
  {
    (if n < 10 then "" else Decimal(n / 10)) + ["0123456789"[n % 10]]
  }

  function ActionText(a: Action): string {
    match a
    case Handler(id) => Decimal(id)
    case Message(text) => "message:" + text
  }

  function Joined(ms: seq<nat>): string {
    if ms == [] then ""
    else if |ms| == 1 then Decimal(ms[0])
    else Decimal(ms[0]) + [','] + Joined(ms[1..])
  }

  function Bit(b: bool): char {
    if b then '1' else '0'
  }

  function Flags(e: Event): (s: string)
    ensures |s| == 9
  {
    [Bit(e.capture), ':', Bit(e.passive), ':', Bit(e.preventDefault), ':', Bit(e.stopPropagation), ':', Bit(e.pointerCapture)]
  }

  function KeyOf(e: Event): string {
    e.name + [':'] + (ActionText(e.action) + [':'] + Joined(e.mappers) + [':'] + Flags(e))
  }

  /** The part of a key before the first colon. */
  function FirstPart(key: string): string {
    if key == "" || key[0] == ':' then "" else [key[0]] + FirstPart(key[1..])
  }

  predicate ColonFree(e: Event) {
    ':' !in e.name
  }

  // ---------------------------------------------------------------- splitting at a separator

  lemma BeforeSeparator(a: string, x: string, c: char)
    requires c !in a
    ensures forall n :: 0 <= n < |a| ==> (a + [c] + x)[n] != c
  {
  }

  lemma AfterSeparator(a: string, x: string, c: char)
    requires c !in x
    ensures forall n :: |a| < n < |a + [c] + x| ==> (a + [c] + x)[n] != c
  {
  }

  lemma SplitsFirst(a: string, x: string, b: string, y: string, c: char)
    requires a + [c] + x == b + [c] + y && c !in a && c !in b
    ensures a == b && x == y
  {
    var s := a + [c] + x;
    assert s[|a|] == c && s[|b|] == c;
    BeforeSeparator(a, x, c);
    BeforeSeparator(b, y, c);
    assert s[..|a|] == a && s[..|b|] == b && s[|a| + 1..] == x && s[|b| + 1..] == y;
  }

  lemma SplitsLast(a: string, x: string, b: string, y: string, c: char)
    requires a + [c] + x == b + [c] + y && c !in x && c !in y
    ensures a == b && x == y
  {
    var s := a + [c] + x;
    assert s[|a|] == c && s[|b|] == c;
    AfterSeparator(a, x, c);
    AfterSeparator(b, y, c);
    assert s[..|a|] == a && s[..|b|] == b && s[|a| + 1..] == x && s[|b| + 1..] == y;
  }

  // ---------------------------------------------------------------- numbers

  predicate Digit(c: char) {
    '0' <= c <= '9'
  }

  lemma {:induction false} DecimalDigits(n: nat, c: char)
    requires c in Decimal(n)
    ensures Digit(c)
  {
    var s := "0123456789";
    assert Digit(s[n % 10]);
    if n >= 10 && c in Decimal(n / 10) { DecimalDigits(n / 10, c); }
  }

  lemma NoSeparator(n: nat)
    ensures ':' !in Decimal(n) && ',' !in Decimal(n) && Digit(Decimal(n)[0])
  {
    if ':' in Decimal(n) { DecimalDigits(n, ':'); }
    if ',' in Decimal(n) { DecimalDigits(n, ','); }
    DecimalDigits(n, Decimal(n)[0]);
  }

  lemma DigitInjective(i: nat, j: nat)
    requires i < 10 && j < 10 && "0123456789"[i] == "0123456789"[j]
    ensures i == j
  {
    var s := "0123456789";
    assert forall k: nat :: k < 10 ==> s[k] as int == '0' as int + k;
  }

  lemma DecimalParts(n: nat)
    ensures var s := Decimal(n); s[|s| - 1] == "0123456789"[n % 10] && s[..|s| - 1] == if n < 10 then "" else Decimal(n / 10)
  {
  }

  lemma {:induction false} DecimalInjective(m: nat, n: nat)
    requires Decimal(m) == Decimal(n)
    ensures m == n
  {
    DecimalParts(m);
    DecimalParts(n);
    DigitInjective(m % 10, n % 10);
    if m >= 10 && n >= 10 { DecimalInjective(m / 10, n / 10); }
  }

  lemma {:induction false} JoinedColonFree(ms: seq<nat>)
    ensures ':' !in Joined(ms)
  {
    if ms != [] {
      NoSeparator(ms[0]);
      JoinedColonFree(ms[1..]);
    }
  }

  lemma {:induction false} JoinedInjective(ms: seq<nat>, ns: seq<nat>)
    requires Joined(ms) == Joined(ns)
    ensures ms == ns
  {
    if ms != [] && ns != [] {
      NoSeparator(ms[0]);
      NoSeparator(ns[0]);
      assert |ms| > 1 <==> ',' in Joined(ms);
      assert |ns| > 1 <==> ',' in Joined(ns);
      if |ms| == 1 && |ns| == 1 {
        DecimalInjective(ms[0], ns[0]);
      } else if |ms| > 1 && |ns| > 1 {
        SplitsFirst(Decimal(ms[0]), Joined(ms[1..]), Decimal(ns[0]), Joined(ns[1..]), ',');
        DecimalInjective(ms[0], ns[0]);
        JoinedInjective(ms[1..], ns[1..]);
        assert ms == [ms[0]] + ms[1..] && ns == [ns[0]] + ns[1..];
      }
    }
  }

  lemma ActionInjective(a: Action, b: Action)
    requires ActionText(a) == ActionText(b)
    ensures a == b
  {
    if a.Handler? { NoSeparator(a.id); }
    if b.Handler? { NoSeparator(b.id); }
    if a.Handler? && b.Handler? { DecimalInjective(a.id, b.id); }
    if a.Message? && b.Message? { assert ActionText(a)[8..] == a.text && ActionText(b)[8..] == b.text; }
  }

  // ---------------------------------------------------------------- keys

  /** Events whose names contain no colon have different keys. */
  lemma KeyInjective(a: Event, b: Event)
    requires ColonFree(a) && ColonFree(b) && KeyOf(a) == KeyOf(b)
    ensures a == b
  {
    var x, y := ActionText(a.action) + [':'] + Joined(a.mappers), ActionText(b.action) + [':'] + Joined(b.mappers);
    SplitsFirst(a.name, x + [':'] + Flags(a), b.name, y + [':'] + Flags(b), ':');
    assert (x + [':'] + Flags(a))[|x| + 1..] == Flags(a) && (y + [':'] + Flags(b))[|y| + 1..] == Flags(b);
    assert (x + [':'] + Flags(a))[..|x|] == x && (y + [':'] + Flags(b))[..|y|] == y;
    assert |x| == |y|;
    FlagsInjective(a, b);
    JoinedColonFree(a.mappers);
    JoinedColonFree(b.mappers);
    SplitsLast(ActionText(a.action), Joined(a.mappers), ActionText(b.action), Joined(b.mappers), ':');
    JoinedInjective(a.mappers, b.mappers);
    ActionInjective(a.action, b.action);
  }

  lemma FlagsInjective(a: Event, b: Event)
    requires Flags(a) == Flags(b)
    ensures b == b.(capture := a.capture, passive := a.passive, preventDefault := a.preventDefault,
                    stopPropagation := a.stopPropagation, pointerCapture := a.pointerCapture)
  {
    assert forall i :: 0 <= i < 9 ==> Flags(a)[i] == Flags(b)[i];
    assert Flags(a)[0] == Flags(b)[0] && Flags(a)[2] == Flags(b)[2] && Flags(a)[4] == Flags(b)[4] && Flags(a)[6] == Flags(b)[6] && Flags(a)[8] == Flags(b)[8];
  }

  /** Two different events may have one key when a name contains a colon. */
  lemma KeysCollide()
    ensures var a := Event("a:message", Handler(5), [], false, false, false, false, false);
            var b := Event("a", Message("5"), [], false, false, false, false, false);
            a != b && KeyOf(a) == KeyOf(b)
  {
    assert Decimal(5) == "5";
    assert "a:message" + [':'] + "5" == "a" + [':'] + ("message:" + "5");
  }

  lemma {:induction false} FirstPartOf(a: string, x: string)
    requires ':' !in a
    ensures FirstPart(a + [':'] + x) == a
  {
    if a != "" {
      assert (a + [':'] + x)[1..] == a[1..] + [':'] + x;
      FirstPartOf(a[1..], x);
    }
  }

  lemma {:induction false} FirstPartColonFree(s: string)
    ensures ':' !in FirstPart(s)
  {
    if s != "" && s[0] != ':' { FirstPartColonFree(s[1..]); }
  }

  /** The first part of its key is the name of an event if and only if that contains no colon. */
  lemma FirstPartIff(e: Event)
    ensures FirstPart(KeyOf(e)) == e.name <==> ColonFree(e)
  {
    if ColonFree(e) {
      FirstPartOf(e.name, ActionText(e.action) + [':'] + Joined(e.mappers) + [':'] + Flags(e));
    } else {
      FirstPartColonFree(KeyOf(e));
    }
  }

  // ---------------------------------------------------------------- the listeners that an element registers

  /** Of events with one key the first is registered. */
  function Recorded(events: seq<Event>): map<string, Event> {
    if events == [] then map[]
    else
      var front := Recorded(events[..|events| - 1]);
      var e := events[|events| - 1];
      if KeyOf(e) in front then front else front[KeyOf(e) := e]
  }

  lemma {:induction false} RecordedMeaning(events: seq<Event>, k: string)
    ensures k in Recorded(events) <==> exists i :: 0 <= i < |events| && KeyOf(events[i]) == k
    ensures k in Recorded(events) ==> KeyOf(Recorded(events)[k]) == k && Recorded(events)[k] in events
  {
    hide KeyOf;
    if events != [] {
      var n := |events| - 1;
      var front := events[..n];
      RecordedMeaning(front, k);
      if k in Recorded(front) {
        var i :| 0 <= i < n && KeyOf(front[i]) == k;
        assert KeyOf(events[i]) == k;
      }
      if i :| 0 <= i < |events| && KeyOf(events[i]) == k {
        if i < n { assert KeyOf(front[i]) == k; }
      }
    }
  }

  /** Nothing is lost where no name contains a colon: every event is the one registered under its key. */
  lemma AllRecorded(events: seq<Event>, e: Event)
    requires (forall x :: x in events ==> ColonFree(x)) && e in events
    ensures KeyOf(e) in Recorded(events) && Recorded(events)[KeyOf(e)] == e
  {
    var i :| 0 <= i < |events| && events[i] == e;
    assert KeyOf(events[i]) == KeyOf(e);
    RecordedMeaning(events, KeyOf(e));
    KeyInjective(Recorded(events)[KeyOf(e)], e);
  }
}
