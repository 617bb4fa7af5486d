/** Message maps: commands, subscriptions and DOM events carry a nest of message mappers in three
    different ways. All three dispatch the same message, and programs strip what they added. */
module MessageMaps {
  import opened Options

  type HandlerId = nat
  type Payload = nat

  /** A message on its way to the program. `Mapped` asks for the handler to be applied to the rest. */
  datatype Message =
    | Value(value: Payload)
    | Event(handler: HandlerId, payload: Payload)
    | Subscription(payload: Payload)
    | Mapped(handler: HandlerId, message: Message)

  /** Commands or subscriptions. A leaf stands for the message it sends when it fires. */
  datatype Envelope = Nothing | Leaf(message: Message) | Batch(children: seq<Envelope>) | MapOver(handler: HandlerId, child: Envelope)

  /** Markup as a program produces it, with mappers around parts of it, ... */
  datatype Html = Text | Fragment(children: seq<Html>) | Element(events: seq<Message>, children: seq<Html>) | MapHtml(handler: HandlerId, child: Html)

  /** ... and normalized: every event carries the mappers around it, the innermost first. */
  datatype Listener = Listener(message: Message, mappers: seq<HandlerId>)
  datatype VNode = VText | VFragment(children: seq<VNode>) | VElement(events: seq<Listener>, children: seq<VNode>)

  // ---------------------------------------------------------------- what is meant

  /** The message under the mappers `hs`, of which the first is the outermost. */
  function Under(hs: seq<HandlerId>, m: Message): Message {
    if hs == [] then m else Mapped(hs[0], Under(hs[1..], m))
  }

  lemma {:induction false} UnderInner(hs: seq<HandlerId>, h: HandlerId, m: Message)
    ensures Under(hs + [h], m) == Under(hs, Mapped(h, m))
  {
    if hs == [] {
      assert [h][1..] == [];
    } else {
      assert (hs + [h])[1..] == hs[1..] + [h];
      UnderInner(hs[1..], h, m);
    }
  }

  /** The messages that the leaves of `e` send from under `hs`, in order. */
  function Sent(e: Envelope, hs: seq<HandlerId>): seq<Message> {
    match e
    case Nothing => []
    case Leaf(m) => [Under(hs, m)]
    case Batch(children) => SentAll(children, hs)
    case MapOver(h, child) => Sent(child, hs + [h])
  }

  function SentAll(es: seq<Envelope>, hs: seq<HandlerId>): seq<Message> {
    if es == [] then [] else Sent(es[0], hs) + SentAll(es[1..], hs)
  }

  /** The messages that the events of `v` send from under `hs`, in document order. */
  function Fired(v: Html, hs: seq<HandlerId>): seq<Message> {
    match v
    case Text => []
    case Fragment(children) => FiredAll(children, hs)
    case Element(events, children) => AllUnder(events, hs) + FiredAll(children, hs)
    case MapHtml(h, child) => Fired(child, hs + [h])
  }

  function FiredAll(vs: seq<Html>, hs: seq<HandlerId>): seq<Message> {
    if vs == [] then [] else Fired(vs[0], hs) + FiredAll(vs[1..], hs)
  }

  function AllUnder(ms: seq<Message>, hs: seq<HandlerId>): seq<Message> {
    seq(|ms|, i requires 0 <= i < |ms| => Under(hs, ms[i]))
  }

  // ---------------------------------------------------------------- commands: composed contexts

  /** A context that dispatches under mapper `h`. */
  function MapContext(context: Message -> Message, h: HandlerId): Message -> Message {
    m => context(Mapped(h, m))
  }

  /** What running commands dispatches, each leaf in the context it was reached with. */
  function Run(e: Envelope, context: Message -> Message): seq<Message> {
    match e
    case Nothing => []
    case Leaf(m) => [context(m)]
    case Batch(children) => RunAll(children, context)
    case MapOver(h, child) => Run(child, MapContext(context, h))
  }

  function RunAll(es: seq<Envelope>, context: Message -> Message): seq<Message> {
    if es == [] then [] else Run(es[0], context) + RunAll(es[1..], context)
  }

  lemma {:induction false} CommandsAgree(e: Envelope, context: Message -> Message, hs: seq<HandlerId>)
    requires forall m :: context(m) == Under(hs, m)
    ensures Run(e, context) == Sent(e, hs)
    decreases e, 1
  {
    match e
    case Nothing =>
    case Leaf(m) =>
    case Batch(children) => AllCommandsAgree(children, context, hs);
    case MapOver(h, child) =>
      forall m ensures MapContext(context, h)(m) == Under(hs + [h], m) { UnderInner(hs, h, m); }
      CommandsAgree(child, MapContext(context, h), hs + [h]);
  }

  lemma {:induction false} AllCommandsAgree(es: seq<Envelope>, context: Message -> Message, hs: seq<HandlerId>)
    requires forall m :: context(m) == Under(hs, m)
    ensures RunAll(es, context) == SentAll(es, hs)
    decreases es, 0
  {
    if es != [] {
      CommandsAgree(es[0], context, hs);
      AllCommandsAgree(es[1..], context, hs);
    }
  }

  // ---------------------------------------------------------------- subscriptions: lists, outermost first

  datatype Active = Active(message: Message, mappers: seq<HandlerId>)

  /** Subscriptions without their structure, each with the mappers around it, the outermost first. */
  function Flatten(e: Envelope, hs: seq<HandlerId>): seq<Active> {
    match e
    case Nothing => []
    case Leaf(m) => [Active(m, hs)]
    case Batch(children) => FlattenAll(children, hs)
    case MapOver(h, child) => Flatten(child, hs + [h])
  }

  function FlattenAll(es: seq<Envelope>, hs: seq<HandlerId>): seq<Active> {
    if es == [] then [] else Flatten(es[0], hs) + FlattenAll(es[1..], hs)
  }

  /** Folds a list of mappers from the right around a message. */
  function FoldRight(m: Message, hs: seq<HandlerId>): Message
    decreases |hs|
  {
    if hs == [] then m else FoldRight(Mapped(hs[|hs| - 1], m), hs[..|hs| - 1])
  }

  lemma {:induction false} FoldRightIsUnder(m: Message, hs: seq<HandlerId>)
    ensures FoldRight(m, hs) == Under(hs, m)
    decreases |hs|
  {
    if hs != [] {
      var last := |hs| - 1;
      FoldRightIsUnder(Mapped(hs[last], m), hs[..last]);
      UnderInner(hs[..last], hs[last], m);
      assert hs[..last] + [hs[last]] == hs;
    }
  }

  /** What the subscriptions dispatch when each fires once. */
  function FireSubscriptions(subs: seq<Active>): seq<Message> {
    seq(|subs|, i requires 0 <= i < |subs| => FoldRight(subs[i].message, subs[i].mappers))
  }

  lemma {:induction false} SubscriptionsAgree(e: Envelope, hs: seq<HandlerId>)
    ensures FireSubscriptions(Flatten(e, hs)) == Sent(e, hs)
    decreases e, 1
  {
    match e
    case Nothing =>
    case Leaf(m) => FoldRightIsUnder(m, hs);
    case Batch(children) => AllSubscriptionsAgree(children, hs);
    case MapOver(h, child) => SubscriptionsAgree(child, hs + [h]);
  }

  lemma {:induction false} AllSubscriptionsAgree(es: seq<Envelope>, hs: seq<HandlerId>)
    ensures FireSubscriptions(FlattenAll(es, hs)) == SentAll(es, hs)
    decreases es, 0
  {
    if es != [] {
      SubscriptionsAgree(es[0], hs);
      AllSubscriptionsAgree(es[1..], hs);
      var a, b := Flatten(es[0], hs), FlattenAll(es[1..], hs);
      assert FireSubscriptions(a + b) == FireSubscriptions(a) + FireSubscriptions(b);
    }
  }

  // ---------------------------------------------------------------- DOM events: lists, innermost first

  /** Adds mapper `h` to every event of `v`, after the ones it has. */
  function AddMapper(v: VNode, h: HandlerId): VNode {
    match v
    case VText => v
    case VFragment(children) => VFragment(AddMappers(children, h))
    case VElement(events, children) =>
      VElement(seq(|events|, i requires 0 <= i < |events| => events[i].(mappers := events[i].mappers + [h])),
               AddMappers(children, h))
  }

  function AddMappers(vs: seq<VNode>, h: HandlerId): seq<VNode> {
    if vs == [] then [] else [AddMapper(vs[0], h)] + AddMappers(vs[1..], h)
  }

  function Normalize(v: Html): VNode {
    match v
    case Text => VText
    case Fragment(children) => VFragment(NormalizeAll(children))
    case Element(events, children) =>
      VElement(seq(|events|, i requires 0 <= i < |events| => Listener(events[i], [])), NormalizeAll(children))
    case MapHtml(h, child) => AddMapper(Normalize(child), h)
  }

  function NormalizeAll(vs: seq<Html>): seq<VNode> {
    if vs == [] then [] else [Normalize(vs[0])] + NormalizeAll(vs[1..])
  }

  /** Folds a list of mappers from the left around a message. */
  function FoldLeft(m: Message, hs: seq<HandlerId>): Message
    decreases |hs|
  {
    if hs == [] then m else FoldLeft(Mapped(hs[0], m), hs[1..])
  }

  lemma {:induction false} FoldLeftLast(m: Message, hs: seq<HandlerId>, h: HandlerId)
    ensures FoldLeft(m, hs + [h]) == Mapped(h, FoldLeft(m, hs))
    decreases |hs|
  {
    if hs == [] {
      assert [h][1..] == [];
    } else {
      assert (hs + [h])[1..] == hs[1..] + [h];
      FoldLeftLast(Mapped(hs[0], m), hs[1..], h);
    }
  }

  function FireListeners(events: seq<Listener>): seq<Message> {
    seq(|events|, i requires 0 <= i < |events| => FoldLeft(events[i].message, events[i].mappers))
  }

  /** What the events of `v` dispatch when each fires once, in document order. */
  function FireEvents(v: VNode): seq<Message> {
    match v
    case VText => []
    case VFragment(children) => FireAllEvents(children)
    case VElement(events, children) => FireListeners(events) + FireAllEvents(children)
  }

  function FireAllEvents(vs: seq<VNode>): seq<Message> {
    if vs == [] then [] else FireEvents(vs[0]) + FireAllEvents(vs[1..])
  }

  /** A mapper that is added to all events ends up outermost. */
  lemma {:induction false} AddedOutside(v: VNode, h: HandlerId)
    ensures FireEvents(AddMapper(v, h)) == AllUnder(FireEvents(v), [h])
    decreases v, 1
  {
    match v
    case VText =>
    case VFragment(children) => AllAddedOutside(children, h);
    case VElement(events, children) =>
      AllAddedOutside(children, h);
      forall i | 0 <= i < |events| ensures FireListeners(AddMapper(v, h).events)[i] == Under([h], FireListeners(events)[i]) {
        FoldLeftLast(events[i].message, events[i].mappers, h);
        assert [h][1..] == [];
      }
      assert FireListeners(AddMapper(v, h).events) == AllUnder(FireListeners(events), [h]);
      AllUnderConcat(FireListeners(events), FireAllEvents(children), [h]);
  }

  lemma AllUnderConcat(a: seq<Message>, b: seq<Message>, hs: seq<HandlerId>)
    ensures AllUnder(a + b, hs) == AllUnder(a, hs) + AllUnder(b, hs)
  {
  }

  lemma {:induction false} AllAddedOutside(vs: seq<VNode>, h: HandlerId)
    ensures FireAllEvents(AddMappers(vs, h)) == AllUnder(FireAllEvents(vs), [h])
    decreases vs, 0
  {
    if vs != [] {
      AddedOutside(vs[0], h);
      AllAddedOutside(vs[1..], h);
      assert AddMappers(vs, h)[1..] == AddMappers(vs[1..], h);
      AllUnderConcat(FireEvents(vs[0]), FireAllEvents(vs[1..]), [h]);
    }
  }

  lemma {:induction false} UnderOuter(ms: seq<Message>, hs: seq<HandlerId>, more: seq<HandlerId>)
    ensures AllUnder(AllUnder(ms, more), hs) == AllUnder(ms, hs + more)
  {
    forall i | 0 <= i < |ms| ensures Under(hs, Under(more, ms[i])) == Under(hs + more, ms[i]) {
      UnderBoth(hs, more, ms[i]);
    }
  }

  lemma {:induction false} UnderBoth(hs: seq<HandlerId>, more: seq<HandlerId>, m: Message)
    ensures Under(hs, Under(more, m)) == Under(hs + more, m)
  {
    if hs == [] {
      assert hs + more == more;
    } else {
      assert (hs + more)[1..] == hs[1..] + more;
      UnderBoth(hs[1..], more, m);
    }
  }

  /** Firing under more mappers puts them around every message. */
  lemma {:induction false} FiredUnder(v: Html, hs: seq<HandlerId>, more: seq<HandlerId>)
    ensures AllUnder(Fired(v, more), hs) == Fired(v, hs + more)
    decreases v, 1
  {
    match v
    case Text =>
    case Fragment(children) => AllFiredUnder(children, hs, more);
    case Element(events, children) =>
      AllFiredUnder(children, hs, more);
      UnderOuter(events, hs, more);
      AllUnderConcat(AllUnder(events, more), FiredAll(children, more), hs);
    case MapHtml(h, child) =>
      FiredUnder(child, hs, more + [h]);
      assert hs + (more + [h]) == (hs + more) + [h];
  }

  lemma {:induction false} AllFiredUnder(vs: seq<Html>, hs: seq<HandlerId>, more: seq<HandlerId>)
    ensures AllUnder(FiredAll(vs, more), hs) == FiredAll(vs, hs + more)
    decreases vs, 0
  {
    if vs != [] {
      FiredUnder(vs[0], hs, more);
      AllFiredUnder(vs[1..], hs, more);
      AllUnderConcat(Fired(vs[0], more), FiredAll(vs[1..], more), hs);
    }
  }

  lemma {:induction false} EventsAgree(v: Html)
    ensures FireEvents(Normalize(v)) == Fired(v, [])
    decreases v, 1
  {
    match v
    case Text =>
    case Fragment(children) => AllEventsAgree(children);
    case Element(events, children) =>
      AllEventsAgree(children);
      assert FireListeners(Normalize(v).events) == AllUnder(events, []);
    case MapHtml(h, child) =>
      EventsAgree(child);
      AddedOutside(Normalize(child), h);
      FiredUnder(child, [h], []);
      assert [h] + [] == [] + [h];
  }

  lemma {:induction false} AllEventsAgree(vs: seq<Html>)
    ensures FireAllEvents(NormalizeAll(vs)) == FiredAll(vs, [])
    decreases vs, 0
  {
    if vs != [] {
      EventsAgree(vs[0]);
      AllEventsAgree(vs[1..]);
      assert NormalizeAll(vs)[1..] == NormalizeAll(vs[1..]);
    }
  }

  /** Markup with one event in place of every leaf of `e`, under the same mappers. */
  function AsHtml(e: Envelope): Html {
    match e
    case Nothing => Text
    case Leaf(m) => Element([m], [])
    case Batch(children) => Fragment(AllAsHtml(children))
    case MapOver(h, child) => MapHtml(h, AsHtml(child))
  }

  function AllAsHtml(es: seq<Envelope>): seq<Html> {
    if es == [] then [] else [AsHtml(es[0])] + AllAsHtml(es[1..])
  }

  lemma {:induction false} AsHtmlFires(e: Envelope, hs: seq<HandlerId>)
    ensures Fired(AsHtml(e), hs) == Sent(e, hs)
    decreases e, 1
  {
    match e
    case Nothing =>
    case Leaf(m) => assert AllUnder([m], hs) == [Under(hs, m)];
    case Batch(children) => AllAsHtmlFire(children, hs);
    case MapOver(h, child) => AsHtmlFires(child, hs + [h]);
  }

  lemma {:induction false} AllAsHtmlFire(es: seq<Envelope>, hs: seq<HandlerId>)
    ensures FiredAll(AllAsHtml(es), hs) == SentAll(es, hs)
    decreases es, 0
  {
    if es != [] {
      AsHtmlFires(es[0], hs);
      AllAsHtmlFire(es[1..], hs);
      assert AllAsHtml(es)[1..] == AllAsHtml(es[1..]);
    }
  }

  /** Under the same nest of mappers, commands, subscriptions and DOM events dispatch the same. */
  lemma ThreeWaysAgree(e: Envelope)
    ensures Run(e, m => m) == FireSubscriptions(Flatten(e, [])) == FireEvents(Normalize(AsHtml(e)))
  {
    CommandsAgree(e, m => m, []);
    SubscriptionsAgree(e, []);
    EventsAgree(AsHtml(e));
    AsHtmlFires(e, []);
  }

  // ---------------------------------------------------------------- resolving a message

  /** The retained callbacks of the host. A callback that yields nothing sends nothing. */
  datatype Host = NoCallbacks | Callbacks(event: (HandlerId, Payload) -> Option<Payload>, apply: (HandlerId, Payload) -> Payload)

  function Resolve(host: Host, message: Message): Option<Payload> {
    match message
    case Value(v) => Some(v)
    case Subscription(p) => Some(p)
    case Event(h, p) => if host.NoCallbacks? then Some(p) else host.event(h, p)
    case Mapped(h, inner) =>
      match Resolve(host, inner)
      case None => None
      case Some(v) => Some(if host.NoCallbacks? then v else host.apply(h, v))
  }

  /** The mappers `hs` applied to `v`, the last one first. */
  function Composed(apply: (HandlerId, Payload) -> Payload, hs: seq<HandlerId>, v: Payload): Payload {
    if hs == [] then v else apply(hs[0], Composed(apply, hs[1..], v))
  }

  /** A nested message resolves to the composition of its mappers, the outermost applied last;
      what sends nothing still sends nothing. */
  lemma {:induction false} ResolvesToComposition(host: Host, hs: seq<HandlerId>, m: Message)
    ensures Resolve(host, m).None? ==> Resolve(host, Under(hs, m)).None?
    ensures Resolve(host, m).Some? && host.NoCallbacks? ==> Resolve(host, Under(hs, m)) == Resolve(host, m)
    ensures Resolve(host, m).Some? && host.Callbacks? ==>
              Resolve(host, Under(hs, m)) == Some(Composed(host.apply, hs, Resolve(host, m).value))
    ensures m.Value? ==> Resolve(host, Under(hs, m)) == Some(if host.Callbacks? then Composed(host.apply, hs, m.value) else m.value)
    ensures m.Subscription? ==> Resolve(host, Under(hs, m)) == Some(if host.Callbacks? then Composed(host.apply, hs, m.payload) else m.payload)
    ensures m.Event? && host.NoCallbacks? ==> Resolve(host, Under(hs, m)) == Some(m.payload)
    ensures m.Event? && host.Callbacks? ==>
              Resolve(host, Under(hs, m)) == if host.event(m.handler, m.payload).None? then None else Some(Composed(host.apply, hs, host.event(m.handler, m.payload).value))
  {
    if hs != [] { ResolvesToComposition(host, hs[1..], m); }
  }

  // ---------------------------------------------------------------- programs with mapped messages

  /** A program descriptor: the program itself, or one whose model or messages are mapped. */
  datatype Program = Base | MapModel(handler: HandlerId, child: Program) | MapMessage(handler: HandlerId, child: Program)

  /** What a program produces in one step. */
  datatype Output = Output(model: Payload, frame: Html, commands: Option<Envelope>, subscriptions: Option<Envelope>)

  /** A layer that maps messages takes off its own mapper, once. */
  function Strip(h: HandlerId, m: Message): Message {
    if m.Mapped? && m.handler == h then m.message else m
  }

  /** The message that reaches the innermost program. */
  function Received(p: Program, m: Message): Message {
    match p
    case Base => m
    case MapModel(_, child) => Received(child, m)
    case MapMessage(h, child) => Received(child, Strip(h, m))
  }

  function MapEnvelope(e: Option<Envelope>, h: HandlerId): Option<Envelope> {
    if e.None? then None else Some(MapOver(h, e.value))
  }

  /** One step of a program: `base` is the innermost step, `models` what the model mappers do. */
  function Step(p: Program, base: Message -> Output, models: (HandlerId, Payload) -> Payload, m: Message): Output {
    match p
    case Base => base(m)
    case MapModel(h, child) =>
      var out := Step(child, base, models, m);
      out.(model := models(h, out.model))
    case MapMessage(h, child) =>
      var out := Step(child, base, models, Strip(h, m));
      out.(frame := MapHtml(h, out.frame), commands := MapEnvelope(out.commands, h), subscriptions := MapEnvelope(out.subscriptions, h))
  }

  /** The message mappers of `p`, the outermost first. */
  function Mappers(p: Program): seq<HandlerId> {
    match p
    case Base => []
    case MapModel(_, child) => Mappers(child)
    case MapMessage(h, child) => [h] + Mappers(child)
  }

  /** The model mappers of `p`, the outermost first. */
  function ModelMappers(p: Program): seq<HandlerId> {
    match p
    case Base => []
    case MapModel(h, child) => [h] + ModelMappers(child)
    case MapMessage(_, child) => ModelMappers(child)
  }

  /** `m` without some of the mappers `hs`, taken off from the outside in their order. */
  ghost predicate StripsSome(hs: seq<HandlerId>, m: Message, inner: Message) {
    m == inner || (hs != [] && (StripsSome(hs[1..], m, inner) || (m.Mapped? && m.handler == hs[0] && StripsSome(hs[1..], m.message, inner))))
  }

  /** A nest of programs takes off exactly the mappers it has put on, even if an inner message
      starts with one of the same handlers. */
  lemma {:induction false} StripsWhatItAdded(p: Program, m: Message)
    ensures Received(p, Under(Mappers(p), m)) == m
  {
    match p
    case Base =>
    case MapModel(_, child) => StripsWhatItAdded(child, m);
    case MapMessage(h, child) =>
      assert Mappers(p)[1..] == Mappers(child);
      StripsWhatItAdded(child, m);
  }

  /** Any other message loses nothing but mappers of the nest. */
  lemma {:induction false} StripsNothingElse(p: Program, m: Message)
    ensures StripsSome(Mappers(p), m, Received(p, m))
  {
    match p
    case Base =>
    case MapModel(_, child) => StripsNothingElse(child, m);
    case MapMessage(h, child) =>
      assert Mappers(p)[1..] == Mappers(child);
      StripsNothingElse(child, Strip(h, m));
  }

  /** A step passes the stripped message to the innermost program, applies the model mappers to its
      model from the inside out, and puts every message mapper around what it dispatches. */
  lemma {:induction false} StepMapsEverything(p: Program, base: Message -> Output, models: (HandlerId, Payload) -> Payload, m: Message, outer: seq<HandlerId>)
    ensures var out := Step(p, base, models, m);
            var inner := base(Received(p, m));
            && (out.commands.Some? <==> inner.commands.Some?) && (out.subscriptions.Some? <==> inner.subscriptions.Some?)
            && (out.commands.Some? ==> Sent(out.commands.value, outer) == Sent(inner.commands.value, outer + Mappers(p)))
            && (out.subscriptions.Some? ==> Sent(out.subscriptions.value, outer) == Sent(inner.subscriptions.value, outer + Mappers(p)))
            && Fired(out.frame, outer) == Fired(inner.frame, outer + Mappers(p))
            && out.model == Composed(models, ModelMappers(p), inner.model)
  {
    match p
    case Base => assert outer + [] == outer;
    case MapModel(h, child) =>
      StepMapsEverything(child, base, models, m, outer);
      assert ModelMappers(p)[1..] == ModelMappers(child);
    case MapMessage(h, child) =>
      StepMapsEverything(child, base, models, Strip(h, m), outer + [h]);
      assert outer + ([h] + Mappers(child)) == (outer + [h]) + Mappers(child);
  }

  lemma {:induction false} SentUnder(e: Envelope, hs: seq<HandlerId>, more: seq<HandlerId>)
    ensures Sent(e, hs + more) == AllUnder(Sent(e, more), hs)
    decreases e, 1
  {
    match e
    case Nothing =>
    case Leaf(m) => UnderBoth(hs, more, m);
    case Batch(children) => AllSentUnder(children, hs, more);
    case MapOver(h, child) =>
      SentUnder(child, hs, more + [h]);
      assert hs + (more + [h]) == (hs + more) + [h];
  }

  lemma {:induction false} AllSentUnder(es: seq<Envelope>, hs: seq<HandlerId>, more: seq<HandlerId>)
    ensures SentAll(es, hs + more) == AllUnder(SentAll(es, more), hs)
    decreases es, 0
  {
    if es != [] {
      SentUnder(es[0], hs, more);
      AllSentUnder(es[1..], hs, more);
      AllUnderConcat(Sent(es[0], more), SentAll(es[1..], more), hs);
    }
  }

  /** The message at `i` among `sent` reaches the innermost program as the one at `i` among `meant`. */
  ghost predicate ComeBack(p: Program, sent: seq<Message>, meant: seq<Message>, i: nat) {
    |sent| == |meant| && (i < |sent| ==> Received(p, sent[i]) == meant[i])
  }

  /** The whole loop: whatever a command or event of the innermost program sends comes back to it
      as it was sent, however the program is nested. */
  lemma MessagesComeBack(p: Program, base: Message -> Output, models: (HandlerId, Payload) -> Payload, m: Message, i: nat)
    ensures var out := Step(p, base, models, m);
            var inner := base(Received(p, m));
            && (out.commands.Some? <==> inner.commands.Some?)
            && (out.commands.Some? ==> ComeBack(p, Run(out.commands.value, x => x), Sent(inner.commands.value, []), i))
            && (out.subscriptions.Some? <==> inner.subscriptions.Some?)
            && (out.subscriptions.Some? ==>
                  ComeBack(p, FireSubscriptions(Flatten(out.subscriptions.value, [])), Sent(inner.subscriptions.value, []), i))
            && ComeBack(p, FireEvents(Normalize(out.frame)), Fired(inner.frame, []), i)
  {
    var out := Step(p, base, models, m);
    var inner := base(Received(p, m));
    var hs := Mappers(p);
    StepMapsEverything(p, base, models, m, []);
    assert [] + hs == hs && hs + [] == hs;
    if out.commands.Some? {
      CommandsAgree(out.commands.value, x => x, []);
      SentUnder(inner.commands.value, hs, []);
      if i < |Sent(inner.commands.value, [])| { StripsWhatItAdded(p, Sent(inner.commands.value, [])[i]); }
    }
    if out.subscriptions.Some? {
      SubscriptionsAgree(out.subscriptions.value, []);
      SentUnder(inner.subscriptions.value, hs, []);
      if i < |Sent(inner.subscriptions.value, [])| { StripsWhatItAdded(p, Sent(inner.subscriptions.value, [])[i]); }
    }
    EventsAgree(out.frame);
    FiredUnder(inner.frame, hs, []);
    if i < |Fired(inner.frame, [])| { StripsWhatItAdded(p, Fired(inner.frame, [])[i]); }
  }
}
