/** From LangGraph stream items to an append-only event stream (deerflow/client.py,
    `_events_from_stream_item`): what one item does, as values. */
module StreamClient {
  import opened Text

  datatype Usage = Usage(input: int, output: int, total: int)

  const NO_USAGE := Usage(0, 0, 0)

  function Plus(a: Usage, b: Usage): Usage { Usage(a.input + b.input, a.output + b.output, a.total + b.total) }

  /** `json` is the call's canonical serialization, which stands in for a missing identifier. */
  datatype Call = Call(id: string, name: string, args: string, json: string) {
    function Key(): string { if id == "" then json else id }
  }

  /** A message; "" is a missing identifier, None an empty usage. */
  datatype Message =
    | Ai(id: string, text: string, reasoning: string, metadata: map<string, string>, usage: Option<Usage>, calls: seq<Call>)
    | Tool(id: string, callId: string, content: string)
    | Other(id: string)

  /** A stream item: a token chunk, a snapshot of the state, or a custom value. `top` is false
      for items of subgraphs. */
  datatype Item =
    | Chunk(message: Message, top: bool)
    | Snapshot(messages: seq<Message>, top: bool)
    | CustomItem
    | OtherValue

  datatype StreamEvent =
    | TextEvent(id: string, text: string, usage: Option<Usage>, reasoning: string, metadata: Option<map<string, string>>)
    | CallsEvent(id: string, calls: seq<Call>)
    | ToolEvent(id: string, callId: string, content: string)
    | ValuesEvent(messages: seq<Message>)
    | CustomEvent
    | EndEvent(total: Usage, lastLead: Option<Usage>)

  /** `_StreamProcessingState`. */
  datatype State = State(
    seen: set<string>, streamed: set<string>, counted: set<string>,
    text: map<string, string>, reasoning: map<string, string>, metadata: map<string, map<string, string>>,
    calls: map<string, set<string>>, usage: Usage, lastLead: Option<Usage>)

  /** The state at the start of a run on a thread whose checkpoint holds the messages `history`. */
  function Seeded(history: set<string>): State {
    State(history - {""}, {}, {}, map[], map[], map[], map[], NO_USAGE, None)
  }

  datatype Out = Out(state: State, events: seq<StreamEvent>)

  function Sent(texts: map<string, string>, id: string): string { if id in texts then texts[id] else "" }

  // ---- usage ----

  predicate Counts(s: State, id: string, usage: Option<Usage>) { usage.Some? && (id == "" || id !in s.counted) }

  /** `_account_usage`, and the last usage of a top-level message. */
  function Account(s: State, id: string, usage: Option<Usage>, top: bool): State {
    var t := if Counts(s, id, usage)
             then s.(counted := if id == "" then s.counted else s.counted + {id}, usage := Plus(s.usage, usage.value))
             else s;
    if top && usage.Some? then t.(lastLead := Some(Usage(usage.value.input, usage.value.output, usage.value.input + usage.value.output)))
    else t
  }

  function Reported(s: State, id: string, usage: Option<Usage>): Option<Usage> {
    if Counts(s, id, usage) then usage else None
  }

  lemma AccountKeeps(s: State, id: string, usage: Option<Usage>, top: bool)
    ensures var t := Account(s, id, usage, top);
            t.seen == s.seen && t.streamed == s.streamed && t.text == s.text && t.reasoning == s.reasoning
            && t.metadata == s.metadata && t.calls == s.calls
  {}

  // ---- token chunks ----

  function Appended(s: State, id: string, text: string, reasoning: string): State {
    if id == "" then s else
    s.(streamed := s.streamed + {id},
       text := s.text[id := Sent(s.text, id) + text],
       reasoning := s.reasoning[id := Sent(s.reasoning, id) + reasoning])
  }

  function ChunkStep(s: State, m: Message, top: bool): Out {
    match m
    case Ai(id, text, reasoning, _, usage, _) =>
      var t := Account(s, id, usage, top);
      if text == "" && reasoning == "" then Out(t, []) else
      Out(Appended(t, id, text, reasoning), [TextEvent(id, text, Reported(s, id, usage), reasoning, None)])
    case Tool(id, callId, content) =>
      Out(if id == "" then s else s.(streamed := s.streamed + {id}), [ToolEvent(id, callId, content)])
    case Other(_) => Out(s, [])
  }

  // ---- snapshots ----

  /** The part of `full` that goes beyond what was sent; nothing if it does not extend it. */
  function Delta(sent: string, full: string): string { if sent <= full then full[|sent|..] else "" }

  function Extended(sent: string, full: string): string { if sent <= full then full else sent }

  function KeysOf(calls: seq<Call>): set<string> { set c | c in calls :: c.Key() }

  /** The calls whose keys are new, each key once. */
  function NewCalls(known: set<string>, calls: seq<Call>): seq<Call> {
    if calls == [] then [] else
    var init, c := calls[..|calls| - 1], calls[|calls| - 1];
    NewCalls(known, init) + if c.Key() in known + KeysOf(init) then [] else [c]
  }

  function KnownCalls(s: State, id: string): set<string> { if id != "" && id in s.calls then s.calls[id] else {} }

  /** A message of the history, or one this run has shown already and cannot have rewritten. */
  predicate Skipped(s: State, m: Message) { m.id != "" && m.id in s.seen && !(m.Ai? && m.id in s.text) }

  predicate MetadataChanged(s: State, id: string, metadata: map<string, string>) {
    metadata != map[] && (id == "" || !(id in s.metadata && s.metadata[id] == metadata))
  }

  /** A text event, if there is anything to tell. */
  function TextNews(id: string, delta: string, usage: Option<Usage>, thought: string, metadata: Option<map<string, string>>)
    : seq<StreamEvent>
  {
    if delta == "" && thought == "" && metadata == None && usage == None then []
    else [TextEvent(id, delta, usage, thought, metadata)]
  }

  function TextEvents(s: State, m: Message): seq<StreamEvent>
    requires m.Ai?
  {
    var id := m.id;
    TextNews(id, Delta(if id == "" then "" else Sent(s.text, id), m.text), Reported(s, id, m.usage),
             Delta(if id == "" then "" else Sent(s.reasoning, id), m.reasoning),
             if MetadataChanged(s, id, m.metadata) then Some(m.metadata) else None)
  }

  function CallEvents(s: State, m: Message): seq<StreamEvent>
    requires m.Ai?
  {
    var calls := NewCalls(KnownCalls(s, m.id), m.calls);
    if calls == [] then [] else [CallsEvent(m.id, calls)]
  }

  /** What is remembered of an AI message after a snapshot that holds it. */
  function Remember(s: State, m: Message): State
    requires m.Ai?
  {
    if m.id == "" then s else
    s.(text := s.text[m.id := Extended(Sent(s.text, m.id), m.text)],
       reasoning := s.reasoning[m.id := Extended(Sent(s.reasoning, m.id), m.reasoning)],
       metadata := s.metadata[m.id := m.metadata],
       calls := if m.calls == [] then s.calls else s.calls[m.id := KnownCalls(s, m.id) + KeysOf(m.calls)])
  }

  function SnapshotStep(s: State, m: Message, top: bool): Out {
    if Skipped(s, m) then Out(s, []) else
    var t := if m.id == "" then s else s.(seen := s.seen + {m.id});
    match m
    case Ai(id, _, _, _, usage, _) =>
      Out(Remember(Account(t, id, usage, top), m), CallEvents(s, m) + TextEvents(s, m))
    case Tool(id, callId, content) =>
      Out(t, if id == "" || id !in s.streamed then [ToolEvent(id, callId, content)] else [])
    case Other(_) => Out(t, [])
  }

  function SnapshotSteps(s: State, messages: seq<Message>, top: bool): Out {
    if messages == [] then Out(s, []) else
    var before := SnapshotSteps(s, messages[..|messages| - 1], top);
    var last := SnapshotStep(before.state, messages[|messages| - 1], top);
    Out(last.state, before.events + last.events)
  }

  /** `_events_from_stream_item`. */
  function ItemStep(s: State, item: Item): Out {
    match item
    case Chunk(m, top) => ChunkStep(s, m, top)
    case Snapshot(messages, top) =>
      var out := SnapshotSteps(s, messages, top); Out(out.state, out.events + [ValuesEvent(messages)])
    case CustomItem => Out(s, [CustomEvent])
    case OtherValue => Out(s, [])
  }

  function Run(s: State, items: seq<Item>): Out {
    if items == [] then Out(s, []) else
    var before := Run(s, items[..|items| - 1]);
    var last := ItemStep(before.state, items[|items| - 1]);
    Out(last.state, before.events + last.events)
  }

  // ---- what the events say, read independently of the state ----

  /** The text sent for a message: its deltas one after the other. */
  function TextSent(events: seq<StreamEvent>, id: string): string {
    if events == [] then "" else
    TextSent(events[..|events| - 1], id)
    + var e := events[|events| - 1]; if e.TextEvent? && e.id == id then e.text else ""
  }

  function ReasoningSent(events: seq<StreamEvent>, id: string): string {
    if events == [] then "" else
    ReasoningSent(events[..|events| - 1], id)
    + var e := events[|events| - 1]; if e.TextEvent? && e.id == id then e.reasoning else ""
  }

  function Keys(calls: seq<Call>): seq<string> { seq(|calls|, i requires 0 <= i < |calls| => calls[i].Key()) }

  /** The keys of all calls sent for a message, in order. */
  function KeysSent(events: seq<StreamEvent>, id: string): seq<string> {
    if events == [] then [] else
    KeysSent(events[..|events| - 1], id)
    + var e := events[|events| - 1]; if e.CallsEvent? && e.id == id then Keys(e.calls) else []
  }

  predicate About(e: StreamEvent, id: string) {
    (e.TextEvent? || e.CallsEvent? || e.ToolEvent?) && e.id == id
  }

  lemma {:induction false} SentConcat(a: seq<StreamEvent>, b: seq<StreamEvent>, id: string)
    ensures TextSent(a + b, id) == TextSent(a, id) + TextSent(b, id)
    ensures ReasoningSent(a + b, id) == ReasoningSent(a, id) + ReasoningSent(b, id)
    ensures KeysSent(a + b, id) == KeysSent(a, id) + KeysSent(b, id)
  {
    if b == [] {
      assert a + b == a;
    } else {
      var init, e := b[..|b| - 1], b[|b| - 1];
      assert (a + b)[..|a + b| - 1] == a + init;
      SentConcat(a, init, id);
      Associates(TextSent(a, id), TextSent(init, id), if e.TextEvent? && e.id == id then e.text else "");
      Associates(ReasoningSent(a, id), ReasoningSent(init, id), if e.TextEvent? && e.id == id then e.reasoning else "");
    }
  }

  lemma SentOne(e: StreamEvent, id: string)
    ensures TextSent([e], id) == if e.TextEvent? && e.id == id then e.text else ""
    ensures ReasoningSent([e], id) == if e.TextEvent? && e.id == id then e.reasoning else ""
    ensures KeysSent([e], id) == if e.CallsEvent? && e.id == id then Keys(e.calls) else []
  {
    assert [e][..0] == [];
  }

  // ---- the stream is append-only and loses nothing: deltas add up to the state ----

  /** For message `id`, `events` take the state from `s` to `t`. */
  ghost predicate Delivers(s: State, events: seq<StreamEvent>, t: State, id: string) {
    && Sent(t.text, id) == Sent(s.text, id) + TextSent(events, id)
    && Sent(t.reasoning, id) == Sent(s.reasoning, id) + ReasoningSent(events, id)
  }

  lemma DeliversConcat(s: State, a: seq<StreamEvent>, t: State, b: seq<StreamEvent>, u: State, id: string)
    requires Delivers(s, a, t, id) && Delivers(t, b, u, id)
    ensures Delivers(s, a + b, u, id)
  {
    SentConcat(a, b, id);
    Associates(Sent(s.text, id), TextSent(a, id), TextSent(b, id));
    Associates(Sent(s.reasoning, id), ReasoningSent(a, id), ReasoningSent(b, id));
  }

  lemma ExtendsByDelta(sent: string, full: string)
    ensures Extended(sent, full) == sent + Delta(sent, full)
  {}

  /** Nothing about `id` was sent, and nothing is remembered anew. */
  lemma NothingDelivered(s: State, events: seq<StreamEvent>, t: State, id: string)
    requires Sent(t.text, id) == Sent(s.text, id) && Sent(t.reasoning, id) == Sent(s.reasoning, id)
    requires TextSent(events, id) == ReasoningSent(events, id) == ""
    ensures Delivers(s, events, t, id)
  {
    AddsNothing(Sent(s.text, id));
    AddsNothing(Sent(s.reasoning, id));
  }

  lemma ChunkDelivers(s: State, m: Message, top: bool, id: string)
    requires id != ""
    ensures Delivers(s, ChunkStep(s, m, top).events, ChunkStep(s, m, top).state, id)
  {
    var out := ChunkStep(s, m, top);
    if out.events != [] { SentOne(out.events[0], id); }
    if m.Ai? {
      AccountKeeps(s, m.id, m.usage, top);
      if m.id == id && out.events != [] { return; }
    }
    NothingDelivered(s, out.events, out.state, id);
  }

  lemma AiEventsSend(s: State, m: Message, id: string)
    requires m.Ai?
    ensures TextSent(TextEvents(s, m), id) ==
              if m.id == id then Delta(if id == "" then "" else Sent(s.text, id), m.text) else ""
    ensures ReasoningSent(TextEvents(s, m), id) ==
              if m.id == id then Delta(if id == "" then "" else Sent(s.reasoning, id), m.reasoning) else ""
    ensures TextSent(CallEvents(s, m), id) == ReasoningSent(CallEvents(s, m), id) == ""
    ensures KeysSent(TextEvents(s, m), id) == []
    ensures KeysSent(CallEvents(s, m), id) == if m.id == id then Keys(NewCalls(KnownCalls(s, id), m.calls)) else []
  {
    if TextEvents(s, m) != [] { SentOne(TextEvents(s, m)[0], id); }
    if CallEvents(s, m) != [] { SentOne(CallEvents(s, m)[0], id); }
  }

  lemma RememberExtends(s: State, m: Message, id: string)
    requires m.Ai? && id != ""
    ensures var t := Remember(s, m);
            && Sent(t.text, id) == (if m.id == id then Extended(Sent(s.text, id), m.text) else Sent(s.text, id))
            && Sent(t.reasoning, id) == if m.id == id then Extended(Sent(s.reasoning, id), m.reasoning) else Sent(s.reasoning, id)
  {}

  lemma AiMessageDelivers(s: State, m: Message, top: bool, id: string)
    requires m.Ai? && !Skipped(s, m) && id != ""
    ensures Delivers(s, SnapshotStep(s, m, top).events, SnapshotStep(s, m, top).state, id)
  {
    var seen := if m.id == "" then s else s.(seen := s.seen + {m.id});
    var t := Account(seen, m.id, m.usage, top);
    AccountKeeps(seen, m.id, m.usage, top);
    RememberExtends(t, m, id);
    SentConcat(CallEvents(s, m), TextEvents(s, m), id);
    AiEventsSend(s, m, id);
    AddsNothing(TextSent(TextEvents(s, m), id));
    AddsNothing(ReasoningSent(TextEvents(s, m), id));
    if m.id == id {
      ExtendsByDelta(Sent(s.text, id), m.text);
      ExtendsByDelta(Sent(s.reasoning, id), m.reasoning);
    } else {
      NothingDelivered(s, CallEvents(s, m) + TextEvents(s, m), Remember(t, m), id);
    }
  }

  lemma SnapshotMessageDelivers(s: State, m: Message, top: bool, id: string)
    requires id != ""
    ensures Delivers(s, SnapshotStep(s, m, top).events, SnapshotStep(s, m, top).state, id)
  {
    var out := SnapshotStep(s, m, top);
    if m.Ai? && !Skipped(s, m) {
      AiMessageDelivers(s, m, top, id);
    } else {
      if out.events != [] { SentOne(out.events[0], id); }
      NothingDelivered(s, out.events, out.state, id);
    }
  }

  lemma {:induction false} SnapshotDelivers(s: State, messages: seq<Message>, top: bool, id: string)
    requires id != ""
    ensures Delivers(s, SnapshotSteps(s, messages, top).events, SnapshotSteps(s, messages, top).state, id)
  {
    if messages == [] {
      AddsNothing(Sent(s.text, id));
      AddsNothing(Sent(s.reasoning, id));
    } else {
      var init, m := messages[..|messages| - 1], messages[|messages| - 1];
      var before := SnapshotSteps(s, init, top);
      var last := SnapshotStep(before.state, m, top);
      SnapshotDelivers(s, init, top, id);
      SnapshotMessageDelivers(before.state, m, top, id);
      DeliversConcat(s, before.events, before.state, last.events, last.state, id);
    }
  }

  lemma ItemDelivers(s: State, item: Item, id: string)
    requires id != ""
    ensures Delivers(s, ItemStep(s, item).events, ItemStep(s, item).state, id)
  {
    match item
    case Chunk(m, top) => ChunkDelivers(s, m, top, id);
    case Snapshot(messages, top) =>
      var out := SnapshotSteps(s, messages, top);
      SnapshotDelivers(s, messages, top, id);
      SentConcat(out.events, [ValuesEvent(messages)], id);
      SentOne(ValuesEvent(messages), id);
      AddsNothing(TextSent(out.events, id));
      AddsNothing(ReasoningSent(out.events, id));
    case CustomItem =>
      SentOne(CustomEvent, id);
      AddsNothing(Sent(s.text, id));
      AddsNothing(Sent(s.reasoning, id));
    case OtherValue =>
      AddsNothing(Sent(s.text, id));
      AddsNothing(Sent(s.reasoning, id));
  }

  lemma {:induction false} RunDelivers(s: State, items: seq<Item>, id: string)
    requires id != ""
    ensures Delivers(s, Run(s, items).events, Run(s, items).state, id)
  {
    if items == [] {
      AddsNothing(Sent(s.text, id));
      AddsNothing(Sent(s.reasoning, id));
    } else {
      var init, item := items[..|items| - 1], items[|items| - 1];
      var before := Run(s, init);
      var last := ItemStep(before.state, item);
      RunDelivers(s, init, id);
      ItemDelivers(before.state, item, id);
      DeliversConcat(s, before.events, before.state, last.events, last.state, id);
    }
  }

  /** Whatever the run streams, the deltas sent for a message are what the state remembers. */
  lemma DeltasAddUp(history: set<string>, items: seq<Item>, id: string)
    requires id != ""
    ensures var out := Run(Seeded(history), items);
            && TextSent(out.events, id) == Sent(out.state.text, id)
            && ReasoningSent(out.events, id) == Sent(out.state.reasoning, id)
  {
    var out := Run(Seeded(history), items);
    RunDelivers(Seeded(history), items, id);
    AddsNothing(TextSent(out.events, id));
    AddsNothing(ReasoningSent(out.events, id));
  }

  lemma {:induction false} RunConcat(s: State, a: seq<Item>, b: seq<Item>)
    ensures Run(s, a + b).state == Run(Run(s, a).state, b).state
    ensures Run(s, a + b).events == Run(s, a).events + Run(Run(s, a).state, b).events
  {
    if b == [] {
      assert a + b == a;
    } else {
      assert (a + b)[..|a + b| - 1] == a + b[..|b| - 1];
      RunConcat(s, a, b[..|b| - 1]);
    }
  }

  /** Later items only append to the events and to what was sent for a message. */
  lemma OnlyAppends(s: State, items: seq<Item>, later: seq<Item>, id: string)
    requires id != ""
    ensures Run(s, items).events <= Run(s, items + later).events
    ensures Sent(Run(s, items).state.text, id) <= Sent(Run(s, items + later).state.text, id)
  {
    var t := Run(s, items).state;
    RunConcat(s, items, later);
    RunDelivers(t, later, id);
    assert Sent(Run(t, later).state.text, id) == Sent(t.text, id) + TextSent(Run(t, later).events, id);
  }

  // ---- snapshots, message by message ----

  lemma SnapshotSnoc(s: State, messages: seq<Message>, m: Message, top: bool)
    ensures SnapshotSteps(s, messages + [m], top).state == SnapshotStep(SnapshotSteps(s, messages, top).state, m, top).state
  {
    assert (messages + [m])[..|messages|] == messages;
  }

  lemma {:induction false} SnapshotConcat(s: State, a: seq<Message>, b: seq<Message>, top: bool)
    ensures SnapshotSteps(s, a + b, top).state == SnapshotSteps(SnapshotSteps(s, a, top).state, b, top).state
  {
    if b == [] {
      assert a + b == a;
    } else {
      assert (a + b)[..|a + b| - 1] == a + b[..|b| - 1];
      SnapshotConcat(s, a, b[..|b| - 1], top);
    }
  }
}
