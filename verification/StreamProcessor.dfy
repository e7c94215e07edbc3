/** The mutable bookkeeping of a run (deerflow/client.py, `_StreamProcessingState`), `chat`, and
    what the two consumers of a run make of its events. */
module StreamProcessor {
  import opened Text
  import opened StreamClient
  import A = AguiEvents
  import R = AguiRun
  import T = AguiTranslator

  class Processor {
    var seen: set<string>
    var streamed: set<string>
    var counted: set<string>
    var sentText: map<string, string>
    var sentReasoning: map<string, string>
    var sentMetadata: map<string, map<string, string>>
    var sentCalls: map<string, set<string>>
    var usage: Usage
    var lastLead: Option<Usage>

    ghost function Value(): State reads this {
      State(seen, streamed, counted, sentText, sentReasoning, sentMetadata, sentCalls, usage, lastLead)
    }

    /** `_seed_seen_ids_from_checkpoint`: `history` are the identifiers in the checkpoint. */
    constructor (history: seq<string>)
      ensures Value() == Seeded(set id | id in history)
    {
      seen, streamed, counted := {}, {}, {};
      sentText, sentReasoning, sentMetadata, sentCalls := map[], map[], map[], map[];
      usage, lastLead := NO_USAGE, None;
      new;
      for i := 0 to |history|
        invariant seen == (set id | id in history[..i]) - {""}
        invariant Value() == Seeded({}).(seen := seen)
      {
        assert history[..i + 1] == history[..i] + [history[i]];
        if history[i] != "" { seen := seen + {history[i]}; }
      }
      assert history[..|history|] == history;
    }

    /** `_account_usage`. */
    method AccountUsage(id: string, used: Option<Usage>) returns (reported: Option<Usage>)
      modifies this`counted, this`usage
      ensures Value() == Account(old(Value()), id, used, false) && reported == Reported(old(Value()), id, used)
    {
      if used == None { return None; }
      if id != "" && id in counted { return None; }
      if id != "" { counted := counted + {id}; }
      usage := Plus(usage, used.value);
      reported := used;
    }

    method NoteLead(used: Option<Usage>, top: bool)
      modifies this`lastLead
      ensures lastLead == if top && used.Some? then Some(Usage(used.value.input, used.value.output, used.value.input + used.value.output))
                          else old(lastLead)
    {
      if top && used.Some? {
        lastLead := Some(Usage(used.value.input, used.value.output, used.value.input + used.value.output));
      }
    }

    method OnChunk(m: Message, top: bool) returns (events: seq<StreamEvent>)
      modifies this
      ensures Out(Value(), events) == ChunkStep(old(Value()), m, top)
    {
      events := [];
      match m {
        case Ai(id, text, reasoning, _, used, _) =>
          var reported := AccountUsage(id, used);
          NoteLead(used, top);
          if text != "" || reasoning != "" {
            if id != "" {
              streamed := streamed + {id};
              sentText := sentText[id := (if id in sentText then sentText[id] else "") + text];
              sentReasoning := sentReasoning[id := (if id in sentReasoning then sentReasoning[id] else "") + reasoning];
            }
            events := [TextEvent(id, text, reported, reasoning, None)];
          }
        case Tool(id, callId, content) =>
          if id != "" { streamed := streamed + {id}; }
          events := [ToolEvent(id, callId, content)];
        case Other(_) =>
      }
    }

    /** The loop over the calls of one message. */
    method FindNewCalls(id: string, calls: seq<Call>) returns (found: seq<Call>)
      requires calls != []
      modifies this`sentCalls
      ensures found == NewCalls(KnownCalls(old(Value()), id), calls)
      ensures sentCalls == if id == "" then old(sentCalls)
                           else old(sentCalls)[id := KnownCalls(old(Value()), id) + KeysOf(calls)]
    {
      ghost var known := KnownCalls(Value(), id);
      var emitted := if id != "" && id in sentCalls then sentCalls[id] else {};
      found := [];
      for i := 0 to |calls|
        invariant emitted == known + KeysOf(calls[..i]) && found == NewCalls(known, calls[..i])
      {
        assert calls[..i + 1][..i] == calls[..i] && calls[..i + 1] == calls[..i] + [calls[i]];
        var key := calls[i].Key();
        if key !in emitted {
          found := found + [calls[i]];
          emitted := emitted + {key};
        }
      }
      assert calls[..|calls|] == calls;
      if id != "" { sentCalls := sentCalls[id := emitted]; }
    }

    method EmitCalls(m: Message) returns (events: seq<StreamEvent>)
      requires m.Ai?
      modifies this`sentCalls
      ensures events == CallEvents(old(Value()), m)
      ensures sentCalls == if m.id == "" || m.calls == [] then old(sentCalls)
                           else old(sentCalls)[m.id := KnownCalls(old(Value()), m.id) + KeysOf(m.calls)]
    {
      events := [];
      if m.calls != [] {
        var found := FindNewCalls(m.id, m.calls);
        if found != [] { events := [CallsEvent(m.id, found)]; }
      }
    }

    /** What is new in a message, which is then remembered. */
    method Absorb(m: Message) returns (delta: string, thought: string, changed: Option<map<string, string>>)
      requires m.Ai?
      modifies this`sentText, this`sentReasoning, this`sentMetadata
      ensures delta == Delta(if m.id == "" then "" else Sent(old(sentText), m.id), m.text)
      ensures thought == Delta(if m.id == "" then "" else Sent(old(sentReasoning), m.id), m.reasoning)
      ensures changed == if MetadataChanged(old(Value()), m.id, m.metadata) then Some(m.metadata) else None
      ensures Value() == Remember(old(Value()), m.(calls := []))
    {
      var id := m.id;
      var previousText := if id != "" && id in sentText then sentText[id] else "";
      var previousReasoning := if id != "" && id in sentReasoning then sentReasoning[id] else "";
      delta := if previousText <= m.text then m.text[|previousText|..] else "";
      thought := if previousReasoning <= m.reasoning then m.reasoning[|previousReasoning|..] else "";
      changed := None;
      if m.metadata != map[] && (id == "" || !(id in sentMetadata && sentMetadata[id] == m.metadata)) {
        changed := Some(m.metadata);
      }
      if id != "" {
        sentText := sentText[id := if previousText <= m.text then m.text else previousText];
        sentReasoning := sentReasoning[id := if previousReasoning <= m.reasoning then m.reasoning else previousReasoning];
        sentMetadata := sentMetadata[id := m.metadata];
      }
    }

    method OnAiMessage(m: Message, top: bool) returns (events: seq<StreamEvent>)
      requires m.Ai?
      modifies this
      ensures Value() == Remember(Account(old(Value()), m.id, m.usage, top), m)
      ensures events == CallEvents(old(Value()), m) + TextEvents(old(Value()), m)
    {
      ghost var s := Value();
      var reported := AccountUsage(m.id, m.usage);
      NoteLead(m.usage, top);
      ghost var t := Value();
      assert t == Account(s, m.id, m.usage, top);
      AccountKeeps(s, m.id, m.usage, top);
      var delta, thought, metadata := Absorb(m);
      ghost var u := Value();
      var calls := EmitCalls(m);
      RememberCalls(t, m, u, Value());
      assert calls == CallEvents(s, m);
      events := calls + TextNews(m.id, delta, reported, thought, metadata);
    }

    /** Calls are remembered apart from the rest. */
    lemma RememberCalls(t: State, m: Message, u: State, v: State)
      requires m.Ai? && u == Remember(t, m.(calls := []))
      requires v == u.(calls := if m.id == "" || m.calls == [] then u.calls
                                else u.calls[m.id := KnownCalls(u, m.id) + KeysOf(m.calls)])
      ensures v == Remember(t, m)
    {}

    method OnSnapshotMessage(m: Message, top: bool) returns (events: seq<StreamEvent>)
      modifies this
      ensures Out(Value(), events) == SnapshotStep(old(Value()), m, top)
    {
      events := [];
      var current := m.Ai? && m.id in sentText;
      if m.id != "" && m.id in seen && !current { return; }
      ghost var s := Value();
      if m.id != "" { seen := seen + {m.id}; }
      if m.Ai? {
        events := OnAiMessage(m, top);
      } else if m.Tool? && (m.id == "" || m.id !in streamed) {
        events := [ToolEvent(m.id, m.callId, m.content)];
      }
    }

    /** `_events_from_stream_item`. */
    method EventsFromStreamItem(item: Item) returns (events: seq<StreamEvent>)
      modifies this
      ensures Out(Value(), events) == ItemStep(old(Value()), item)
    {
      events := [];
      match item {
        case CustomItem => events := [CustomEvent];
        case Chunk(m, top) => events := OnChunk(m, top);
        case OtherValue =>
        case Snapshot(messages, top) =>
          for i := 0 to |messages|
            invariant Out(Value(), events) == SnapshotSteps(old(Value()), messages[..i], top)
          {
            assert messages[..i + 1][..i] == messages[..i];
            var more := OnSnapshotMessage(messages[i], top);
            events := events + more;
          }
          assert messages[..|messages|] == messages;
          events := events + [ValuesEvent(messages)];
      }
    }
  }

  function Streamed(history: set<string>, items: seq<Item>, limited: bool, noticeId: string, notice: string): seq<StreamEvent> {
    var run := Run(Seeded(history), items);
    run.events + (if limited then [TextEvent(noticeId, notice, None, "", None)] else [])
    + [EndEvent(run.state.usage, run.state.lastLead)]
  }

  /** `stream`: the agent delivers `items` and then ends or, if `limited`, runs into its
      recursion limit, which is announced in a message `noticeId` of its own. */
  method Stream(history: seq<string>, items: seq<Item>, limited: bool, noticeId: string, notice: string)
    returns (events: seq<StreamEvent>)
    ensures events == Streamed((set id | id in history), items, limited, noticeId, notice)
  {
    var processor := new Processor(history);
    events := [];
    for i := 0 to |items|
      invariant fresh(processor)
      invariant Out(processor.Value(), events) == Run(Seeded((set id | id in history)), items[..i])
    {
      assert items[..i + 1][..i] == items[..i];
      var more := processor.EventsFromStreamItem(items[i]);
      events := events + more;
    }
    assert items[..|items|] == items;
    if limited { events := events + [TextEvent(noticeId, notice, None, "", None)]; }
    events := events + [EndEvent(processor.usage, processor.lastLead)];
  }

  /** The notice and the end add nothing to the messages of the run. */
  lemma StreamedSends(history: set<string>, items: seq<Item>, limited: bool, noticeId: string, notice: string, id: string)
    requires id != "" && !(limited && id == noticeId)
    ensures TextSent(Streamed(history, items, limited, noticeId, notice), id) == Sent(Run(Seeded(history), items).state.text, id)
    ensures ReasoningSent(Streamed(history, items, limited, noticeId, notice), id) == Sent(Run(Seeded(history), items).state.reasoning, id)
  {
    var run := Run(Seeded(history), items);
    var tail := if limited then [TextEvent(noticeId, notice, None, "", None)] else [];
    var end := EndEvent(run.state.usage, run.state.lastLead);
    DeltasAddUp(history, items, id);
    SentConcat(run.events, tail, id);
    SentConcat(run.events + tail, [end], id);
    if limited { SentOne(tail[0], id); }
    SentOne(end, id);
    AddsNothing(TextSent(run.events, id));
    AddsNothing(ReasoningSent(run.events, id));
  }

  // ---- `chat` ----

  /** The message whose text was sent last; "" if none was. */
  function LastTexted(events: seq<StreamEvent>): string {
    if events == [] then "" else
    var e := events[|events| - 1];
    if e.TextEvent? && e.text != "" then e.id else LastTexted(events[..|events| - 1])
  }

  function Concatenated(chunks: seq<string>): string {
    if chunks == [] then "" else Concatenated(chunks[..|chunks| - 1]) + chunks[|chunks| - 1]
  }

  ghost predicate Collected(chunks: map<string, seq<string>>, events: seq<StreamEvent>) {
    forall id :: Concatenated(if id in chunks then chunks[id] else []) == TextSent(events, id)
  }

  lemma CollectOne(chunks: map<string, seq<string>>, events: seq<StreamEvent>, e: StreamEvent)
    requires Collected(chunks, events)
    ensures e.TextEvent? ==>
              Collected(chunks[e.id := (if e.id in chunks then chunks[e.id] else []) + [e.text]], events + [e])
    ensures !e.TextEvent? || e.text == "" ==> Collected(chunks, events + [e])
  {
    assert (events + [e])[..|events|] == events;
    if e.TextEvent? {
      var list := if e.id in chunks then chunks[e.id] else [];
      assert (list + [e.text])[..|list|] == list;
    }
    forall id ensures TextSent(events + [e], id) == TextSent(events, id) + if e.TextEvent? && e.id == id then e.text else "" {
      AddsNothing(TextSent(events, id));
    }
    forall id ensures TextSent(events, id) + "" == TextSent(events, id) { AddsNothing(TextSent(events, id)); }
  }

  method Joined(chunks: seq<string>) returns (r: string)
    ensures r == Concatenated(chunks)
  {
    r := "";
    for i := 0 to |chunks|
      invariant r == Concatenated(chunks[..i])
    {
      assert chunks[..i + 1][..i] == chunks[..i];
      r := r + chunks[i];
    }
    assert chunks[..|chunks|] == chunks;
  }

  /** `chat` over the events of a run. */
  method Chat(events: seq<StreamEvent>) returns (answer: string)
    ensures answer == TextSent(events, LastTexted(events))
  {
    var chunks: map<string, seq<string>> := map[];
    var lastId := "";
    for i := 0 to |events|
      invariant Collected(chunks, events[..i]) && lastId == LastTexted(events[..i])
    {
      var e := events[i];
      assert events[..i + 1] == events[..i] + [e] && events[..i + 1][..i] == events[..i];
      CollectOne(chunks, events[..i], e);
      if e.TextEvent? && e.text != "" {
        chunks := chunks[e.id := (if e.id in chunks then chunks[e.id] else []) + [e.text]];
        lastId := e.id;
      }
    }
    assert events[..|events|] == events;
    answer := Joined(if lastId in chunks then chunks[lastId] else []);
  }

  // ---- the AG-UI connection over the same run ----

  predicate SameCalls(calls: seq<Call>, out: seq<Option<T.ToolCall>>) {
    && |out| == |calls|
    && forall i :: 0 <= i < |calls| ==> out[i].Some? && out[i].value.id == calls[i].id && out[i].value.args == calls[i].args
  }

  /** The bridge entry that carries an event. */
  predicate Carries(e: StreamEvent, entry: T.Entry) {
    match e
    case TextEvent(id, text, _, reasoning, _) =>
      entry.Ai? && entry.id == id && entry.content == text && entry.reasoning == reasoning && entry.calls == []
    case CallsEvent(id, calls) =>
      entry.Ai? && entry.id == id && entry.content == "" && entry.reasoning == "" && SameCalls(calls, entry.calls)
    case _ => !entry.Ai?
  }

  /** An uninterrupted connection: every event once, in order, between heartbeats. */
  predicate Relays(events: seq<StreamEvent>, entries: seq<R.Bridged>) {
    if entries == [] then events == [] else
    var n, e := |entries| - 1, entries[|entries| - 1].entry;
    if e.Heartbeat? then Relays(events, entries[..n])
    else events != [] && Carries(events[|events| - 1], e) && Relays(events[..|events| - 1], entries[..n])
  }

  /** Generated identifiers are never those of messages. */
  predicate NotGenerated(entries: seq<R.Bridged>, id: string) {
    forall b :: b in entries && b.entry.Ai? && b.entry.id == "" ==> b.entry.generated != id
  }

  /** The reasoning deltas sent for a message. */
  function ReasoningDeltas(events: seq<StreamEvent>, id: string): seq<string> {
    if events == [] then [] else
    ReasoningDeltas(events[..|events| - 1], id)
    + var e := events[|events| - 1]; if e.TextEvent? && e.id == id && e.reasoning != "" then [e.reasoning] else []
  }

  lemma {:induction false} DeltasJoin(events: seq<StreamEvent>, id: string)
    ensures T.Join(ReasoningDeltas(events, id)) == ReasoningSent(events, id)
  {
    if events != [] {
      var init, e := events[..|events| - 1], events[|events| - 1];
      DeltasJoin(init, id);
      var deltas := ReasoningDeltas(init, id);
      AddsNothing(ReasoningSent(init, id));
      if e.TextEvent? && e.id == id && e.reasoning != "" {
        assert (deltas + [e.reasoning])[..|deltas|] == deltas;
      } else {
        assert ReasoningDeltas(events, id) == deltas;
      }
    }
  }

  lemma RelayedEntry(e: StreamEvent, entry: T.Entry, id: string)
    requires Carries(e, entry) && id != "" && !A.IsSub(id)
    requires entry.Ai? && entry.id == "" ==> entry.generated != id
    ensures T.EntryText(entry, id) == if e.TextEvent? && e.id == id then e.text else ""
    ensures (if entry.Ai? && entry.calls == [] && entry.reasoning != "" && entry.MessageId() == id then [entry.reasoning] else [])
         == if e.TextEvent? && e.id == id && e.reasoning != "" then [e.reasoning] else []
  {
    if entry.SubToken? { T.SubMembership(T.Conn(None, map[], {}, {}, map[], {}, {}), entry.task); }
  }

  lemma {:induction false} RelayedTexts(events: seq<StreamEvent>, entries: seq<R.Bridged>, id: string)
    requires Relays(events, entries) && id != "" && !A.IsSub(id) && NotGenerated(entries, id)
    ensures R.RunText(entries, id) == TextSent(events, id)
    ensures R.RunReasoning(entries, id) == ReasoningDeltas(events, id)
    decreases |entries|
  {
    if entries != [] {
      var init, b := entries[..|entries| - 1], entries[|entries| - 1];
      assert b in entries && forall x :: x in init ==> x in entries;
      if b.entry.Heartbeat? {
        RelayedTexts(events, init, id);
        AddsNothing(R.RunText(init, id));
        assert R.RunReasoning(init, id) + [] == R.RunReasoning(init, id);
      } else {
        RelayedTexts(events[..|events| - 1], init, id);
        RelayedEntry(events[|events| - 1], b.entry, id);
      }
    }
  }

  /** The pipeline, end to end: the text the AG-UI connection delivers for a message is the text
      the client sent for it, which is what the run's state remembers. The reasoning is, too,
      exactly unless a delta happens to begin with all the reasoning before it. */
  lemma PipelineDelivers(
    history: set<string>, items: seq<Item>, limited: bool, noticeId: string, notice: string,
    entries: seq<R.Bridged>, out: seq<A.Event>, id: string)
    requires Relays(Streamed(history, items, limited, noticeId, notice), entries) && R.Outcome(entries, out)
    requires id != "" && !(limited && id == noticeId) && !A.IsSub(id) && NotGenerated(entries, id)
    ensures var state := Run(Seeded(history), items).state;
            && A.TextOf(out, id) == Sent(state.text, id)
            && (A.ReasoningOf(out, T.ReasoningId(id)) == Sent(state.reasoning, id)
                <==> !T.Ambiguous(ReasoningDeltas(Streamed(history, items, limited, noticeId, notice), id)))
  {
    var events := Streamed(history, items, limited, noticeId, notice);
    StreamedSends(history, items, limited, noticeId, notice, id);
    RelayedTexts(events, entries, id);
    T.IncrementalReasoning(ReasoningDeltas(events, id));
    DeltasJoin(events, id);
  }

  /** `chat` answers what an AG-UI client shows for the message whose text came last. */
  lemma ChatAgrees(events: seq<StreamEvent>, entries: seq<R.Bridged>, out: seq<A.Event>)
    requires Relays(events, entries) && R.Outcome(entries, out)
    requires LastTexted(events) != "" && !A.IsSub(LastTexted(events)) && NotGenerated(entries, LastTexted(events))
    ensures A.TextOf(out, LastTexted(events)) == TextSent(events, LastTexted(events))
  {
    RelayedTexts(events, entries, LastTexted(events));
  }
}
