/** What an AG-UI connection reports beside messages and calls: tool results, snapshots and custom
    events (app/routers/chat.py). */
module AguiNotes {
  import opened Text
  import opened AguiEvents
  import opened AguiTranslator

  /** The results, snapshots and custom events an entry stands for. */
  function EntryNotes(e: Entry): seq<Event> {
    match e
    case Ai(_, _, _, _, _, sources) => CustomIf(sources, SourcesName)
    case ToolMessage(message, callId, content, sources) =>
      (if callId == "" then [] else [ToolResult(message, callId, content)]) + CustomIf(sources, SourcesName)
    case Values(messages, sources, artifacts) =>
      (if messages.None? then [] else [Snapshot(messages.value)] + CustomIf(sources, SourcesName)) + CustomIf(artifacts, ArtifactsName)
    case SubToolResult(task, rawId, name, content) =>
      var id := SubToolId(TaskOf(task), rawId, ToolName(name));
      [ToolResult(SubResultId(task, id), id, content)]
    case SubToken(_, _, data) => [Custom(TokenName, data)]
    case SubThinking(_, _, data) => [Custom(ThinkingName, data)]
    case SubTerminal(_, kind, data) => [Custom(TaskName(kind), data)]
    case Progress(kind, data) => [Custom(OtherName(kind), data)]
    case Heartbeat => [Custom(HeartbeatName, "{}")]
    case End(usage) => [Custom(UsageName, usage)]
    case _ => []
  }

  /** The signature of the last snapshot after an entry. */
  function SnapshotOf(last: Option<string>, e: Entry): Option<string> {
    if e.Values? && e.messages.Some? then Some(Signature(e.messages.value)) else last
  }

  ghost predicate Noteless(evs: seq<Event>) { forall k :: 0 <= k < |evs| ==> !IsNote(evs[k]) }

  lemma {:induction false} ToolStartsNoteless(calls: seq<Option<ToolCall>>, parent: string, started: set<string>)
    ensures Noteless(ToolStarts(calls, parent, started))
  {
    if calls != [] { ToolStartsNoteless(calls[..|calls| - 1], parent, started); }
  }

  lemma AiNoteless(c: Conn, e: Entry)
    requires e.Ai?
    ensures Noteless(AiEvents(c, e))
  {
    if e.calls != [] {
      ToolStartsNoteless(e.calls, e.MessageId(), c.args.Keys);
    } else {
      var rid := ReasoningId(e.MessageId());
      var delta := ReasoningDelta(StateOf(c.state, rid), e.reasoning);
      assert Noteless(ReasoningBlock(c.reasoning, rid, e.reasoning, delta));
      assert Noteless(EndReasoning(if e.reasoning == "" then c.reasoning else c.reasoning + {rid}, rid));
      assert Noteless(TextBlock(c.openText, e.MessageId(), e.content));
    }
  }

  lemma NotesAfter(a: seq<Event>, b: seq<Event>)
    requires Noteless(a) && forall k :: 0 <= k < |b| ==> IsNote(b[k])
    ensures NotesOf(a + b) == b && NotesOf(b + a) == b
  {
    NoNotes(a);
    AllNotes(b);
    NotesConcat(a, b);
    NotesConcat(b, a);
  }

  lemma ThreeParts(a: seq<Event>, b: seq<Event>, d: seq<Event>)
    requires Noteless(a) && (forall k :: 0 <= k < |b| ==> IsNote(b[k])) && forall k :: 0 <= k < |d| ==> IsNote(d[k])
    ensures NotesOf((a + b) + d) == b + d
  {
    NotesAfter(a, b);
    NotesConcat(a + b, d);
    AllNotes(d);
  }

  lemma ToolNotesSent(c: Conn, message: string, callId: string, content: string, sources: Option<string>)
    ensures NotesOf(EntryEvents(c, ToolMessage(message, callId, content, sources))) == EntryNotes(ToolMessage(message, callId, content, sources))
  {
    var e, custom, result := ToolMessage(message, callId, content, sources), CustomIf(sources, SourcesName), [ToolResult(message, callId, content)];
    if callId == "" {
      NotesAfter([], custom);
      assert EntryEvents(c, e) == [] + custom && EntryNotes(e) == [] + custom;
    } else {
      ThreeParts(EndTool(c, callId), result, custom);
      assert EntryEvents(c, e) == (EndTool(c, callId) + result) + custom && EntryNotes(e) == result + custom;
    }
  }

  lemma SubToolNotesSent(c: Conn, e: Entry)
    requires e.SubToolCall? || e.SubToolResult?
    ensures NotesOf(EntryEvents(c, e)) == EntryNotes(e)
  {
    match e
    case SubToolCall(task, call) =>
      if call.Some? { ToolStartsNoteless(CallsOf(e), "subagent:" + TaskOf(task), c.args.Keys); }
      NoNotes(EntryEvents(c, e));
    case SubToolResult(task, rawId, name, content) =>
      var id := SubToolId(TaskOf(task), rawId, ToolName(name));
      NotesAfter(EndTool(c, id), [ToolResult(SubResultId(task, id), id, content)]);
  }

  lemma SubMessageNotesSent(c: Conn, e: Entry)
    requires e.SubToken? || e.SubThinking? || e.SubTerminal?
    ensures NotesOf(EntryEvents(c, e)) == EntryNotes(e)
  {
    match e
    case SubToken(task, content, data) =>
      var rest := SubTokenBlock(c.subReasoning, SubReasoningId(task), c.subText, SubTextId(task), content);
      NotesAfter(if task == "" || content == "" then [] else rest, [Custom(TokenName, data)]);
    case SubThinking(task, thinking, data) =>
      var id := SubReasoningId(task);
      var rest := (if id in c.subReasoning then [] else [ReasoningStart(id)]) + [ReasoningContent(id, thinking)];
      NotesAfter(if task == "" || thinking == "" then [] else rest, [Custom(ThinkingName, data)]);
    case SubTerminal(task, kind, data) =>
      var block := SubEndBlock(c.subReasoning, SubReasoningId(task), c.subText, SubTextId(task));
      NotesAfter(if task == "" then [] else block, [Custom(TaskName(kind), data)]);
  }

  lemma OtherNotes(c: Conn, e: Entry)
    requires e.Heartbeat? || e.OtherMessage? || e.Values? || e.Progress? || e.End? || e.Ignored?
    ensures EntryEvents(c, e) == EntryNotes(e) && NotesOf(EntryEvents(c, e)) == EntryNotes(e)
  {
    AllNotes(EntryNotes(e));
  }

  /** The translation reports exactly the entry's notes, in order. */
  lemma EntryNotesSent(c: Conn, e: Entry)
    ensures NotesOf(EntryEvents(c, e)) == EntryNotes(e)
  {
    if e.Ai? {
      AiNoteless(c, e);
      NotesAfter(AiEvents(c, e), CustomIf(e.sources, SourcesName));
    } else if e.ToolMessage? {
      ToolNotesSent(c, e.message, e.callId, e.content, e.sources);
    } else if e.SubToolCall? || e.SubToolResult? {
      SubToolNotesSent(c, e);
    } else if e.SubToken? || e.SubThinking? || e.SubTerminal? {
      SubMessageNotesSent(c, e);
    } else {
      OtherNotes(c, e);
    }
  }

  lemma NoSnapshotNoted(e: Entry)
    requires !(e.Values? && e.messages.Some?)
    ensures forall k :: 0 <= k < |EntryNotes(e)| ==> !EntryNotes(e)[k].Snapshot?
  {}

  lemma NotesStayNotes(last: Option<string>, notes: seq<Event>)
    requires forall k :: 0 <= k < |notes| ==> IsNote(notes[k])
    ensures NotesOf(Deduplicated(last, notes)) == Deduplicated(last, notes)
  {
    AllNotes(Deduplicated(last, notes));
  }

  lemma ValuesNotes(last: Option<string>, c: Conn, e: Entry)
    requires e.Values?
    ensures NotesOf(Deduplicated(last, EntryEvents(c, e))) == Deduplicated(last, EntryNotes(e))
    ensures SnapshotAfter(last, EntryEvents(c, e)) == SnapshotOf(last, e)
  {
    var snapshot := if e.messages.None? then [] else [Snapshot(e.messages.value)] + CustomIf(e.sources, SourcesName);
    assert EntryEvents(c, e) == EntryNotes(e) == snapshot + CustomIf(e.artifacts, ArtifactsName);
    NotesStayNotes(last, EntryNotes(e));
  }

  lemma {:induction false} FirstNote(evs: seq<Event>)
    requires evs != [] && IsNote(evs[0])
    ensures NotesOf(evs) != [] && NotesOf(evs)[0] == evs[0]
  {
    if |evs| > 1 { FirstNote(evs[..|evs| - 1]); } else { assert evs[..0] == []; }
  }

  lemma NoSnapshotFirst(c: Conn, e: Entry)
    requires !e.Values?
    ensures EntryEvents(c, e) != [] ==> !EntryEvents(c, e)[0].Snapshot?
    ensures EntryNotes(e) != [] ==> !EntryNotes(e)[0].Snapshot?
  {
    var evs := EntryEvents(c, e);
    if evs != [] && evs[0].Snapshot? {
      EntryNotesSent(c, e);
      FirstNote(evs);
      assert false;
    }
  }

  /** A snapshot with the signature of the last one is left out, and nothing else. */
  lemma DeduplicatedNotes(last: Option<string>, c: Conn, e: Entry)
    ensures NotesOf(Deduplicated(last, EntryEvents(c, e))) == Deduplicated(last, EntryNotes(e))
    ensures !e.End? ==> SnapshotAfter(last, EntryEvents(c, e)) == SnapshotOf(last, e)
  {
    if e.Values? {
      ValuesNotes(last, c, e);
    } else {
      EntryNotesSent(c, e);
      NoSnapshotFirst(c, e);
    }
  }

  /** What a connection emits for an entry reports the entry's notes, less a repeated snapshot. */
  lemma EmitsNotes(last: Option<string>, c: Conn, e: Entry, emitted: seq<Event>, after: Option<string>)
    requires Emits(last, c, e, emitted, after)
    ensures NotesOf(emitted) == Deduplicated(last, EntryNotes(e)) && after == SnapshotOf(last, e)
  {
    if e.End? {
      NoNotes(emitted[..|emitted| - 1]);
    } else {
      DeduplicatedNotes(last, c, e);
    }
  }
}
