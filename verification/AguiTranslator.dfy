/** The AG-UI translator of `/chat/agui` (app/routers/chat.py): one connection's state, and the
    events it emits for each entry of the run's stream. */
module AguiTranslator {
  import opened Text
  import opened AguiEvents

  /** `generated` is the identifier generated when the call carries none; `args` its serialization. */
  datatype ToolCall = ToolCall(id: string, generated: string, name: string, args: string) {
    function CallId(): string { if id == "" then generated else id }
  }

  /** An entry of the stream bridge; `message` is the identifier of a tool message, generated if it
      has none. A tool call that is not an object is None. */
  datatype Entry =
    | Heartbeat
    | Ai(id: string, generated: string, content: string, reasoning: string, calls: seq<Option<ToolCall>>, sources: Option<string>)
    | ToolMessage(message: string, callId: string, content: string, sources: Option<string>)
    | OtherMessage
    | Values(messages: Option<seq<Shown>>, sources: Option<string>, artifacts: Option<string>)
    | SubToolCall(task: string, call: Option<ToolCall>)
    | SubToolResult(task: string, rawId: string, name: string, content: string)
    | SubToken(task: string, content: string, data: string)
    | SubThinking(task: string, thinking: string, data: string)
    | SubTerminal(task: string, kind: string, data: string)
    | Progress(kind: string, data: string)
    | End(usage: string)
    | Ignored
  {
    function MessageId(): string requires Ai? { if id == "" then generated else id }

    /** The lead text an entry carries; an entry with tool calls carries none. */
    predicate LeadText() { Ai? && calls == [] && content != "" }
  }

  function SubTextId(task: string): string { "subagent:" + (task + ":message") }

  function SubReasoningId(task: string): string { "subagent:" + (task + ":reasoning") }

  function TaskOf(task: string): string { if task == "" then "subagent" else task }

  function SubToolId(task: string, rawId: string, hint: string): string {
    var raw := if rawId == "" then hint else rawId;
    if ("subagent:" + (task + ":")) <= raw then raw else "subagent:" + (task + (":" + raw))
  }

  /** The message identifier of a subagent's tool result. */
  function SubResultId(task: string, id: string): string { "subagent:" + (TaskOf(task) + (":tool-result:" + id)) }

  function ToolName(name: string): string { if name == "" then "tool" else name }

  /** The call of a subagent under its name-spaced identifier. */
  function Namespaced(task: string, call: ToolCall): ToolCall {
    call.(id := SubToolId(TaskOf(task), call.id, ToolName(call.name)))
  }

  // ---- what an entry does to the open messages and calls ----

  function CallIds(calls: seq<Option<ToolCall>>): set<string> {
    set c | c in calls && c.Some? :: c.value.CallId()
  }

  /** The latest serialized arguments of every call. */
  function AddArgs(args: map<string, string>, calls: seq<Option<ToolCall>>): map<string, string> {
    if calls == [] then args else
    var before := AddArgs(args, calls[..|calls| - 1]);
    match calls[|calls| - 1]
    case None => before
    case Some(c) => before[c.CallId() := c.args]
  }

  function CallsOf(e: Entry): seq<Option<ToolCall>> {
    match e
    case Ai(_, _, _, _, calls, _) => calls
    case SubToolCall(task, Some(c)) => [Some(Namespaced(task, c))]
    case _ => []
  }

  function Subs(ids: set<string>): set<string> { set x | x in ids && IsSub(x) }

  /** The calls `ids` are known, those seen for the first time open. */
  function Opened(o: Open, ids: set<string>): Open {
    o.(tools := o.tools + (ids - o.started), started := o.started + ids)
  }

  lemma OpenedNone(o: Open)
    ensures Opened(o, {}) == o
  {
    assert o.tools + ({} - o.started) == o.tools && o.started + {} == o.started;
  }

  lemma OpenedMore(o: Open, ids: set<string>, id: string, name: string, parent: string)
    requires !o.over && o.argsFor == None
    ensures id in o.started + ids ==> Opened(o, ids + {id}) == Opened(o, ids)
    ensures id !in o.started + ids ==>
              forall strict :: Watch(strict, Opened(o, ids), ToolStart(id, name, parent)) == Some(Opened(o, ids + {id}))
  {
    var p, q := Opened(o, ids), Opened(o, ids + {id});
    if id in o.started + ids {
      assert q.tools == p.tools && q.started == p.started;
    } else {
      assert q.tools == p.tools + {id} && q.started == p.started + {id};
    }
  }

  function ReasoningId(id: string): string { "reasoning_" + id }

  function NextOpen(o: Open, e: Entry): Open {
    match e
    case Ai(_, _, content, reasoning, calls, _) =>
      var id := e.MessageId();
      var rid := ReasoningId(id);
      if calls != [] then
        Opened(o.(text := Subs(o.text), reasoning := o.reasoning - {rid}), CallIds(calls))
      else if content != "" then
        o.(text := if id in o.text && !IsSub(id) then o.text else Subs(o.text) + {id}, reasoning := o.reasoning - {rid})
      else if reasoning != "" then o.(reasoning := o.reasoning + {rid})
      else o
    case ToolMessage(_, callId, _, _) => if callId == "" then o else o.(tools := o.tools - {callId})
    case SubToolCall(_, _) => Opened(o, CallIds(CallsOf(e)))
    case SubToolResult(task, rawId, name, _) => o.(tools := o.tools - {SubToolId(TaskOf(task), rawId, ToolName(name))})
    case SubToken(task, content, _) =>
      if task == "" || content == "" then o
      else o.(text := o.text + {SubTextId(task)}, reasoning := o.reasoning - {SubReasoningId(task)})
    case SubThinking(task, thinking, _) =>
      if task == "" || thinking == "" then o else o.(reasoning := o.reasoning + {SubReasoningId(task)})
    case SubTerminal(task, _, _) =>
      if task == "" then o else o.(text := o.text - {SubTextId(task)}, reasoning := o.reasoning - {SubReasoningId(task)})
    case End(_) => Open({}, {}, {}, o.started, None, false)
    case _ => o
  }

  lemma StartsCalls(o: Open, e: Entry)
    ensures NextOpen(o, e).started == o.started + CallIds(CallsOf(e))
  {
    assert CallIds([]) == {} && o.started + {} == o.started;
  }

  /** The text an entry delivers for message `id`. */
  function EntryText(e: Entry, id: string): string {
    if e.LeadText() && e.MessageId() == id then e.content
    else if e.SubToken? && e.task != "" && SubTextId(e.task) == id then e.content
    else ""
  }

  /** A lead message takes over the identifier of a text message that is already open. */
  predicate Collides(o: Open, e: Entry) { e.LeadText() && IsSub(e.MessageId()) && e.MessageId() in o.text }

  /** The events emitted for an entry, seen by a client holding `o` open. */
  ghost predicate Renders(o: Open, e: Entry, evs: seq<Event>) {
    && WatchAll(false, o, evs) == Some(NextOpen(o, e))
    && WatchAll(true, o, evs) == (if Collides(o, e) then None else Some(NextOpen(o, e)))
    && forall id :: TextOf(evs, id) == EntryText(e, id)
  }

  ghost predicate CarriesArgs(args: map<string, string>, evs: seq<Event>) {
    forall e :: e in evs && e.ToolArgs? ==> e.id in args && e.delta == args[e.id]
  }

  function ArgsOf(args: map<string, string>, id: string): string { if id in args then args[id] else "{}" }

  function StateOf(state: map<string, string>, id: string): string { if id in state then state[id] else "" }

  /** However strict, a client holding `o` open accepts `evs` and then holds `p` open. */
  ghost predicate Yields(o: Open, evs: seq<Event>, p: Open) {
    WatchAll(true, o, evs) == WatchAll(false, o, evs) == Some(p)
  }

  lemma YieldsConcat(o: Open, a: seq<Event>, p: Open, b: seq<Event>, q: Open)
    requires Yields(o, a, p) && Yields(p, b, q)
    ensures Yields(o, a + b, q)
  {
    WatchConcat(true, o, a, b);
    WatchConcat(false, o, a, b);
  }

  lemma WatchSnoc(strict: bool, o: Open, evs: seq<Event>, e: Event)
    ensures WatchAll(strict, o, evs + [e]) ==
              match WatchAll(strict, o, evs) case None => None case Some(p) => Watch(strict, p, e)
  {
    assert (evs + [e])[..|evs|] == evs;
  }

  lemma YieldsOne(o: Open, e: Event, p: Open)
    requires forall strict :: Watch(strict, o, e) == Some(p)
    ensures Yields(o, [e], p)
  {
    WatchSnoc(true, o, [], e);
    WatchSnoc(false, o, [], e);
    assert [] + [e] == [e];
  }

  // ---- reasoning deltas ----

  function ReasoningDelta(previous: string, reasoning: string): string {
    if previous != "" && previous <= reasoning then reasoning[|previous|..] else reasoning
  }

  function ReasoningNext(previous: string, reasoning: string): string {
    if previous <= reasoning then reasoning else previous + ReasoningDelta(previous, reasoning)
  }

  /** The stored state is always what has been emitted. */
  lemma ReasoningStep(previous: string, reasoning: string)
    ensures ReasoningNext(previous, reasoning) == previous + ReasoningDelta(previous, reasoning)
  {}

  function ReasoningFold(rs: seq<string>): string {
    if rs == [] then "" else ReasoningNext(ReasoningFold(rs[..|rs| - 1]), rs[|rs| - 1])
  }

  /** Cumulative input: each text extends the one before, and the last text is what comes out. */
  lemma {:induction false} CumulativeReasoning(rs: seq<string>)
    requires rs != [] && forall i :: 0 < i < |rs| ==> rs[i - 1] <= rs[i]
    ensures ReasoningFold(rs) == rs[|rs| - 1]
  {
    if |rs| > 1 {
      CumulativeReasoning(rs[..|rs| - 1]);
      assert rs[|rs| - 2] <= rs[|rs| - 1];
    } else {
      assert rs[..0] == [];
    }
  }

  function Join(rs: seq<string>): string { if rs == [] then "" else Join(rs[..|rs| - 1]) + rs[|rs| - 1] }

  /** Some text begins with all the text before it, which is not empty. */
  predicate Ambiguous(rs: seq<string>) {
    rs != [] &&
    var init, r := rs[..|rs| - 1], rs[|rs| - 1];
    Ambiguous(init) || (Join(init) != "" && Join(init) <= r)
  }

  /** Incremental input: the texts are delivered one after the other exactly when they are not
      ambiguous; otherwise some text is lost. */
  lemma {:induction false} IncrementalReasoning(rs: seq<string>)
    ensures ReasoningFold(rs) == Join(rs) <==> !Ambiguous(rs)
    ensures ReasoningFold(rs) != Join(rs) ==> |ReasoningFold(rs)| < |Join(rs)|
  {
    if rs != [] {
      var init := rs[..|rs| - 1];
      IncrementalReasoning(init);
      ReasoningStep(ReasoningFold(init), rs[|rs| - 1]);
    }
  }

  /** Two pieces of incremental reasoning, the second beginning with the first: a letter is lost. */
  lemma RepeatedReasoningIsLost()
    ensures Join(["a", "ab"]) == "aab" && Ambiguous(["a", "ab"]) && ReasoningFold(["a", "ab"]) == "ab"
  {
    var rs := ["a", "ab"];
    assert rs[..1] == ["a"] && ["a"][..0] == [];
    assert Join(["a"]) == "a" && ReasoningFold(["a"]) == "a";
    assert "a" <= "ab";
  }

  // ---- the events of one entry ----

  /** The state of a connection that decides what an entry is translated to. */
  datatype Conn = Conn(
    openText: Option<string>, args: map<string, string>, tools: set<string>, reasoning: set<string>,
    state: map<string, string>, subText: set<string>, subReasoning: set<string>)

  ghost predicate Sound(c: Conn) {
    && (c.openText.Some? ==> !IsSub(c.openText.value) && c.openText.value != "")
    && (forall x :: x in c.subText ==> IsSub(x))
    && (forall x :: x in c.reasoning ==> !IsSub(x))
    && (forall x :: x in c.subReasoning ==> IsSub(x))
    && c.tools <= c.args.Keys
  }

  function Lead(openText: Option<string>): set<string> { if openText.Some? then {openText.value} else {} }

  function ViewOf(c: Conn): Open {
    Open(c.subText + Lead(c.openText), c.reasoning + c.subReasoning, c.tools, c.args.Keys, None, false)
  }

  function EndReasoning(open: set<string>, id: string): seq<Event> { if id in open then [ReasoningEnd(id)] else [] }

  function EndLead(openText: Option<string>): seq<Event> { if openText.Some? then [TextEnd(openText.value)] else [] }

  function ToolStarts(calls: seq<Option<ToolCall>>, parent: string, started: set<string>): seq<Event> {
    if calls == [] then [] else
    var init := calls[..|calls| - 1];
    ToolStarts(init, parent, started)
    + match calls[|calls| - 1]
      case None => []
      case Some(c) => if c.CallId() in started + CallIds(init) then [] else [ToolStart(c.CallId(), ToolName(c.name), parent)]
  }

  function EndTool(c: Conn, id: string): seq<Event> {
    if id in c.tools then [ToolArgs(id, ArgsOf(c.args, id)), ToolEnd(id)] else []
  }

  function ReasoningBlock(open: set<string>, id: string, reasoning: string, delta: string): seq<Event> {
    if reasoning == "" then []
    else (if id in open then [] else [ReasoningStart(id)]) + (if delta == "" then [] else [ReasoningContent(id, delta)])
  }

  function TextBlock(openText: Option<string>, id: string, content: string): seq<Event> {
    (if openText == Some(id) then [] else EndLead(openText) + [TextStart(id)]) + [TextContent(id, content)]
  }

  function CustomIf(value: Option<string>, kind: CustomKind): seq<Event> {
    if value.Some? then [Custom(kind, value.value)] else []
  }

  /** Reasoning `rid`, then the text of message `id`, which closes the reasoning. */
  function MessageBlock(
    open: set<string>, openText: Option<string>, rid: string, id: string, reasoning: string, delta: string, content: string)
    : seq<Event>
  {
    ReasoningBlock(open, rid, reasoning, delta)
    + if content == "" then []
      else EndReasoning(if reasoning == "" then open else open + {rid}, rid) + TextBlock(openText, id, content)
  }

  function CallsBlock(
    open: set<string>, openText: Option<string>, rid: string, id: string, calls: seq<Option<ToolCall>>, started: set<string>)
    : seq<Event>
  {
    EndReasoning(open, rid) + EndLead(openText) + ToolStarts(calls, id, started)
  }

  function AiEvents(c: Conn, e: Entry): seq<Event>
    requires e.Ai?
  {
    var id, rid := e.MessageId(), ReasoningId(e.MessageId());
    if e.calls != [] then CallsBlock(c.reasoning, c.openText, rid, id, e.calls, c.args.Keys)
    else MessageBlock(c.reasoning, c.openText, rid, id, e.reasoning, ReasoningDelta(StateOf(c.state, rid), e.reasoning), e.content)
  }

  function SubText(open: set<string>, tid: string, content: string): seq<Event> {
    (if tid in open then [] else [TextStart(tid)]) + [TextContent(tid, content)]
  }

  /** A subagent's text: its reasoning `rid` ends, its message `tid` starts if it is not open. */
  function SubTokenBlock(subReasoning: set<string>, rid: string, subText: set<string>, tid: string, content: string): seq<Event> {
    EndReasoning(subReasoning, rid) + SubText(subText, tid, content)
  }

  function SubEndBlock(subReasoning: set<string>, rid: string, subText: set<string>, tid: string): seq<Event> {
    EndReasoning(subReasoning, rid) + (if tid in subText then [TextEnd(tid)] else [])
  }

  /** The events of an entry other than `end`, before snapshots are deduplicated. */
  function EntryEvents(c: Conn, e: Entry): seq<Event> {
    match e
    case Ai(_, _, _, _, _, sources) => AiEvents(c, e) + CustomIf(sources, SourcesName)
    case ToolMessage(message, callId, content, sources) =>
      (if callId == "" then [] else EndTool(c, callId) + [ToolResult(message, callId, content)])
      + CustomIf(sources, SourcesName)
    case Values(messages, sources, artifacts) =>
      (if messages.None? then [] else [Snapshot(messages.value)] + CustomIf(sources, SourcesName))
      + CustomIf(artifacts, ArtifactsName)
    case SubToolCall(task, call) =>
      if call.None? then [] else ToolStarts(CallsOf(e), "subagent:" + TaskOf(task), c.args.Keys)
    case SubToolResult(task, rawId, name, content) =>
      var id := SubToolId(TaskOf(task), rawId, ToolName(name));
      EndTool(c, id) + [ToolResult(SubResultId(task, id), id, content)]
    case SubToken(task, content, data) =>
      [Custom(TokenName, data)]
      + if task == "" || content == "" then []
        else SubTokenBlock(c.subReasoning, SubReasoningId(task), c.subText, SubTextId(task), content)
    case SubThinking(task, thinking, data) =>
      [Custom(ThinkingName, data)]
      + if task == "" || thinking == "" then []
        else (if SubReasoningId(task) in c.subReasoning then [] else [ReasoningStart(SubReasoningId(task))])
             + [ReasoningContent(SubReasoningId(task), thinking)]
    case SubTerminal(task, kind, data) =>
      (if task == "" then []
       else SubEndBlock(c.subReasoning, SubReasoningId(task), c.subText, SubTextId(task)))
      + [Custom(TaskName(kind), data)]
    case Progress(kind, data) => [Custom(OtherName(kind), data)]
    case Heartbeat => [Custom(HeartbeatName, "{}")]
    case End(usage) => [Custom(UsageName, usage)]
    case OtherMessage => []
    case Ignored => []
  }

  /** Generated identifiers are never empty. */
  predicate WellFormed(e: Entry) { e.Ai? ==> e.MessageId() != "" }

  lemma EndReasoningYields(o: Open, id: string, open: set<string>)
    requires !o.over && o.argsFor == None && (id in open <==> id in o.reasoning)
    ensures Yields(o, EndReasoning(open, id), o.(reasoning := o.reasoning - {id}))
  {
    if id in open {
      YieldsOne(o, ReasoningEnd(id), o.(reasoning := o.reasoning - {id}));
    } else {
      assert o.reasoning - {id} == o.reasoning;
    }
  }

  /** `openText` is the one lead message open. */
  ghost predicate LeadIs(o: Open, openText: Option<string>) {
    forall x :: x in o.text && !IsSub(x) <==> openText == Some(x)
  }

  lemma EndLeadYields(o: Open, openText: Option<string>)
    requires !o.over && o.argsFor == None && LeadIs(o, openText)
    ensures Yields(o, EndLead(openText), o.(text := Subs(o.text)))
    ensures !LeadOpen(o.(text := Subs(o.text)))
  {
    if openText.Some? {
      assert openText.value in o.text;
      assert o.text - {openText.value} == Subs(o.text);
      YieldsOne(o, TextEnd(openText.value), o.(text := Subs(o.text)));
    } else {
      assert Subs(o.text) == o.text;
    }
  }

  lemma ToolStartYields(o: Open, ids: set<string>, c: ToolCall, parent: string)
    requires !o.over && o.argsFor == None
    ensures Yields(Opened(o, ids), if c.CallId() in o.started + ids then [] else [ToolStart(c.CallId(), ToolName(c.name), parent)],
                   Opened(o, ids + {c.CallId()}))
  {
    OpenedMore(o, ids, c.CallId(), ToolName(c.name), parent);
    if c.CallId() !in o.started + ids {
      YieldsOne(Opened(o, ids), ToolStart(c.CallId(), ToolName(c.name), parent), Opened(o, ids + {c.CallId()}));
    }
  }

  lemma CallsSnoc(args: map<string, string>, calls: seq<Option<ToolCall>>, i: nat)
    requires i < |calls|
    ensures var c, before := calls[i], AddArgs(args, calls[..i]);
            && AddArgs(args, calls[..i + 1]) == (if c.None? then before else before[c.value.CallId() := c.value.args])
            && CallIds(calls[..i + 1]) == CallIds(calls[..i]) + (if c.Some? then {c.value.CallId()} else {})
  {
    assert calls[..i + 1] == calls[..i] + [calls[i]] && calls[..i + 1][..i] == calls[..i];
  }

  lemma {:induction false} ToolStartsYield(o: Open, calls: seq<Option<ToolCall>>, parent: string)
    requires !o.over && o.argsFor == None
    ensures Yields(o, ToolStarts(calls, parent, o.started), Opened(o, CallIds(calls)))
  {
    if calls == [] {
      assert CallIds(calls) == {};
      OpenedNone(o);
    } else {
      var n := |calls| - 1;
      var init, last := calls[..n], calls[n];
      ToolStartsYield(o, init, parent);
      CallsSnoc(map[], calls, n);
      assert calls[..n + 1] == calls;
      if last.Some? {
        ToolStartYields(o, CallIds(init), last.value, parent);
        YieldsConcat(o, ToolStarts(init, parent, o.started), Opened(o, CallIds(init)),
                     if last.value.CallId() in o.started + CallIds(init) then []
                     else [ToolStart(last.value.CallId(), ToolName(last.value.name), parent)],
                     Opened(o, CallIds(calls)));
      } else {
        assert ToolStarts(calls, parent, o.started) == ToolStarts(init, parent, o.started) && CallIds(calls) == CallIds(init);
      }
    }
  }

  /** Events that carry no text and no reasoning. */
  ghost predicate Silent(evs: seq<Event>) {
    forall k :: 0 <= k < |evs| ==> !evs[k].TextContent? && !evs[k].ReasoningContent?
  }

  lemma {:induction false} SilentDelivers(evs: seq<Event>, id: string)
    requires Silent(evs)
    ensures TextOf(evs, id) == ReasoningOf(evs, id) == ""
  {
    if evs != [] { SilentDelivers(evs[..|evs| - 1], id); }
  }

  lemma {:induction false} ToolStartsSilent(calls: seq<Option<ToolCall>>, parent: string, started: set<string>)
    ensures Silent(ToolStarts(calls, parent, started))
  {
    if calls != [] { ToolStartsSilent(calls[..|calls| - 1], parent, started); }
  }

  /** Custom events and results say nothing about open messages. */
  lemma NeutralYields(o: Open, e: Event)
    requires !o.over && o.argsFor == None && (e.Custom? || e.Snapshot? || e.ToolResult?)
    ensures Yields(o, [e], o)
  {
    YieldsOne(o, e, o);
  }

  lemma EndToolYields(o: Open, c: Conn, id: string)
    requires !o.over && o.argsFor == None && o.tools == c.tools
    ensures Yields(o, EndTool(c, id), o.(tools := o.tools - {id}))
  {
    if id in c.tools {
      var mid, end := o.(argsFor := Some(id)), o.(tools := o.tools - {id});
      YieldsOne(o, ToolArgs(id, ArgsOf(c.args, id)), mid);
      YieldsOne(mid, ToolEnd(id), end);
      YieldsConcat(o, [ToolArgs(id, ArgsOf(c.args, id))], mid, [ToolEnd(id)], end);
      assert EndTool(c, id) == [ToolArgs(id, ArgsOf(c.args, id))] + [ToolEnd(id)];
    } else {
      assert o.tools - {id} == o.tools;
    }
  }

  lemma ReasoningBlockYields(o: Open, open: set<string>, id: string, reasoning: string, delta: string)
    requires !o.over && o.argsFor == None && (id in open <==> id in o.reasoning)
    ensures Yields(o, ReasoningBlock(open, id, reasoning, delta),
                   if reasoning == "" then o else o.(reasoning := o.reasoning + {id}))
  {
    if reasoning != "" {
      var p := o.(reasoning := o.reasoning + {id});
      var start := if id in open then [] else [ReasoningStart(id)];
      var content := if delta == "" then [] else [ReasoningContent(id, delta)];
      if id in open { assert o.reasoning + {id} == o.reasoning; } else { YieldsOne(o, ReasoningStart(id), p); }
      if delta != "" { YieldsOne(p, ReasoningContent(id, delta), p); }
      YieldsConcat(o, start, p, content, p);
    }
  }

  lemma NewTextAccepted(strict: bool, p: Open, id: string, content: string)
    requires !p.over && p.argsFor == None && !LeadOpen(p)
    ensures WatchAll(strict, p, [TextStart(id)] + [TextContent(id, content)]) ==
              if strict && id in p.text then None else Some(p.(text := p.text + {id}))
  {
    WatchSnoc(strict, p, [], TextStart(id));
    WatchSnoc(strict, p, [TextStart(id)], TextContent(id, content));
    assert [] + [TextStart(id)] == [TextStart(id)];
  }

  lemma WatchAfter(strict: bool, o: Open, a: seq<Event>, p: Open, b: seq<Event>)
    requires Yields(o, a, p)
    ensures WatchAll(strict, o, a + b) == WatchAll(strict, p, b)
  {
    WatchConcat(strict, o, a, b);
  }

  lemma ConcatAssociates(a: seq<Event>, b: seq<Event>, c: seq<Event>)
    ensures a + (b + c) == (a + b) + c
  {}

  /** A lead text block; a strict client refuses it when its identifier is already open as a
      subagent's message. */
  lemma TextBlockAccepted(strict: bool, o: Open, openText: Option<string>, id: string, content: string)
    requires !o.over && o.argsFor == None && LeadIs(o, openText) && (openText == Some(id) ==> !IsSub(id))
    ensures WatchAll(strict, o, TextBlock(openText, id, content)) ==
              if strict && IsSub(id) && id in o.text then None
              else Some(o.(text := if id in o.text && !IsSub(id) then o.text else Subs(o.text) + {id}))
  {
    if openText == Some(id) {
      assert id in o.text;
      YieldsOne(o, TextContent(id, content), o);
      assert TextBlock(openText, id, content) == [TextContent(id, content)];
    } else {
      EndLeadYields(o, openText);
      var p := o.(text := Subs(o.text));
      NewTextAccepted(strict, p, id, content);
      WatchAfter(strict, o, EndLead(openText), p, [TextStart(id)] + [TextContent(id, content)]);
      ConcatAssociates(EndLead(openText), [TextStart(id)], [TextContent(id, content)]);
    }
  }

  lemma SubIdsAreSub(task: string)
    ensures IsSub(SubTextId(task)) && IsSub(SubReasoningId(task))
  {}

  /** Subagents think apart from each other. */
  lemma SubReasoningIdsDiffer(task: string, other: string)
    ensures SubReasoningId(task) == SubReasoningId(other) ==> task == other
  {
    var a, b := SubReasoningId(task), SubReasoningId(other);
    assert a[9..|a| - 10] == task && b[9..|b| - 10] == other;
  }

  lemma ReasoningIdIsLead(id: string)
    ensures !IsSub(ReasoningId(id))
  {
    assert ReasoningId(id)[0] == 'r';
  }

  /** Renders without a clash of identifiers. */
  lemma RendersPlainly(o: Open, e: Entry, evs: seq<Event>)
    requires Yields(o, evs, NextOpen(o, e)) && !Collides(o, e)
    requires forall id :: TextOf(evs, id) == EntryText(e, id)
    ensures Renders(o, e, evs)
  {}

  /** Silence on either side adds nothing. */
  lemma SilentSides(a: seq<Event>, b: seq<Event>)
    ensures Silent(a) ==> forall id :: TextOf(a + b, id) == TextOf(b, id) && ReasoningOf(a + b, id) == ReasoningOf(b, id)
    ensures Silent(b) ==> forall id :: TextOf(a + b, id) == TextOf(a, id) && ReasoningOf(a + b, id) == ReasoningOf(a, id)
  {
    forall id
      ensures Silent(a) ==> TextOf(a + b, id) == TextOf(b, id) && ReasoningOf(a + b, id) == ReasoningOf(b, id)
      ensures Silent(b) ==> TextOf(a + b, id) == TextOf(a, id) && ReasoningOf(a + b, id) == ReasoningOf(a, id)
    {
      TextConcat(a, b, id);
      if Silent(a) {
        SilentDelivers(a, id);
        AddsNothing(TextOf(b, id));
        AddsNothing(ReasoningOf(b, id));
      }
      if Silent(b) {
        SilentDelivers(b, id);
        AddsNothing(TextOf(a, id));
        AddsNothing(ReasoningOf(a, id));
      }
    }
  }

  lemma OneText(id0: string, content: string)
    ensures forall id :: TextOf([TextContent(id0, content)], id) == (if id == id0 then content else "")
                         && ReasoningOf([TextContent(id0, content)], id) == ""
  {
    assert [TextContent(id0, content)][..0] == [];
    AddsNothing(content);
  }

  lemma OneReasoning(id0: string, content: string)
    ensures forall id :: ReasoningOf([ReasoningContent(id0, content)], id) == (if id == id0 then content else "")
                         && TextOf([ReasoningContent(id0, content)], id) == ""
  {
    assert [ReasoningContent(id0, content)][..0] == [];
    AddsNothing(content);
  }

  lemma SilentDeliversNothing(evs: seq<Event>)
    requires Silent(evs)
    ensures forall id :: TextOf(evs, id) == ReasoningOf(evs, id) == ""
  {
    forall id ensures TextOf(evs, id) == ReasoningOf(evs, id) == "" { SilentDelivers(evs, id); }
  }

  lemma ReasoningBlockDelivers(open: set<string>, rid: string, reasoning: string, delta: string)
    requires reasoning == "" ==> delta == ""
    ensures forall id :: TextOf(ReasoningBlock(open, rid, reasoning, delta), id) == ""
    ensures forall id :: ReasoningOf(ReasoningBlock(open, rid, reasoning, delta), id) == if id == rid then delta else ""
  {
    var start := if rid in open then [] else [ReasoningStart(rid)];
    var content := if delta == "" then [] else [ReasoningContent(rid, delta)];
    if delta != "" { OneReasoning(rid, delta); }
    SilentSides(start, content);
  }

  lemma TextBlockDelivers(openText: Option<string>, mid: string, content: string)
    ensures forall id :: TextOf(TextBlock(openText, mid, content), id) == if id == mid then content else ""
    ensures forall id :: ReasoningOf(TextBlock(openText, mid, content), id) == ""
  {
    var start := if openText == Some(mid) then [] else EndLead(openText) + [TextStart(mid)];
    OneText(mid, content);
    SilentSides(start, [TextContent(mid, content)]);
  }

  /** The thought of a subagent that an entry carries, if `id` is where that subagent thinks. */
  function EntryThought(e: Entry, id: string): string {
    if e.SubThinking? && e.task != "" && id == SubReasoningId(e.task) then e.thinking else ""
  }

  /** The reasoning an entry delivers for `id`. */
  function EntryReasoning(c: Conn, e: Entry, id: string): string {
    if e.Ai? && e.calls == [] && e.reasoning != "" && id == ReasoningId(e.MessageId())
    then ReasoningDelta(StateOf(c.state, id), e.reasoning) else EntryThought(e, id)
  }

  lemma CallsBlockYields(
    o: Open, open: set<string>, openText: Option<string>, rid: string, id: string, calls: seq<Option<ToolCall>>)
    requires !o.over && o.argsFor == None && LeadIs(o, openText) && (rid in open <==> rid in o.reasoning)
    ensures Yields(o, CallsBlock(open, openText, rid, id, calls, o.started),
                   Opened(o.(text := Subs(o.text), reasoning := o.reasoning - {rid}), CallIds(calls)))
  {
    var o1 := o.(reasoning := o.reasoning - {rid});
    var o2 := o.(text := Subs(o.text), reasoning := o.reasoning - {rid});
    EndReasoningYields(o, rid, open);
    EndLeadYields(o1, openText);
    assert o2 == o1.(text := Subs(o1.text));
    YieldsConcat(o, EndReasoning(open, rid), o1, EndLead(openText), o2);
    ToolStartsYield(o2, calls, id);
    YieldsConcat(o, EndReasoning(open, rid) + EndLead(openText), o2, ToolStarts(calls, id, o.started),
                 Opened(o2, CallIds(calls)));
  }

  lemma CallsBlockSilent(
    open: set<string>, openText: Option<string>, rid: string, id: string, calls: seq<Option<ToolCall>>, started: set<string>)
    ensures Silent(CallsBlock(open, openText, rid, id, calls, started))
  {
    ToolStartsSilent(calls, id, started);
  }

  /** The reasoning of a message is written and closed again before its text. */
  lemma ReasoningBeforeText(o: Open, open: set<string>, rid: string, reasoning: string, delta: string)
    requires !o.over && o.argsFor == None && (rid in open <==> rid in o.reasoning)
    ensures Yields(o, ReasoningBlock(open, rid, reasoning, delta)
                      + EndReasoning(if reasoning == "" then open else open + {rid}, rid),
                   o.(reasoning := o.reasoning - {rid}))
  {
    var o1 := if reasoning == "" then o else o.(reasoning := o.reasoning + {rid});
    var open1 := if reasoning == "" then open else open + {rid};
    ReasoningBlockYields(o, open, rid, reasoning, delta);
    EndReasoningYields(o1, rid, open1);
    assert o1.reasoning - {rid} == o.reasoning - {rid};
    YieldsConcat(o, ReasoningBlock(open, rid, reasoning, delta), o1, EndReasoning(open1, rid),
                 o.(reasoning := o.reasoning - {rid}));
  }

  lemma MessageBlockAccepted(
    strict: bool, o: Open, open: set<string>, openText: Option<string>, rid: string, id: string,
    reasoning: string, delta: string, content: string)
    requires !o.over && o.argsFor == None && LeadIs(o, openText) && (rid in open <==> rid in o.reasoning)
    requires openText == Some(id) ==> !IsSub(id)
    requires content != ""
    ensures WatchAll(strict, o, MessageBlock(open, openText, rid, id, reasoning, delta, content)) ==
              if strict && IsSub(id) && id in o.text then None
              else Some(o.(text := if id in o.text && !IsSub(id) then o.text else Subs(o.text) + {id},
                           reasoning := o.reasoning - {rid}))
  {
    var o2 := o.(reasoning := o.reasoning - {rid});
    var before := ReasoningBlock(open, rid, reasoning, delta)
                  + EndReasoning(if reasoning == "" then open else open + {rid}, rid);
    ReasoningBeforeText(o, open, rid, reasoning, delta);
    TextBlockAccepted(strict, o2, openText, id, content);
    WatchAfter(strict, o, before, o2, TextBlock(openText, id, content));
    ConcatAssociates(ReasoningBlock(open, rid, reasoning, delta),
                     EndReasoning(if reasoning == "" then open else open + {rid}, rid), TextBlock(openText, id, content));
  }

  lemma ReasoningThenText(a: seq<Event>, b: seq<Event>)
    requires forall id :: TextOf(a, id) == "" && ReasoningOf(b, id) == ""
    ensures forall id :: TextOf(a + b, id) == TextOf(b, id) && ReasoningOf(a + b, id) == ReasoningOf(a, id)
  {
    forall id ensures TextOf(a + b, id) == TextOf(b, id) && ReasoningOf(a + b, id) == ReasoningOf(a, id) {
      TextConcat(a, b, id);
      assert TextOf(a, id) == "" && ReasoningOf(b, id) == "";
      AddsNothing(TextOf(b, id));
      AddsNothing(ReasoningOf(a, id));
    }
  }

  lemma EndReasoningSilent(open: set<string>, id: string)
    ensures Silent(EndReasoning(open, id))
  {}

  lemma MessageBlockDelivers(
    open: set<string>, openText: Option<string>, rid: string, mid: string, reasoning: string, delta: string, content: string)
    requires reasoning == "" ==> delta == ""
    ensures var evs := MessageBlock(open, openText, rid, mid, reasoning, delta, content);
            forall id :: TextOf(evs, id) == (if id == mid then content else "")
                         && ReasoningOf(evs, id) == (if id == rid then delta else "")
  {
    var block := ReasoningBlock(open, rid, reasoning, delta);
    ReasoningBlockDelivers(open, rid, reasoning, delta);
    if content == "" {
      assert MessageBlock(open, openText, rid, mid, reasoning, delta, content) == block;
    } else {
      var close := EndReasoning(if reasoning == "" then open else open + {rid}, rid);
      var text := TextBlock(openText, mid, content);
      TextBlockDelivers(openText, mid, content);
      EndReasoningSilent(if reasoning == "" then open else open + {rid}, rid);
      SilentSides(close, text);
      ReasoningThenText(block, close + text);
    }
  }

  lemma LeadMembership(c: Conn, id: string)
    requires Sound(c)
    ensures LeadIs(ViewOf(c), c.openText) && (c.openText == Some(id) ==> !IsSub(id))
    ensures ReasoningId(id) in c.reasoning <==> ReasoningId(id) in ViewOf(c).reasoning
  {
    ReasoningIdIsLead(id);
  }

  lemma NeutralTail(o: Open, evs: seq<Event>, p: Open, tail: Event)
    requires Yields(o, evs, p) && !p.over && p.argsFor == None
    requires tail.Custom? || tail.Snapshot? || tail.ToolResult?
    ensures Yields(o, evs + [tail], p)
    ensures forall id :: TextOf(evs + [tail], id) == TextOf(evs, id) && ReasoningOf(evs + [tail], id) == ReasoningOf(evs, id)
  {
    NeutralYields(p, tail);
    YieldsConcat(o, evs, p, [tail], p);
    SilentSides(evs, [tail]);
  }

  lemma AfterSilence(o: Open, a: seq<Event>, p: Open, b: seq<Event>, q: Open)
    requires Yields(o, a, p) && Silent(a) && Yields(p, b, q)
    ensures Yields(o, a + b, q)
    ensures forall id :: TextOf(a + b, id) == TextOf(b, id) && ReasoningOf(a + b, id) == ReasoningOf(b, id)
  {
    YieldsConcat(o, a, p, b, q);
    SilentSides(a, b);
  }

  /** A subagent's text block, in an open message or a new one. */
  lemma SubTextYields(o: Open, open: set<string>, tid: string, content: string)
    requires !o.over && o.argsFor == None && IsSub(tid) && (tid in open <==> tid in o.text)
    ensures Yields(o, SubText(open, tid, content), o.(text := o.text + {tid}))
  {
    var p := o.(text := o.text + {tid});
    YieldsOne(p, TextContent(tid, content), p);
    if tid in open {
      assert o.text + {tid} == o.text;
      assert SubText(open, tid, content) == [TextContent(tid, content)];
    } else {
      YieldsOne(o, TextStart(tid), p);
      YieldsConcat(o, [TextStart(tid)], p, [TextContent(tid, content)], p);
    }
  }

  lemma SubTextDelivers(open: set<string>, tid: string, content: string)
    ensures var evs := SubText(open, tid, content);
            forall id :: TextOf(evs, id) == (if id == tid then content else "") && ReasoningOf(evs, id) == ""
  {
    OneText(tid, content);
    SilentSides(if tid in open then [] else [TextStart(tid)], [TextContent(tid, content)]);
  }

  /** A subagent's identifiers are open in the view exactly when they are in its own sets. */
  lemma SubMembership(c: Conn, task: string)
    requires Sound(c)
    ensures IsSub(SubTextId(task)) && IsSub(SubReasoningId(task))
    ensures SubTextId(task) in c.subText <==> SubTextId(task) in ViewOf(c).text
    ensures SubReasoningId(task) in c.subReasoning <==> SubReasoningId(task) in ViewOf(c).reasoning
  {}

  lemma SubTokenBlockYields(
    o: Open, subReasoning: set<string>, rid: string, subText: set<string>, tid: string, content: string)
    requires !o.over && o.argsFor == None && IsSub(tid)
    requires (tid in subText <==> tid in o.text) && (rid in subReasoning <==> rid in o.reasoning)
    ensures Yields(o, SubTokenBlock(subReasoning, rid, subText, tid, content),
                   o.(text := o.text + {tid}, reasoning := o.reasoning - {rid}))
  {
    var o1 := o.(reasoning := o.reasoning - {rid});
    EndReasoningYields(o, rid, subReasoning);
    SubTextYields(o1, subText, tid, content);
    YieldsConcat(o, EndReasoning(subReasoning, rid), o1, SubText(subText, tid, content), o1.(text := o1.text + {tid}));
  }

  lemma SubTokenBlockDelivers(subReasoning: set<string>, rid: string, subText: set<string>, tid: string, content: string)
    ensures var evs := SubTokenBlock(subReasoning, rid, subText, tid, content);
            forall id :: TextOf(evs, id) == (if id == tid then content else "") && ReasoningOf(evs, id) == ""
  {
    EndReasoningSilent(subReasoning, rid);
    SubTextDelivers(subText, tid, content);
    SilentSides(EndReasoning(subReasoning, rid), SubText(subText, tid, content));
  }

  lemma SubTokenRenders(c: Conn, e: Entry)
    requires Sound(c) && e.SubToken?
    ensures Yields(ViewOf(c), EntryEvents(c, e), NextOpen(ViewOf(c), e))
    ensures forall id :: TextOf(EntryEvents(c, e), id) == EntryText(e, id) && ReasoningOf(EntryEvents(c, e), id) == ""
  {
    var head := [Custom(TokenName, e.data)];
    NeutralYields(ViewOf(c), head[0]);
    SilentDeliversNothing(head);
    if e.task != "" && e.content != "" {
      SubMembership(c, e.task);
      SubTokenBlockYields(ViewOf(c), c.subReasoning, SubReasoningId(e.task), c.subText, SubTextId(e.task), e.content);
      SubTokenBlockDelivers(c.subReasoning, SubReasoningId(e.task), c.subText, SubTextId(e.task), e.content);
      var block := SubTokenBlock(c.subReasoning, SubReasoningId(e.task), c.subText, SubTextId(e.task), e.content);
      AfterSilence(ViewOf(c), head, ViewOf(c), block, NextOpen(ViewOf(c), e));
    } else {
      assert EntryEvents(c, e) == head;
    }
  }

  lemma SubThinkingRenders(c: Conn, e: Entry)
    requires Sound(c) && e.SubThinking?
    ensures Yields(ViewOf(c), EntryEvents(c, e), NextOpen(ViewOf(c), e))
    ensures forall id :: TextOf(EntryEvents(c, e), id) == ""
    ensures forall id :: ReasoningOf(EntryEvents(c, e), id) == EntryThought(e, id)
  {
    var o := ViewOf(c);
    var head := [Custom(ThinkingName, e.data)];
    NeutralYields(o, head[0]);
    SilentDeliversNothing(head);
    if e.task != "" && e.thinking != "" {
      var rid := SubReasoningId(e.task);
      var block := ReasoningBlock(c.subReasoning, rid, e.thinking, e.thinking);
      ReasoningBlockYields(o, c.subReasoning, rid, e.thinking, e.thinking);
      ReasoningBlockDelivers(c.subReasoning, rid, e.thinking, e.thinking);
      AfterSilence(o, head, o, block, o.(reasoning := o.reasoning + {rid}));
      assert EntryEvents(c, e) == head + block;
    } else {
      assert EntryEvents(c, e) == head;
    }
  }

  lemma SubEndYields(o: Open, subReasoning: set<string>, rid: string, subText: set<string>, tid: string)
    requires !o.over && o.argsFor == None
    requires (tid in subText <==> tid in o.text) && (rid in subReasoning <==> rid in o.reasoning)
    ensures Yields(o, SubEndBlock(subReasoning, rid, subText, tid),
                   o.(text := o.text - {tid}, reasoning := o.reasoning - {rid}))
    ensures Silent(SubEndBlock(subReasoning, rid, subText, tid))
  {
    var o1 := o.(reasoning := o.reasoning - {rid});
    var o2 := o1.(text := o1.text - {tid});
    EndReasoningYields(o, rid, subReasoning);
    if tid in subText { YieldsOne(o1, TextEnd(tid), o2); } else { assert o1.text - {tid} == o1.text; }
    YieldsConcat(o, EndReasoning(subReasoning, rid), o1, if tid in subText then [TextEnd(tid)] else [], o2);
  }

  lemma SubEndThen(o: Open, subReasoning: set<string>, rid: string, subText: set<string>, tid: string, tail: Event)
    requires !o.over && o.argsFor == None && tail.Custom?
    requires (tid in subText <==> tid in o.text) && (rid in subReasoning <==> rid in o.reasoning)
    ensures Yields(o, SubEndBlock(subReasoning, rid, subText, tid) + [tail],
                   o.(text := o.text - {tid}, reasoning := o.reasoning - {rid}))
    ensures Silent(SubEndBlock(subReasoning, rid, subText, tid) + [tail])
  {
    SubEndYields(o, subReasoning, rid, subText, tid);
    NeutralTail(o, SubEndBlock(subReasoning, rid, subText, tid),
                o.(text := o.text - {tid}, reasoning := o.reasoning - {rid}), tail);
  }

  lemma SubTerminalRenders(c: Conn, e: Entry)
    requires Sound(c) && e.SubTerminal?
    ensures Yields(ViewOf(c), EntryEvents(c, e), NextOpen(ViewOf(c), e)) && Silent(EntryEvents(c, e))
  {
    if e.task != "" {
      SubMembership(c, e.task);
      SubEndThen(ViewOf(c), c.subReasoning, SubReasoningId(e.task), c.subText, SubTextId(e.task), Custom(TaskName(e.kind), e.data));
    } else {
      NeutralTail(ViewOf(c), [], ViewOf(c), Custom(TaskName(e.kind), e.data));
      assert EntryEvents(c, e) == [] + [Custom(TaskName(e.kind), e.data)];
    }
  }

  lemma EndToolDelivers(c: Conn, tool: string)
    ensures forall id :: TextOf(EndTool(c, tool), id) == ReasoningOf(EndTool(c, tool), id) == ""
  {
    SilentDeliversNothing(EndTool(c, tool));
  }

  lemma ToolEntryRenders(c: Conn, e: Entry)
    requires Sound(c) && (e.ToolMessage? || e.SubToolResult? || e.SubToolCall?)
    ensures Yields(ViewOf(c), EntryEvents(c, e), NextOpen(ViewOf(c), e))
    ensures forall id :: TextOf(EntryEvents(c, e), id) == ReasoningOf(EntryEvents(c, e), id) == ""
  {
    var o := ViewOf(c);
    match e
    case ToolMessage(message, callId, content, sources) =>
      var body := if callId == "" then [] else EndTool(c, callId) + [ToolResult(message, callId, content)];
      var p := NextOpen(o, e);
      if callId != "" {
        EndToolYields(o, c, callId);
        EndToolDelivers(c, callId);
        NeutralTail(o, EndTool(c, callId), p, ToolResult(message, callId, content));
      }
      if sources.Some? {
        NeutralTail(o, body, p, Custom(SourcesName, sources.value));
      } else {
        assert EntryEvents(c, e) == body;
      }
    case SubToolResult(task, rawId, name, content) =>
      var id := SubToolId(TaskOf(task), rawId, ToolName(name));
      EndToolYields(o, c, id);
      EndToolDelivers(c, id);
      NeutralTail(o, EndTool(c, id), NextOpen(o, e), ToolResult(SubResultId(task, id), id, content));
    case SubToolCall(task, call) =>
      if call.None? {
        assert CallIds(CallsOf(e)) == {};
        OpenedNone(o);
      } else {
        ToolStartsYield(o, CallsOf(e), "subagent:" + TaskOf(task));
        ToolStartsSilent(CallsOf(e), "subagent:" + TaskOf(task), c.args.Keys);
        SilentDeliversNothing(EntryEvents(c, e));
      }
  }

  lemma AiCallsRender(c: Conn, e: Entry)
    requires Sound(c) && e.Ai? && e.calls != []
    ensures Renders(ViewOf(c), e, AiEvents(c, e))
    ensures forall id :: ReasoningOf(AiEvents(c, e), id) == EntryReasoning(c, e, id)
  {
    var id, rid := e.MessageId(), ReasoningId(e.MessageId());
    LeadMembership(c, id);
    CallsBlockYields(ViewOf(c), c.reasoning, c.openText, rid, id, e.calls);
    CallsBlockSilent(c.reasoning, c.openText, rid, id, e.calls, c.args.Keys);
    SilentDeliversNothing(AiEvents(c, e));
  }

  lemma AiTextAccepted(strict: bool, c: Conn, e: Entry)
    requires Sound(c) && e.Ai? && e.calls == []
    ensures WatchAll(strict, ViewOf(c), AiEvents(c, e)) ==
              if strict && Collides(ViewOf(c), e) then None else Some(NextOpen(ViewOf(c), e))
  {
    var o, id, rid := ViewOf(c), e.MessageId(), ReasoningId(e.MessageId());
    var delta := ReasoningDelta(StateOf(c.state, rid), e.reasoning);
    LeadMembership(c, id);
    if e.content == "" {
      ReasoningBlockYields(o, c.reasoning, rid, e.reasoning, delta);
      assert AiEvents(c, e) == ReasoningBlock(c.reasoning, rid, e.reasoning, delta);
    } else {
      MessageBlockAccepted(strict, o, c.reasoning, c.openText, rid, id, e.reasoning, delta, e.content);
    }
  }

  lemma AiTextDelivers(c: Conn, e: Entry)
    requires e.Ai? && e.calls == []
    ensures forall id :: TextOf(AiEvents(c, e), id) == EntryText(e, id)
    ensures forall id :: ReasoningOf(AiEvents(c, e), id) == EntryReasoning(c, e, id)
  {
    var id, rid := e.MessageId(), ReasoningId(e.MessageId());
    MessageBlockDelivers(c.reasoning, c.openText, rid, id, e.reasoning,
                         ReasoningDelta(StateOf(c.state, rid), e.reasoning), e.content);
  }

  lemma AiBodyRenders(c: Conn, e: Entry)
    requires Sound(c) && e.Ai?
    ensures Renders(ViewOf(c), e, AiEvents(c, e))
    ensures forall id :: ReasoningOf(AiEvents(c, e), id) == EntryReasoning(c, e, id)
  {
    if e.calls != [] {
      AiCallsRender(c, e);
    } else {
      AiTextAccepted(true, c, e);
      AiTextAccepted(false, c, e);
      AiTextDelivers(c, e);
    }
  }

  lemma RendersTail(o: Open, e: Entry, evs: seq<Event>, tail: Event)
    requires Renders(o, e, evs) && tail.Custom? && !NextOpen(o, e).over && NextOpen(o, e).argsFor == None
    ensures Renders(o, e, evs + [tail])
    ensures forall id :: ReasoningOf(evs + [tail], id) == ReasoningOf(evs, id)
  {
    WatchSnoc(true, o, evs, tail);
    WatchSnoc(false, o, evs, tail);
    SilentSides(evs, [tail]);
  }

  lemma AiRenders(c: Conn, e: Entry)
    requires Sound(c) && WellFormed(e) && e.Ai?
    ensures Renders(ViewOf(c), e, EntryEvents(c, e))
    ensures forall id :: ReasoningOf(EntryEvents(c, e), id) == EntryReasoning(c, e, id)
  {
    AiBodyRenders(c, e);
    if e.sources.Some? {
      RendersTail(ViewOf(c), e, AiEvents(c, e), Custom(SourcesName, e.sources.value));
    } else {
      assert EntryEvents(c, e) == AiEvents(c, e);
    }
  }

  lemma SubMessageRenders(c: Conn, e: Entry)
    requires Sound(c) && (e.SubToken? || e.SubThinking? || e.SubTerminal?)
    ensures Renders(ViewOf(c), e, EntryEvents(c, e))
    ensures forall id :: ReasoningOf(EntryEvents(c, e), id) == EntryThought(e, id)
  {
    if e.SubToken? {
      SubTokenRenders(c, e);
    } else if e.SubThinking? {
      SubThinkingRenders(c, e);
    } else {
      SubTerminalRenders(c, e);
      SilentDeliversNothing(EntryEvents(c, e));
    }
    RendersPlainly(ViewOf(c), e, EntryEvents(c, e));
  }

  lemma {:induction false} NeutralRender(o: Open, evs: seq<Event>)
    requires !o.over && o.argsFor == None
    requires forall k :: 0 <= k < |evs| ==> evs[k].Custom? || evs[k].Snapshot?
    ensures Yields(o, evs, o)
    ensures forall id :: TextOf(evs, id) == ReasoningOf(evs, id) == ""
  {
    if evs != [] {
      NeutralRender(o, evs[..|evs| - 1]);
      NeutralTail(o, evs[..|evs| - 1], o, evs[|evs| - 1]);
      assert evs == evs[..|evs| - 1] + [evs[|evs| - 1]];
    }
  }

  /** Every entry but `end` is rendered as intended: a client that follows the stream accepts
      the events and then holds open exactly what the entry leaves open; the text delivered is
      the entry's; and the reasoning delivered is what the entry adds to the stored state. */
  lemma EntryRenders(c: Conn, e: Entry)
    requires Sound(c) && WellFormed(e) && !e.End?
    ensures Renders(ViewOf(c), e, EntryEvents(c, e))
    ensures forall id :: ReasoningOf(EntryEvents(c, e), id) == EntryReasoning(c, e, id)
  {
    if e.Ai? {
      AiRenders(c, e);
    } else if e.SubToken? || e.SubThinking? || e.SubTerminal? {
      SubMessageRenders(c, e);
    } else if e.ToolMessage? || e.SubToolResult? || e.SubToolCall? {
      ToolEntryRenders(c, e);
      RendersPlainly(ViewOf(c), e, EntryEvents(c, e));
    } else {
      NeutralRender(ViewOf(c), EntryEvents(c, e));
      RendersPlainly(ViewOf(c), e, EntryEvents(c, e));
    }
  }

  // ---- the translator ----

  /** The translator's own sets when it returns: starts are already in, ends may still be in. */
  function ReasoningAfter(open: set<string>, e: Entry): set<string> {
    if !e.Ai? then open
    else if e.calls != [] || e.content != "" then open - {ReasoningId(e.MessageId())}
    else if e.reasoning != "" then open + {ReasoningId(e.MessageId())} else open
  }

  function StateAfter(state: map<string, string>, e: Entry): map<string, string> {
    if e.Ai? && e.calls == [] && e.reasoning != ""
    then state[ReasoningId(e.MessageId()) := ReasoningNext(StateOf(state, ReasoningId(e.MessageId())), e.reasoning)]
    else state
  }

  /** The reasoning of a message is stored; that of a subagent is not. */
  lemma StateGrows(c: Conn, e: Entry, id: string)
    requires !IsSub(id)
    ensures StateOf(StateAfter(c.state, e), id) == StateOf(c.state, id) + EntryReasoning(c, e, id)
  {
    if e.SubThinking? { SubIdsAreSub(e.task); }
    if e.Ai? && e.calls == [] && e.reasoning != "" && id == ReasoningId(e.MessageId()) {
      ReasoningStep(StateOf(c.state, id), e.reasoning);
    } else {
      AddsNothing(StateOf(c.state, id));
    }
  }

  function SubTextAfter(open: set<string>, e: Entry): set<string> {
    if e.SubToken? && e.task != "" && e.content != "" then open + {SubTextId(e.task)} else open
  }

  function SubReasoningAfter(open: set<string>, e: Entry): set<string> {
    if e.SubToken? && e.task != "" && e.content != "" then open - {SubReasoningId(e.task)}
    else if e.SubThinking? && e.task != "" && e.thinking != "" then open + {SubReasoningId(e.task)} else open
  }

  /** The signature by which successive snapshots are deduplicated. */
  function Signature(messages: seq<Shown>): string {
    if messages == [] then "" else if |messages| == 1 then messages[0].id
    else Signature(messages[..|messages| - 1]) + "," + messages[|messages| - 1].id
  }

  /** A snapshot, which comes first, is dropped when it repeats the last one. */
  function Deduplicated(last: Option<string>, evs: seq<Event>): seq<Event> {
    if evs != [] && evs[0].Snapshot? && last == Some(Signature(evs[0].messages)) then evs[1..] else evs
  }

  function SnapshotAfter(last: Option<string>, evs: seq<Event>): Option<string> {
    if evs != [] && evs[0].Snapshot? then Some(Signature(evs[0].messages)) else last
  }

  /** What exactly is emitted: the entry's events without a repeated snapshot; for `end`, ends and
      then the usage. */
  ghost predicate Emits(last: Option<string>, c: Conn, e: Entry, emitted: seq<Event>, after: Option<string>) {
    if e.End? then
      && after == last && emitted != [] && emitted[|emitted| - 1] == Custom(UsageName, e.usage)
      && OnlyEnds(emitted[..|emitted| - 1])
    else emitted == Deduplicated(last, EntryEvents(c, e)) && after == SnapshotAfter(last, EntryEvents(c, e))
  }

  lemma EndEmits(last: Option<string>, c: Conn, messages: seq<Event>, tools: seq<Event>, usage: string)
    requires OnlyEnds(messages) && OnlyEnds(tools)
    ensures Emits(last, c, End(usage), messages + tools + [Custom(UsageName, usage)], last)
  {
    var emitted := messages + tools + [Custom(UsageName, usage)];
    assert emitted[..|emitted| - 1] == messages + tools;
  }

  lemma FirstAndRest(evs: seq<Event>, i: nat)
    requires i < |evs|
    ensures evs[i..] == [evs[i]] + evs[i + 1..]
  {}

  lemma DeduplicatedSnoc(last: Option<string>, evs: seq<Event>, i: nat)
    requires i < |evs| && (evs[i].Snapshot? ==> i == 0)
    ensures Deduplicated(last, evs[..i + 1]) ==
              Deduplicated(last, evs[..i])
              + if evs[i].Snapshot? && last == Some(Signature(evs[i].messages)) then [] else [evs[i]]
  {
    assert evs[..i + 1] == evs[..i] + [evs[i]];
  }

  // ---- what is known of an entry before it is handled ----

  function Without(o: Open, kind: Kind, ids: set<string>): Open {
    if kind == TextKind then o.(text := o.text - ids) else o.(reasoning := o.reasoning - ids)
  }

  lemma LeadTextEnds(o: Open, openText: Option<string>, subs: set<string>)
    requires !o.over && o.argsFor == None && o.text == subs + Lead(openText)
    requires openText.Some? ==> openText.value !in subs
    ensures Yields(o, EndLead(openText), o.(text := subs))
  {
    if openText.Some? {
      assert o.text - {openText.value} == subs;
      YieldsOne(o, TextEnd(openText.value), o.(text := subs));
    } else {
      assert o.text == subs;
    }
  }

  lemma NothingOpen(d: Conn)
    requires d.openText == None && d.subText == d.reasoning == d.subReasoning == {}
    ensures ViewOf(d).text == {} && ViewOf(d).reasoning == {}
  {}

  /** `end` closes everything before it reports the usage. */
  lemma EndRenders(o: Open, messages: seq<Event>, tools: seq<Event>, usage: string)
    requires Yields(o, messages, o.(text := {}, reasoning := {})) && Silent(messages)
    requires Yields(o.(text := {}, reasoning := {}), tools, o.(text := {}, reasoning := {}, tools := {})) && Silent(tools)
    requires !o.over && o.argsFor == None
    ensures Renders(o, End(usage), messages + tools + [Custom(UsageName, usage)])
    ensures forall id :: ReasoningOf(messages + tools + [Custom(UsageName, usage)], id) == ""
  {
    var p := o.(text := {}, reasoning := {}, tools := {});
    YieldsConcat(o, messages, o.(text := {}, reasoning := {}), tools, p);
    SilentDeliversNothing(messages + tools);
    NeutralTail(o, messages + tools, p, Custom(UsageName, usage));
    RendersPlainly(o, End(usage), messages + tools + [Custom(UsageName, usage)]);
  }

  /** Starts have identifiers, arguments are the latest ones, and no snapshot is among the events. */
  predicate PlainEvent(args: map<string, string>, ev: Event) {
    && (ev.TextStart? ==> ev.id != "")
    && (ev.ToolArgs? ==> ev.id in args && ev.delta == args[ev.id])
    && !ev.Snapshot?
  }

  ghost predicate Plain(args: map<string, string>, evs: seq<Event>) {
    forall k :: 0 <= k < |evs| ==> PlainEvent(args, evs[k])
  }

  lemma PlainConcat(args: map<string, string>, a: seq<Event>, b: seq<Event>)
    requires Plain(args, a) && Plain(args, b)
    ensures Plain(args, a + b)
  {}

  lemma MessageBlockPlain(
    args: map<string, string>, open: set<string>, openText: Option<string>, rid: string, id: string,
    reasoning: string, delta: string, content: string)
    requires id != ""
    ensures Plain(args, MessageBlock(open, openText, rid, id, reasoning, delta, content))
  {
    var close := EndReasoning(if reasoning == "" then open else open + {rid}, rid);
    assert Plain(args, ReasoningBlock(open, rid, reasoning, delta)) && Plain(args, close);
    assert Plain(args, TextBlock(openText, id, content));
    PlainConcat(args, close, TextBlock(openText, id, content));
    PlainConcat(args, ReasoningBlock(open, rid, reasoning, delta),
                if content == "" then [] else close + TextBlock(openText, id, content));
  }

  lemma {:induction false} ToolStartsOnly(calls: seq<Option<ToolCall>>, parent: string, started: set<string>)
    ensures forall k :: 0 <= k < |ToolStarts(calls, parent, started)| ==> ToolStarts(calls, parent, started)[k].ToolStart?
  {
    if calls != [] { ToolStartsOnly(calls[..|calls| - 1], parent, started); }
  }

  lemma AiPlain(c: Conn, e: Entry, args: map<string, string>)
    requires WellFormed(e) && e.Ai?
    ensures Plain(args, AiEvents(c, e))
  {
    var id, rid := e.MessageId(), ReasoningId(e.MessageId());
    if e.calls != [] {
      ToolStartsOnly(e.calls, id, c.args.Keys);
      PlainConcat(args, EndReasoning(c.reasoning, rid), EndLead(c.openText));
      PlainConcat(args, EndReasoning(c.reasoning, rid) + EndLead(c.openText), ToolStarts(e.calls, id, c.args.Keys));
    } else {
      MessageBlockPlain(args, c.reasoning, c.openText, rid, id, e.reasoning,
                        ReasoningDelta(StateOf(c.state, rid), e.reasoning), e.content);
    }
  }

  lemma SubTokenPlain(args: map<string, string>, subReasoning: set<string>, rid: string, subText: set<string>, tid: string, content: string)
    requires tid != ""
    ensures Plain(args, SubTokenBlock(subReasoning, rid, subText, tid, content))
  {
    assert Plain(args, EndReasoning(subReasoning, rid)) && Plain(args, SubText(subText, tid, content));
    PlainConcat(args, EndReasoning(subReasoning, rid), SubText(subText, tid, content));
  }

  lemma SubEndPlain(args: map<string, string>, subReasoning: set<string>, rid: string, subText: set<string>, tid: string)
    ensures Plain(args, SubEndBlock(subReasoning, rid, subText, tid))
  {}

  lemma AiEntryIsPlain(c: Conn, e: Entry, args: map<string, string>)
    requires WellFormed(e) && e.Ai?
    ensures Plain(args, EntryEvents(c, e))
  {
    AiPlain(c, e, args);
    PlainConcat(args, AiEvents(c, e), CustomIf(e.sources, SourcesName));
  }

  lemma SubMessageIsPlain(c: Conn, e: Entry, args: map<string, string>)
    requires e.SubToken? || e.SubThinking? || e.SubTerminal?
    ensures Plain(args, EntryEvents(c, e))
  {
    SubIdsAreSub(e.task);
    if e.SubToken? {
      SubTokenPlain(args, c.subReasoning, SubReasoningId(e.task), c.subText, SubTextId(e.task), e.content);
    } else if e.SubTerminal? {
      SubEndPlain(args, c.subReasoning, SubReasoningId(e.task), c.subText, SubTextId(e.task));
    }
  }

  lemma EntryIsPlain(c: Conn, e: Entry, args: map<string, string>)
    requires Sound(c) && WellFormed(e) && !e.Values? && args == AddArgs(c.args, CallsOf(e))
    ensures Plain(args, EntryEvents(c, e))
  {
    if e.Ai? {
      AiEntryIsPlain(c, e, args);
    } else if e.SubToken? || e.SubThinking? || e.SubTerminal? {
      SubMessageIsPlain(c, e, args);
    } else if e.SubToolCall? {
      ToolStartsOnly(CallsOf(e), "subagent:" + TaskOf(e.task), c.args.Keys);
    } else {
      assert args == c.args;
    }
  }

  lemma EntryShape(c: Conn, e: Entry)
    requires Sound(c) && WellFormed(e)
    ensures forall k :: 0 <= k < |EntryEvents(c, e)| ==>
              var ev := EntryEvents(c, e)[k]; (ev.TextStart? ==> ev.id != "") && (ev.Snapshot? ==> k == 0)
    ensures CarriesArgs(AddArgs(c.args, CallsOf(e)), EntryEvents(c, e))
    ensures !e.Values? ==> forall last :: Deduplicated(last, EntryEvents(c, e)) == EntryEvents(c, e)
    ensures forall last :: CarriesArgs(AddArgs(c.args, CallsOf(e)), Deduplicated(last, EntryEvents(c, e)))
  {
    var evs, args := EntryEvents(c, e), AddArgs(c.args, CallsOf(e));
    if !e.Values? {
      EntryIsPlain(c, e, args);
      forall k | 0 <= k < |evs| ensures !evs[k].Snapshot? { assert PlainEvent(args, evs[k]); }
    }
  }

  /** Where the translator's sets run ahead, a start or end among the events says so. */
  ghost predicate Anticipated(c: Conn, e: Entry) {
    var evs := EntryEvents(c, e);
    && (forall x :: IsSub(x) ==> (x in SubTextAfter(c.subText, e) <==> x in c.subText) || TextStart(x) in evs || TextEnd(x) in evs)
    && (forall x :: (x in ReasoningAfter(c.reasoning, e) + SubReasoningAfter(c.subReasoning, e)
                     <==> x in c.reasoning + c.subReasoning)
                    || ReasoningStart(x) in evs || ReasoningEnd(x) in evs)
    && (forall x :: x in SubTextAfter(c.subText, e) ==> IsSub(x))
    && (forall x :: x in ReasoningAfter(c.reasoning, e) ==> !IsSub(x))
    && (forall x :: x in SubReasoningAfter(c.subReasoning, e) ==> IsSub(x))
  }

  lemma AiAnticipates(c: Conn, e: Entry)
    requires Sound(c) && e.Ai?
    ensures var rid, evs := ReasoningId(e.MessageId()), AiEvents(c, e);
            (rid in ReasoningAfter(c.reasoning, e) <==> rid in c.reasoning) || ReasoningStart(rid) in evs || ReasoningEnd(rid) in evs
  {
    var rid, evs := ReasoningId(e.MessageId()), AiEvents(c, e);
    if e.calls != [] {
      if rid in c.reasoning { assert evs[0] == ReasoningEnd(rid); }
    } else if e.content == "" {
      if e.reasoning != "" && rid !in c.reasoning { assert evs[0] == ReasoningStart(rid); }
    } else if rid in c.reasoning {
      var block := ReasoningBlock(c.reasoning, rid, e.reasoning, ReasoningDelta(StateOf(c.state, rid), e.reasoning));
      assert evs[|block|] == ReasoningEnd(rid);
    }
  }

  lemma SubTokenAnticipates(c: Conn, e: Entry)
    requires e.SubToken? && e.task != "" && e.content != ""
    ensures SubTextId(e.task) !in c.subText ==> TextStart(SubTextId(e.task)) in EntryEvents(c, e)
    ensures SubReasoningId(e.task) in c.subReasoning ==> ReasoningEnd(SubReasoningId(e.task)) in EntryEvents(c, e)
  {
    var close := EndReasoning(c.subReasoning, SubReasoningId(e.task));
    var evs := EntryEvents(c, e);
    if SubReasoningId(e.task) in c.subReasoning { assert evs[1] == ReasoningEnd(SubReasoningId(e.task)); }
    if SubTextId(e.task) !in c.subText { assert evs[1 + |close|] == TextStart(SubTextId(e.task)); }
  }

  lemma AiAnticipated(c: Conn, e: Entry)
    requires Sound(c) && e.Ai?
    ensures Anticipated(c, e)
  {
    ReasoningIdIsLead(e.MessageId());
    AiAnticipates(c, e);
    var evs, rid := EntryEvents(c, e), ReasoningId(e.MessageId());
    forall ev | ev in AiEvents(c, e) ensures ev in evs {}
    assert forall x :: x != rid ==> (x in ReasoningAfter(c.reasoning, e) <==> x in c.reasoning);
  }

  lemma SubTokenAnticipated(c: Conn, e: Entry)
    requires Sound(c) && e.SubToken?
    ensures Anticipated(c, e)
  {
    SubMembership(c, e.task);
    if e.task != "" && e.content != "" {
      SubTokenAnticipates(c, e);
      var tid, rid := SubTextId(e.task), SubReasoningId(e.task);
      assert forall x :: x != tid ==> (x in SubTextAfter(c.subText, e) <==> x in c.subText);
      assert forall x :: x != rid ==> (x in SubReasoningAfter(c.subReasoning, e) <==> x in c.subReasoning);
    }
  }

  lemma SubThinkingAnticipated(c: Conn, e: Entry)
    requires Sound(c) && e.SubThinking?
    ensures Anticipated(c, e)
  {
    SubMembership(c, e.task);
    if e.task != "" && e.thinking != "" && SubReasoningId(e.task) !in c.subReasoning {
      assert EntryEvents(c, e)[1] == ReasoningStart(SubReasoningId(e.task));
    }
  }

  lemma Anticipates(c: Conn, e: Entry)
    requires Sound(c)
    ensures Anticipated(c, e)
  {
    if e.Ai? { AiAnticipated(c, e); }
    if e.SubToken? { SubTokenAnticipated(c, e); }
    if e.SubThinking? { SubThinkingAnticipated(c, e); }
  }

  /** Text starts name a message; a snapshot of tool calls comes first. */
  ghost predicate Shaped(evs: seq<Event>) {
    forall k :: 0 <= k < |evs| ==> (evs[k].TextStart? ==> evs[k].id != "") && (evs[k].Snapshot? ==> k == 0)
  }

  lemma NewlyOpen(open: set<string>, started: set<string>, seen: set<string>, id: string)
    ensures id in started + seen ==> open + (seen + {id} - started) == open + (seen - started)
    ensures id !in started + seen ==> open + (seen - started) + {id} == open + (seen + {id} - started)
    ensures started + seen + {id} == started + (seen + {id})
  {}

  lemma {:induction false} AddArgsKeys(args: map<string, string>, calls: seq<Option<ToolCall>>)
    ensures AddArgs(args, calls).Keys == args.Keys + CallIds(calls)
  {
    if calls != [] {
      AddArgsKeys(args, calls[..|calls| - 1]);
      CallsSnoc(args, calls, |calls| - 1);
      assert calls[..|calls|] == calls;
    }
  }

  lemma StartedAfter(c: Conn, e: Entry)
    requires Sound(c) && !e.End?
    ensures AddArgs(c.args, CallsOf(e)).Keys == NextOpen(ViewOf(c), e).started
    ensures NextOpen(ViewOf(c), e).tools <= NextOpen(ViewOf(c), e).started
  {
    AddArgsKeys(c.args, CallsOf(e));
  }

  lemma DeduplicatedRenders(c: Conn, e: Entry, last: Option<string>)
    requires Sound(c) && WellFormed(e) && Renders(ViewOf(c), e, EntryEvents(c, e)) && !e.End?
    ensures Renders(ViewOf(c), e, Deduplicated(last, EntryEvents(c, e)))
    ensures forall id :: ReasoningOf(Deduplicated(last, EntryEvents(c, e)), id) == ReasoningOf(EntryEvents(c, e), id)
  {
    EntryShape(c, e);
    if e.Values? {
      NeutralRender(ViewOf(c), EntryEvents(c, e));
      NeutralRender(ViewOf(c), Deduplicated(last, EntryEvents(c, e)));
      RendersPlainly(ViewOf(c), e, Deduplicated(last, EntryEvents(c, e)));
    }
  }

  /** All that is known of an entry's events, with and without a repeated snapshot. */
  lemma EntryFacts(c: Conn, e: Entry, last: Option<string>)
    requires Sound(c) && WellFormed(e) && !e.End?
    ensures Anticipated(c, e) && WatchAll(false, ViewOf(c), EntryEvents(c, e)) == Some(NextOpen(ViewOf(c), e))
    ensures forall k :: 0 <= k < |EntryEvents(c, e)| ==>
              var ev := EntryEvents(c, e)[k]; (ev.TextStart? ==> ev.id != "") && (ev.Snapshot? ==> k == 0)
    ensures Renders(ViewOf(c), e, Deduplicated(last, EntryEvents(c, e)))
    ensures CarriesArgs(AddArgs(c.args, CallsOf(e)), Deduplicated(last, EntryEvents(c, e)))
    ensures forall id :: ReasoningOf(Deduplicated(last, EntryEvents(c, e)), id) == EntryReasoning(c, e, id)
    ensures AddArgs(c.args, CallsOf(e)).Keys == NextOpen(ViewOf(c), e).started
    ensures NextOpen(ViewOf(c), e).tools <= NextOpen(ViewOf(c), e).started
  {
    EntryRenders(c, e);
    EntryShape(c, e);
    Anticipates(c, e);
    DeduplicatedRenders(c, e, last);
    StartedAfter(c, e);
  }

  /** The connection goes from `c` to `d` on `e`, emitting `emitted`. */
  ghost predicate Handles(c: Conn, e: Entry, emitted: seq<Event>, d: Conn) {
    && Sound(d) && ViewOf(d) == NextOpen(ViewOf(c), e) && Renders(ViewOf(c), e, emitted)
    && d.args == AddArgs(c.args, CallsOf(e)) && CarriesArgs(d.args, emitted)
    && d.state == StateAfter(c.state, e)
    && forall id :: ReasoningOf(emitted, id) == EntryReasoning(c, e, id)
  }

  lemma EndHandled(c: Conn, messages: seq<Event>, tools: seq<Event>, usage: string, d: Conn)
    requires Sound(c) && d == c.(openText := None, tools := {}, reasoning := {}, subText := {}, subReasoning := {})
    requires Yields(ViewOf(c), messages, ViewOf(c).(text := {}, reasoning := {})) && Silent(messages)
    requires Yields(ViewOf(c).(text := {}, reasoning := {}), tools, ViewOf(c).(text := {}, reasoning := {}, tools := {})) && Silent(tools)
    requires CarriesArgs(c.args, messages) && CarriesArgs(c.args, tools)
    ensures Handles(c, End(usage), messages + tools + [Custom(UsageName, usage)], d)
  {
    NothingOpen(d);
    EndRenders(ViewOf(c), messages, tools, usage);
  }

  lemma CanBeTracked(c: Conn, e: Entry)
    requires Sound(c) && WellFormed(e) && !e.End?
    ensures Anticipated(c, e) && WatchAll(false, ViewOf(c), EntryEvents(c, e)) == Some(NextOpen(ViewOf(c), e))
    ensures Shaped(EntryEvents(c, e))
    ensures AddArgs(c.args, CallsOf(e)).Keys == NextOpen(ViewOf(c), e).started
    ensures NextOpen(ViewOf(c), e).tools <= NextOpen(ViewOf(c), e).started
  {
    EntryFacts(c, e, None);
  }

  lemma OtherHandled(c: Conn, e: Entry, last: Option<string>, d: Conn)
    requires Sound(c) && WellFormed(e) && !e.End?
    requires Sound(d) && ViewOf(d) == NextOpen(ViewOf(c), e)
    requires d.args == AddArgs(c.args, CallsOf(e)) && d.state == StateAfter(c.state, e)
    ensures Handles(c, e, Deduplicated(last, EntryEvents(c, e)), d)
  {
    EntryFacts(c, e, last);
  }

  // ---- the connection ----

  class Connection {
    var openText: Option<string>
    var toolArgs: map<string, string>
    var openTools: set<string>
    var openReasoning: set<string>
    var reasoningState: map<string, string>
    var openSubText: set<string>
    var openSubReasoning: set<string>
    var lastSnapshot: Option<string>

    ghost function Value(): Conn reads this {
      Conn(openText, toolArgs, openTools, openReasoning, reasoningState, openSubText, openSubReasoning)
    }

    constructor ()
      ensures Sound(Value()) && ViewOf(Value()) == NOTHING
      ensures reasoningState == map[] && toolArgs == map[] && lastSnapshot == None
    {
      openText, toolArgs, openTools, openReasoning := None, map[], {}, {};
      reasoningState, openSubText, openSubReasoning, lastSnapshot := map[], {}, {}, None;
    }

    method CloseReasoningMessage(id: string) returns (evs: seq<Event>)
      modifies this`openReasoning
      ensures openReasoning == old(openReasoning) - {id} && evs == EndReasoning(old(openReasoning), id)
    {
      if id !in openReasoning { return []; }
      openReasoning := openReasoning - {id};
      evs := [ReasoningEnd(id)];
    }

    method CloseSubReasoningMessage(id: string) returns (evs: seq<Event>)
      modifies this`openSubReasoning
      ensures openSubReasoning == old(openSubReasoning) - {id} && evs == EndReasoning(old(openSubReasoning), id)
    {
      if id !in openSubReasoning { return []; }
      openSubReasoning := openSubReasoning - {id};
      evs := [ReasoningEnd(id)];
    }

    method NextReasoningDelta(id: string, reasoning: string) returns (delta: string)
      modifies this`reasoningState
      ensures delta == ReasoningDelta(StateOf(old(reasoningState), id), reasoning)
      ensures reasoningState == old(reasoningState)[id := ReasoningNext(StateOf(old(reasoningState), id), reasoning)]
    {
      var previous := if id in reasoningState then reasoningState[id] else "";
      if previous != "" && previous <= reasoning {
        delta := reasoning[|previous|..];
      } else {
        delta := reasoning;
      }
      reasoningState := reasoningState[id := if previous <= reasoning then reasoning else previous + delta];
    }

    /** Starts the calls seen for the first time and keeps the latest arguments of all. */
    method ToolCallsToAgui(calls: seq<Option<ToolCall>>, parent: string) returns (evs: seq<Event>)
      modifies this`toolArgs, this`openTools
      ensures toolArgs == AddArgs(old(toolArgs), calls) && toolArgs.Keys == old(toolArgs).Keys + CallIds(calls)
      ensures openTools == old(openTools) + (CallIds(calls) - old(toolArgs).Keys)
      ensures evs == ToolStarts(calls, parent, old(toolArgs).Keys)
    {
      evs := [];
      var i := 0;
      while i < |calls|
        invariant 0 <= i <= |calls|
        invariant toolArgs == AddArgs(old(toolArgs), calls[..i]) && toolArgs.Keys == old(toolArgs).Keys + CallIds(calls[..i])
        invariant openTools == old(openTools) + (CallIds(calls[..i]) - old(toolArgs).Keys)
        invariant evs == ToolStarts(calls[..i], parent, old(toolArgs).Keys)
      {
        CallsSnoc(old(toolArgs), calls, i);
        assert calls[..i + 1][..i] == calls[..i];
        if calls[i].Some? {
          var call := calls[i].value;
          NewlyOpen(old(openTools), old(toolArgs).Keys, CallIds(calls[..i]), call.CallId());
          if call.CallId() !in toolArgs {
            openTools := openTools + {call.CallId()};
            evs := evs + [ToolStart(call.CallId(), ToolName(call.name), parent)];
          }
          toolArgs := toolArgs[call.CallId() := call.args];
        }
        i := i + 1;
      }
      assert calls[..i] == calls;
    }

    method FinishTool(id: string) returns (evs: seq<Event>)
      modifies this`openTools
      ensures openTools == old(openTools) - {id} && evs == EndTool(old(Value()), id)
    {
      evs := [];
      if id in openTools {
        evs := [ToolArgs(id, ArgsOf(toolArgs, id)), ToolEnd(id)];
        openTools := openTools - {id};
      }
    }

    /** `_message_tuple_to_agui`, for an AI message. */
    method AiToAgui(e: Entry) returns (evs: seq<Event>)
      requires e.Ai?
      modifies this`openReasoning, this`reasoningState, this`toolArgs, this`openTools
      ensures evs == AiEvents(old(Value()), e)
      ensures toolArgs == AddArgs(old(toolArgs), e.calls)
      ensures openTools == old(openTools) + (CallIds(e.calls) - old(toolArgs).Keys)
      ensures openReasoning == ReasoningAfter(old(openReasoning), e)
      ensures reasoningState == StateAfter(old(reasoningState), e)
    {
      if e.calls != [] { evs := AiCallsToAgui(e); } else { evs := AiMessageToAgui(e); }
    }

    method AiCallsToAgui(e: Entry) returns (evs: seq<Event>)
      requires e.Ai? && e.calls != []
      modifies this`openReasoning, this`toolArgs, this`openTools
      ensures evs == CallsBlock(old(openReasoning), openText, ReasoningId(e.MessageId()), e.MessageId(), e.calls,
                                old(toolArgs).Keys)
      ensures toolArgs == AddArgs(old(toolArgs), e.calls)
      ensures openTools == old(openTools) + (CallIds(e.calls) - old(toolArgs).Keys)
      ensures openReasoning == old(openReasoning) - {ReasoningId(e.MessageId())}
    {
      var close := CloseReasoningMessage(ReasoningId(e.MessageId()));
      var lead := if openText.Some? then [TextEnd(openText.value)] else [];
      var starts := ToolCallsToAgui(e.calls, e.MessageId());
      evs := close + lead + starts;
    }

    method AiMessageToAgui(e: Entry) returns (evs: seq<Event>)
      requires e.Ai? && e.calls == []
      modifies this`openReasoning, this`reasoningState
      ensures evs == AiEvents(old(Value()), e)
      ensures openReasoning == ReasoningAfter(old(openReasoning), e)
      ensures reasoningState == StateAfter(old(reasoningState), e)
    {
      var id, rid := e.MessageId(), ReasoningId(e.MessageId());
      evs := ReasoningToAgui(rid, e.reasoning);
      if e.content != "" {
        var close := CloseReasoningMessage(rid);
        var text := TextToAgui(id, e.content);
        evs := evs + (close + text);
      }
    }

    method ReasoningToAgui(rid: string, reasoning: string) returns (evs: seq<Event>)
      modifies this`openReasoning, this`reasoningState
      ensures evs == ReasoningBlock(old(openReasoning), rid, reasoning, ReasoningDelta(StateOf(old(reasoningState), rid), reasoning))
      ensures openReasoning == if reasoning == "" then old(openReasoning) else old(openReasoning) + {rid}
      ensures reasoningState == if reasoning == "" then old(reasoningState)
                                else old(reasoningState)[rid := ReasoningNext(StateOf(old(reasoningState), rid), reasoning)]
    {
      evs := [];
      if reasoning != "" {
        var delta := NextReasoningDelta(rid, reasoning);
        if rid !in openReasoning {
          openReasoning := openReasoning + {rid};
          evs := evs + [ReasoningStart(rid)];
        }
        if delta != "" { evs := evs + [ReasoningContent(rid, delta)]; }
      }
    }

    method TextToAgui(id: string, content: string) returns (evs: seq<Event>)
      ensures evs == TextBlock(openText, id, content)
    {
      evs := [];
      if openText != Some(id) {
        if openText.Some? { evs := evs + [TextEnd(openText.value)]; }
        evs := evs + [TextStart(id)];
      }
      evs := evs + [TextContent(id, content)];
    }

    /** `_stream_event_to_agui`: translates an entry. Sets of open messages may already anticipate
        the events returned. */
    method StreamEventToAgui(e: Entry) returns (evs: seq<Event>)
      modifies this
      ensures evs == EntryEvents(old(Value()), e)
      ensures toolArgs == AddArgs(old(toolArgs), CallsOf(e))
      ensures openTools == NextOpen(ViewOf(old(Value())), e).tools || e.End?
      ensures e.End? ==> openTools == old(openTools)
      ensures reasoningState == StateAfter(old(reasoningState), e)
      ensures openReasoning == ReasoningAfter(old(openReasoning), e)
      ensures openSubText == SubTextAfter(old(openSubText), e)
      ensures openSubReasoning == SubReasoningAfter(old(openSubReasoning), e)
      ensures openText == old(openText) && lastSnapshot == old(lastSnapshot)
    {
      match e {
        case Ai(_, _, _, _, _, sources) =>
          evs := AiToAgui(e);
          if sources.Some? { evs := evs + [Custom(SourcesName, sources.value)]; }
        case ToolMessage(_, _, _, _) => evs := ToolMessageToAgui(e);
        case Values(_, _, _) => evs := ValuesToAgui(e);
        case SubToolCall(_, _) => evs := SubToolCallToAgui(e);
        case SubToolResult(_, _, _, _) => evs := SubToolResultToAgui(e);
        case SubToken(_, _, _) => evs := SubTokenToAgui(e);
        case SubThinking(_, _, _) => evs := SubThinkingToAgui(e);
        case SubTerminal(_, _, _) => evs := SubTerminalToAgui(e);
        case Progress(kind, data) => evs := [Custom(OtherName(kind), data)];
        case Heartbeat => evs := [Custom(HeartbeatName, "{}")];
        case End(usage) => evs := [Custom(UsageName, usage)];
        case OtherMessage => evs := [];
        case Ignored => evs := [];
      }
    }

    method ToolMessageToAgui(e: Entry) returns (evs: seq<Event>)
      requires e.ToolMessage?
      modifies this`openTools
      ensures evs == EntryEvents(old(Value()), e) && openTools == NextOpen(ViewOf(old(Value())), e).tools
    {
      evs := [];
      if e.callId != "" {
        evs := FinishTool(e.callId);
        evs := evs + [ToolResult(e.message, e.callId, e.content)];
      }
      if e.sources.Some? { evs := evs + [Custom(SourcesName, e.sources.value)]; }
    }

    method ValuesToAgui(e: Entry) returns (evs: seq<Event>)
      requires e.Values?
      ensures evs == EntryEvents(Value(), e)
    {
      evs := [];
      if e.messages.Some? {
        evs := evs + [Snapshot(e.messages.value)];
        if e.sources.Some? { evs := evs + [Custom(SourcesName, e.sources.value)]; }
      }
      if e.artifacts.Some? { evs := evs + [Custom(ArtifactsName, e.artifacts.value)]; }
    }

    method SubToolCallToAgui(e: Entry) returns (evs: seq<Event>)
      requires e.SubToolCall?
      modifies this`toolArgs, this`openTools
      ensures evs == EntryEvents(old(Value()), e) && openTools == NextOpen(ViewOf(old(Value())), e).tools
      ensures toolArgs == AddArgs(old(toolArgs), CallsOf(e))
    {
      if e.call.None? {
        assert CallIds(CallsOf(e)) == {} && AddArgs(toolArgs, CallsOf(e)) == toolArgs;
        return [];
      }
      evs := ToolCallsToAgui([Some(Namespaced(e.task, e.call.value))], "subagent:" + TaskOf(e.task));
    }

    method SubToolResultToAgui(e: Entry) returns (evs: seq<Event>)
      requires e.SubToolResult?
      modifies this`openTools
      ensures evs == EntryEvents(old(Value()), e) && openTools == NextOpen(ViewOf(old(Value())), e).tools
    {
      var id := SubToolId(TaskOf(e.task), e.rawId, ToolName(e.name));
      evs := FinishTool(id);
      evs := evs + [ToolResult(SubResultId(e.task, id), id, e.content)];
    }

    method SubTokenToAgui(e: Entry) returns (evs: seq<Event>)
      requires e.SubToken?
      modifies this`openSubText, this`openSubReasoning
      ensures evs == EntryEvents(old(Value()), e)
      ensures openSubText == SubTextAfter(old(openSubText), e)
      ensures openSubReasoning == SubReasoningAfter(old(openSubReasoning), e)
    {
      evs := [Custom(TokenName, e.data)];
      if e.task == "" || e.content == "" { return; }
      var close := CloseSubReasoningMessage(SubReasoningId(e.task));
      var id := SubTextId(e.task);
      var text := [];
      if id !in openSubText {
        openSubText := openSubText + {id};
        text := [TextStart(id)];
      }
      text := text + [TextContent(id, e.content)];
      evs := evs + (close + text);
    }

    method SubThinkingToAgui(e: Entry) returns (evs: seq<Event>)
      requires e.SubThinking?
      modifies this`openSubReasoning
      ensures evs == EntryEvents(old(Value()), e)
      ensures openSubReasoning == SubReasoningAfter(old(openSubReasoning), e)
    {
      evs := [Custom(ThinkingName, e.data)];
      if e.task == "" || e.thinking == "" { return; }
      var id := SubReasoningId(e.task);
      var block := [];
      if id !in openSubReasoning {
        openSubReasoning := openSubReasoning + {id};
        block := [ReasoningStart(id)];
      }
      evs := evs + (block + [ReasoningContent(id, e.thinking)]);
    }

    /** Emits the ends but leaves the sets to the caller. */
    method SubTerminalToAgui(e: Entry) returns (evs: seq<Event>)
      requires e.SubTerminal?
      ensures evs == EntryEvents(Value(), e)
    {
      evs := [];
      if e.task != "" {
        if SubReasoningId(e.task) in openSubReasoning { evs := evs + [ReasoningEnd(SubReasoningId(e.task))]; }
        if SubTextId(e.task) in openSubText { evs := evs + [TextEnd(SubTextId(e.task))]; }
      }
      evs := evs + [Custom(TaskName(e.kind), e.data)];
    }

    ghost predicate Partitioned() reads this {
      && (openText.Some? ==> !IsSub(openText.value) && openText.value != "")
      && (forall x :: x in openSubText ==> IsSub(x))
      && (forall x :: x in openReasoning ==> !IsSub(x))
      && (forall x :: x in openSubReasoning ==> IsSub(x))
    }

    /** The sets agree with what a client holds open, up to the events still to be tracked. */
    ghost predicate Tracks(w: Open, rest: seq<Event>) reads this {
      && Partitioned()
      && (forall x :: !IsSub(x) ==> (openText == Some(x) <==> x in w.text))
      && (forall x :: IsSub(x) ==>
            (x in openSubText <==> x in w.text) || TextStart(x) in rest || TextEnd(x) in rest)
      && (forall x :: (x in openReasoning + openSubReasoning <==> x in w.reasoning)
                      || ReasoningStart(x) in rest || ReasoningEnd(x) in rest)
    }

    /** One event of the loop in `event_generator`; `emit` is false for a repeated snapshot. */
    method TrackEvent(ev: Event, ghost w: Open, ghost rest: seq<Event>) returns (emit: bool)
      requires Watch(false, w, ev).Some? && Tracks(w, [ev] + rest)
      requires ev.TextStart? ==> ev.id != ""
      modifies this`openText, this`openSubText, this`openReasoning, this`openSubReasoning, this`lastSnapshot
      ensures Tracks(Watch(false, w, ev).value, rest)
      ensures emit <==> !(ev.Snapshot? && old(lastSnapshot) == Some(Signature(ev.messages)))
      ensures lastSnapshot == if ev.Snapshot? then Some(Signature(ev.messages)) else old(lastSnapshot)
    {
      emit := true;
      match ev {
        case Snapshot(messages) =>
          var sig := Signature(messages);
          if lastSnapshot == Some(sig) { emit := false; } else { lastSnapshot := Some(sig); }
        case TextStart(id) =>
          if IsSub(id) { openSubText := openSubText + {id}; } else { openText := Some(id); }
        case TextEnd(id) =>
          if IsSub(id) { openSubText := openSubText - {id}; } else { openText := None; }
        case ReasoningStart(id) =>
          if IsSub(id) { openSubReasoning := openSubReasoning + {id}; } else { openReasoning := openReasoning + {id}; }
        case ReasoningEnd(id) =>
          if IsSub(id) { openSubReasoning := openSubReasoning - {id}; } else { openReasoning := openReasoning - {id}; }
        case _ =>
      }
    }

    method TrackEvents(evs: seq<Event>, ghost o: Open) returns (emitted: seq<Event>)
      requires WatchAll(false, o, evs).Some? && Tracks(o, evs)
      requires Shaped(evs)
      modifies this`openText, this`openSubText, this`openReasoning, this`openSubReasoning, this`lastSnapshot
      ensures Tracks(WatchAll(false, o, evs).value, [])
      ensures emitted == Deduplicated(old(lastSnapshot), evs)
      ensures lastSnapshot == SnapshotAfter(old(lastSnapshot), evs)
    {
      emitted := [];
      var i := 0;
      ghost var w, rest := o, evs;
      while i < |evs|
        invariant 0 <= i <= |evs| && rest == evs[i..]
        invariant WatchAll(false, o, evs[..i]) == Some(w) && Tracks(w, rest)
        invariant emitted == Deduplicated(old(lastSnapshot), evs[..i])
        invariant lastSnapshot == if i > 0 && evs[0].Snapshot? then Some(Signature(evs[0].messages)) else old(lastSnapshot)
      {
        StepAccepted(false, o, evs, i);
        DeduplicatedSnoc(old(lastSnapshot), evs, i);
        FirstAndRest(evs, i);
        var emit := TrackEvent(evs[i], w, evs[i + 1..]);
        w, rest := Watch(false, w, evs[i]).value, evs[i + 1..];
        if emit { emitted := emitted + [evs[i]]; }
        i := i + 1;
      }
      assert evs[..i] == evs;
    }

    /** `_close_reasoning_messages` and its kin, in any order. */
    method EndMessages(ids: set<string>, kind: Kind, ghost o: Open) returns (evs: seq<Event>)
      requires !o.over && o.argsFor == None && ids <= OpenIds(o, kind)
      ensures Yields(o, evs, Without(o, kind, ids)) && Silent(evs) && OnlyEnds(evs)
      ensures forall k :: 0 <= k < |evs| ==> !evs[k].ToolArgs?
    {
      evs := [];
      var rest := ids;
      assert ids - rest == {} && Without(o, kind, {}) == o;
      while rest != {}
        invariant rest <= ids
        invariant Yields(o, evs, Without(o, kind, ids - rest)) && Silent(evs) && OnlyEnds(evs)
        invariant forall k :: 0 <= k < |evs| ==> !evs[k].ToolArgs?
        decreases rest
      {
        var id :| id in rest;
        var p, q := Without(o, kind, ids - rest), Without(o, kind, ids - (rest - {id}));
        assert OpenIds(p, kind) - {id} == OpenIds(q, kind);
        YieldsOne(p, EndOf(kind, id), q);
        YieldsConcat(o, evs, p, [EndOf(kind, id)], q);
        evs, rest := evs + [EndOf(kind, id)], rest - {id};
      }
      assert ids - {} == ids;
    }

    method CloseMessages() returns (evs: seq<Event>)
      requires Sound(Value())
      modifies this`openText, this`openSubText, this`openReasoning, this`openSubReasoning
      ensures openText == None && openSubText == openReasoning == openSubReasoning == {}
      ensures Yields(ViewOf(old(Value())), evs, ViewOf(old(Value())).(text := {}, reasoning := {})) && Silent(evs)
      ensures CarriesArgs(toolArgs, evs) && OnlyEnds(evs)
    {
      ghost var o := ViewOf(Value());
      ghost var o1 := Without(o, ReasoningKind, openReasoning);
      ghost var o2 := o.(reasoning := {});
      ghost var o3 := o2.(text := openSubText);
      ghost var o4 := o2.(text := {});
      var a := EndMessages(openReasoning, ReasoningKind, o);
      var b := EndMessages(openSubReasoning, ReasoningKind, o1);
      assert Without(o1, ReasoningKind, openSubReasoning) == o2;
      YieldsConcat(o, a, o1, b, o2);
      var lead := if openText.Some? then [TextEnd(openText.value)] else [];
      LeadTextEnds(o2, openText, openSubText);
      YieldsConcat(o, a + b, o2, lead, o3);
      var d := EndMessages(openSubText, TextKind, o3);
      assert Without(o3, TextKind, openSubText) == o4;
      YieldsConcat(o, a + b + lead, o3, d, o4);
      evs := a + b + lead + d;
      openText, openSubText, openReasoning, openSubReasoning := None, {}, {}, {};
    }

    /** Ends every open tool call, in any order, each right after its arguments. */
    method CloseTools(ghost o: Open) returns (evs: seq<Event>)
      requires !o.over && o.argsFor == None && o.tools == openTools <= toolArgs.Keys
      modifies this`openTools
      ensures openTools == {} && Yields(o, evs, o.(tools := {})) && Silent(evs)
      ensures CarriesArgs(toolArgs, evs) && OnlyEnds(evs)
    {
      evs := [];
      while openTools != {}
        invariant openTools <= o.tools <= toolArgs.Keys
        invariant Yields(o, evs, o.(tools := openTools)) && Silent(evs) && CarriesArgs(toolArgs, evs)
        invariant OnlyEnds(evs)
        decreases openTools
      {
        var id :| id in openTools;
        ghost var c, p := Value(), o.(tools := openTools);
        EndToolYields(p, c, id);
        YieldsConcat(o, evs, p, EndTool(c, id), p.(tools := p.tools - {id}));
        var end := FinishTool(id);
        evs := evs + end;
      }
    }

    /** The loop body of `event_generator`: what one entry of the stream emits. */
    method OnEntry(e: Entry) returns (emitted: seq<Event>)
      requires Sound(Value()) && WellFormed(e)
      modifies this
      ensures Handles(old(Value()), e, emitted, Value())
      ensures Emits(old(lastSnapshot), old(Value()), e, emitted, lastSnapshot)
    {
      if e.End? { emitted := OnEnd(e); } else { emitted := OnOther(e); }
    }

    method OnEnd(e: Entry) returns (emitted: seq<Event>)
      requires Sound(Value()) && e.End?
      modifies this
      ensures Handles(old(Value()), e, emitted, Value())
      ensures Emits(old(lastSnapshot), old(Value()), e, emitted, lastSnapshot)
    {
      ghost var c := Value();
      var messages := CloseMessages();
      assert ViewOf(Value()) == ViewOf(c).(text := {}, reasoning := {}) by { NothingOpen(Value()); }
      var tools := CloseTools(ViewOf(Value()));
      var usage := StreamEventToAgui(e);
      EndHandled(c, messages, tools, e.usage, Value());
      EndEmits(lastSnapshot, c, messages, tools, e.usage);
      emitted := messages + tools + usage;
    }

    method OnOther(e: Entry) returns (emitted: seq<Event>)
      requires Sound(Value()) && WellFormed(e) && !e.End?
      modifies this
      ensures Handles(old(Value()), e, emitted, Value())
      ensures Emits(old(lastSnapshot), old(Value()), e, emitted, lastSnapshot)
    {
      ghost var c, last := Value(), lastSnapshot;
      CanBeTracked(c, e);
      var evs := TranslateAhead(e);
      emitted := Follow(evs, e, c);
      OtherHandled(c, e, last, Value());
    }

    /** Tracks all events of an entry, after which the sets are what a client holds open. */
    method Follow(evs: seq<Event>, ghost e: Entry, ghost c: Conn) returns (emitted: seq<Event>)
      requires WatchAll(false, ViewOf(c), evs) == Some(NextOpen(ViewOf(c), e)) && Tracks(ViewOf(c), evs) && Shaped(evs)
      requires openTools == NextOpen(ViewOf(c), e).tools && toolArgs.Keys == NextOpen(ViewOf(c), e).started
      requires NextOpen(ViewOf(c), e).tools <= NextOpen(ViewOf(c), e).started && !e.End?
      modifies this`openText, this`openSubText, this`openReasoning, this`openSubReasoning, this`lastSnapshot
      ensures Sound(Value()) && ViewOf(Value()) == NextOpen(ViewOf(c), e)
      ensures emitted == Deduplicated(old(lastSnapshot), evs) && lastSnapshot == SnapshotAfter(old(lastSnapshot), evs)
    {
      emitted := TrackEvents(evs, ViewOf(c));
      AfterTracking(e, c);
    }

    method TranslateAhead(e: Entry) returns (evs: seq<Event>)
      requires Sound(Value()) && Anticipated(Value(), e) && !e.End?
      modifies this
      ensures evs == EntryEvents(old(Value()), e) && Tracks(ViewOf(old(Value())), evs)
      ensures toolArgs == AddArgs(old(toolArgs), CallsOf(e)) && openTools == NextOpen(ViewOf(old(Value())), e).tools
      ensures reasoningState == StateAfter(old(reasoningState), e) && lastSnapshot == old(lastSnapshot)
    {
      ghost var c := Value();
      evs := StreamEventToAgui(e);
      RunsAhead(c, e);
    }

    /** The sets the translator leaves anticipate its events and nothing else. */
    lemma RunsAhead(c: Conn, e: Entry)
      requires Sound(c) && Anticipated(c, e)
      requires openText == c.openText && openSubText == SubTextAfter(c.subText, e)
      requires openReasoning == ReasoningAfter(c.reasoning, e) && openSubReasoning == SubReasoningAfter(c.subReasoning, e)
      ensures Tracks(ViewOf(c), EntryEvents(c, e))
    {}

    /** Nothing left to track: the sets are what a client holds open. */
    lemma AfterTracking(e: Entry, c: Conn)
      requires Tracks(NextOpen(ViewOf(c), e), []) && !e.End?
      requires openTools == NextOpen(ViewOf(c), e).tools && toolArgs.Keys == NextOpen(ViewOf(c), e).started
      requires NextOpen(ViewOf(c), e).tools <= NextOpen(ViewOf(c), e).started
      ensures Sound(Value()) && ViewOf(Value()) == NextOpen(ViewOf(c), e)
    {
      var p := NextOpen(ViewOf(c), e);
      assert ViewOf(Value()).text == p.text;
      assert ViewOf(Value()).reasoning == p.reasoning;
    }
  }
}
