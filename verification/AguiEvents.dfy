/** AG-UI events and what a well-bracketed stream of them is. */
module AguiEvents {
  import opened Text

  /** A message of a snapshot: its identifier (generated if it has none) and all else it holds. */
  datatype Shown = Shown(id: string, body: string)

  /** The names of custom events: `deerflow.heartbeat`, `deerflow.usage`,
      `deerflow.knowledge_sources`, `deerflow.artifacts`, `deerflow.subagent.token_chunk`,
      `deerflow.subagent.thinking_chunk`, other `deerflow.subagent.` events, and the rest. */
  datatype CustomKind =
    HeartbeatName | UsageName | SourcesName | ArtifactsName | TokenName | ThinkingName
    | TaskName(task: string) | OtherName(name: string)

  datatype Event =
    | RunStarted | RunFinished | RunError
    | TextStart(id: string) | TextContent(id: string, delta: string) | TextEnd(id: string)
    | ReasoningStart(id: string) | ReasoningContent(id: string, delta: string) | ReasoningEnd(id: string)
    | ToolStart(id: string, name: string, parent: string) | ToolArgs(id: string, delta: string) | ToolEnd(id: string)
    | ToolResult(message: string, id: string, content: string)
    | Snapshot(messages: seq<Shown>)
    | Custom(kind: CustomKind, value: string)

  /** Messages and tool calls of subagents live in their own name space, `subagent:`. */
  predicate IsSub(id: string) {
    && |id| >= 9
    && id[0] == 's' && id[1] == 'u' && id[2] == 'b' && id[3] == 'a' && id[4] == 'g'
    && id[5] == 'e' && id[6] == 'n' && id[7] == 't' && id[8] == ':'
  }

  /** What a client holds open after some events. `started` are all tool calls ever started;
      `argsFor` is the tool call whose ARGS came last and whose END must come next. */
  datatype Open = Open(
    text: set<string>, reasoning: set<string>, tools: set<string>, started: set<string>,
    argsFor: Option<string>, over: bool)

  const NOTHING := Open({}, {}, {}, {}, None, false)

  predicate LeadOpen(o: Open) { exists x :: x in o.text && !IsSub(x) }

  /** A client that follows the stream; None when an event is out of place. A `strict` client
      also refuses a second START of a text message that is still open. */
  function Watch(strict: bool, o: Open, e: Event): Option<Open> {
    if o.over || (o.argsFor.Some? && e != ToolEnd(o.argsFor.value)) then None else
    match e
    case TextStart(id) =>
      if (strict && id in o.text) || (!IsSub(id) && LeadOpen(o)) then None else Some(o.(text := o.text + {id}))
    case TextContent(id, _) => if id in o.text then Some(o) else None
    case TextEnd(id) => if id in o.text then Some(o.(text := o.text - {id})) else None
    case ReasoningStart(id) => if id in o.reasoning then None else Some(o.(reasoning := o.reasoning + {id}))
    case ReasoningContent(id, _) => if id in o.reasoning then Some(o) else None
    case ReasoningEnd(id) => if id in o.reasoning then Some(o.(reasoning := o.reasoning - {id})) else None
    case ToolStart(id, _, _) =>
      if id in o.started then None else Some(o.(tools := o.tools + {id}, started := o.started + {id}))
    case ToolArgs(id, _) => if id in o.tools then Some(o.(argsFor := Some(id))) else None
    case ToolEnd(id) =>
      if id in o.tools && o.argsFor == Some(id) then Some(o.(tools := o.tools - {id}, argsFor := None)) else None
    case RunFinished => if o.text == o.reasoning == o.tools == {} then Some(o.(over := true)) else None
    case RunError => if o.text == o.reasoning == o.tools == {} then Some(o.(over := true)) else None
    case _ => Some(o)
  }

  function WatchAll(strict: bool, o: Open, es: seq<Event>): Option<Open> {
    if es == [] then Some(o) else
    match WatchAll(strict, o, es[..|es| - 1])
    case None => None
    case Some(p) => Watch(strict, p, es[|es| - 1])
  }

  /** The text a stream delivers for a message. */
  function TextOf(es: seq<Event>, id: string): string {
    if es == [] then "" else
    TextOf(es[..|es| - 1], id)
    + var e := es[|es| - 1]; if e.TextContent? && e.id == id then e.delta else ""
  }

  function ReasoningOf(es: seq<Event>, id: string): string {
    if es == [] then "" else
    ReasoningOf(es[..|es| - 1], id)
    + var e := es[|es| - 1]; if e.ReasoningContent? && e.id == id then e.delta else ""
  }

  /** What a stream reports beside messages and calls. */
  predicate IsNote(e: Event) { e.ToolResult? || e.Snapshot? || e.Custom? }

  function NotesOf(es: seq<Event>): seq<Event> {
    if es == [] then [] else NotesOf(es[..|es| - 1]) + if IsNote(es[|es| - 1]) then [es[|es| - 1]] else []
  }

  lemma {:induction false} NotesConcat(a: seq<Event>, b: seq<Event>)
    ensures NotesOf(a + b) == NotesOf(a) + NotesOf(b)
  {
    if b == [] {
      assert a + b == a;
    } else {
      assert (a + b)[..|a + b| - 1] == a + b[..|b| - 1];
      NotesConcat(a, b[..|b| - 1]);
    }
  }

  lemma {:induction false} NoNotes(es: seq<Event>)
    requires forall k :: 0 <= k < |es| ==> !IsNote(es[k])
    ensures NotesOf(es) == []
  {
    if es != [] { NoNotes(es[..|es| - 1]); }
  }

  lemma {:induction false} AllNotes(es: seq<Event>)
    requires forall k :: 0 <= k < |es| ==> IsNote(es[k])
    ensures NotesOf(es) == es
  {
    if es != [] { AllNotes(es[..|es| - 1]); }
  }

  /** Events that end what is open. */
  ghost predicate OnlyEnds(es: seq<Event>) {
    forall k :: 0 <= k < |es| ==> es[k].TextEnd? || es[k].ReasoningEnd? || es[k].ToolArgs? || es[k].ToolEnd?
  }

  lemma {:induction false} WatchConcat(strict: bool, o: Open, a: seq<Event>, b: seq<Event>)
    ensures WatchAll(strict, o, a + b) ==
              match WatchAll(strict, o, a) case None => None case Some(p) => WatchAll(strict, p, b)
  {
    if b == [] {
      assert a + b == a;
    } else {
      assert (a + b)[..|a + b| - 1] == a + b[..|b| - 1];
      WatchConcat(strict, o, a, b[..|b| - 1]);
    }
  }

  lemma {:induction false} TextConcat(a: seq<Event>, b: seq<Event>, id: string)
    ensures TextOf(a + b, id) == TextOf(a, id) + TextOf(b, id)
    ensures ReasoningOf(a + b, id) == ReasoningOf(a, id) + ReasoningOf(b, id)
  {
    if b == [] {
      assert a + b == a;
    } else {
      var init, e := b[..|b| - 1], b[|b| - 1];
      assert (a + b)[..|a + b| - 1] == a + init;
      TextConcat(a, init, id);
      Associates(TextOf(a, id), TextOf(init, id), if e.TextContent? && e.id == id then e.delta else "");
      Associates(ReasoningOf(a, id), ReasoningOf(init, id), if e.ReasoningContent? && e.id == id then e.delta else "");
    }
  }

  /** Whoever accepts strictly also accepts leniently, with the same view. */
  lemma {:induction false} StrictIsLenient(o: Open, es: seq<Event>)
    requires WatchAll(true, o, es).Some?
    ensures WatchAll(false, o, es) == WatchAll(true, o, es)
  {
    if es != [] { StrictIsLenient(o, es[..|es| - 1]); }
  }

  // ---- what acceptance means, index by index ----

  datatype Kind = TextKind | ReasoningKind

  function OpenIds(o: Open, kind: Kind): set<string> { if kind == TextKind then o.text else o.reasoning }

  function StartOf(kind: Kind, id: string): Event { if kind == TextKind then TextStart(id) else ReasoningStart(id) }

  function EndOf(kind: Kind, id: string): Event { if kind == TextKind then TextEnd(id) else ReasoningEnd(id) }

  predicate ContentOf(kind: Kind, e: Event, id: string) {
    if kind == TextKind then e.TextContent? && e.id == id else e.ReasoningContent? && e.id == id
  }

  lemma {:induction false} OpenHasStart(kind: Kind, es: seq<Event>, id: string, n: nat) returns (k: nat)
    requires WatchAll(false, NOTHING, es).Some? && n <= |es|
    requires WatchAll(false, NOTHING, es[..n]).Some? && id in OpenIds(WatchAll(false, NOTHING, es[..n]).value, kind)
    ensures k < n && es[k] == StartOf(kind, id)
    ensures forall m :: k < m < n ==> es[m] != EndOf(kind, id)
    decreases n
  {
    assert es[..n][..n - 1] == es[..n - 1];
    if es[n - 1] == StartOf(kind, id) {
      k := n - 1;
    } else {
      k := OpenHasStart(kind, es, id, n - 1);
    }
  }

  lemma {:induction false} PrefixAccepted(strict: bool, o: Open, es: seq<Event>, n: nat)
    requires WatchAll(strict, o, es).Some? && n <= |es|
    ensures WatchAll(strict, o, es[..n]).Some?
  {
    assert es == es[..n] + es[n..];
    WatchConcat(strict, o, es[..n], es[n..]);
  }

  lemma StepAccepted(strict: bool, o: Open, es: seq<Event>, n: nat)
    requires WatchAll(strict, o, es).Some? && n < |es|
    ensures WatchAll(strict, o, es[..n]).Some? && WatchAll(strict, o, es[..n + 1]).Some?
    ensures WatchAll(strict, o, es[..n + 1]) == Watch(strict, WatchAll(strict, o, es[..n]).value, es[n])
  {
    PrefixAccepted(strict, o, es, n);
    PrefixAccepted(strict, o, es, n + 1);
    assert es[..n + 1][..n] == es[..n];
  }

  /** Contents and ends come after a start of the same message that has not ended yet. */
  lemma MessagesAreBracketed(kind: Kind, es: seq<Event>, n: nat, id: string) returns (k: nat)
    requires WatchAll(false, NOTHING, es).Some? && n < |es|
    requires es[n] == EndOf(kind, id) || ContentOf(kind, es[n], id)
    ensures k < n && es[k] == StartOf(kind, id) && (forall m :: k < m < n ==> es[m] != EndOf(kind, id))
  {
    StepAccepted(false, NOTHING, es, n);
    k := OpenHasStart(kind, es, id, n);
  }

  lemma {:induction false} StaysOpen(kind: Kind, es: seq<Event>, k: nat, n: nat, id: string)
    requires WatchAll(false, NOTHING, es).Some? && k <= n <= |es|
    requires WatchAll(false, NOTHING, es[..k]).Some? && id in OpenIds(WatchAll(false, NOTHING, es[..k]).value, kind)
    requires forall m :: k <= m < n ==> es[m] != EndOf(kind, id)
    ensures WatchAll(false, NOTHING, es[..n]).Some? && id in OpenIds(WatchAll(false, NOTHING, es[..n]).value, kind)
    decreases n
  {
    if k < n {
      StaysOpen(kind, es, k, n - 1, id);
      StepAccepted(false, NOTHING, es, n - 1);
    }
  }

  lemma {:induction false} OverMeansEmpty(es: seq<Event>)
    requires WatchAll(false, NOTHING, es).Some?
    ensures var o := WatchAll(false, NOTHING, es).value; o.over ==> o.text == o.reasoning == o.tools == {}
  {
    if es != [] { OverMeansEmpty(es[..|es| - 1]); }
  }

  /** In a finished stream, every message started is ended afterwards. */
  lemma {:induction false} MessagesAreEnded(kind: Kind, es: seq<Event>, k: nat, id: string) returns (n: nat)
    requires WatchAll(false, NOTHING, es).Some? && WatchAll(false, NOTHING, es).value.over
    requires k < |es| && es[k] == StartOf(kind, id)
    ensures k < n < |es| && es[n] == EndOf(kind, id)
  {
    if forall m :: k < m < |es| ==> es[m] != EndOf(kind, id) {
      StepAccepted(false, NOTHING, es, k);
      StaysOpen(kind, es, k + 1, |es|, id);
      assert es[..|es|] == es;
      OverMeansEmpty(es);
      n := k;
    } else {
      n :| k < n < |es| && es[n] == EndOf(kind, id);
    }
  }

  lemma {:induction false} ToolHistory(es: seq<Event>, n: nat, id: string)
    requires WatchAll(false, NOTHING, es).Some? && n <= |es|
    ensures WatchAll(false, NOTHING, es[..n]).Some?
    ensures var o := WatchAll(false, NOTHING, es[..n]).value;
            && (id in o.started <==> exists k :: 0 <= k < n && es[k].ToolStart? && es[k].id == id)
            && (id in o.tools ==> id in o.started)
            && (forall k :: 0 <= k < n && es[k] == ToolEnd(id) ==> id in o.started && id !in o.tools)
            && (o.argsFor == Some(id) ==> n > 0 && es[n - 1].ToolArgs? && es[n - 1].id == id)
    decreases n
  {
    if n == 0 {
      assert es[..0] == [];
    } else {
      ToolHistory(es, n - 1, id);
      StepAccepted(false, NOTHING, es, n - 1);
    }
  }

  /** A tool call is started at most once and ended at most once. */
  lemma ToolsOnce(es: seq<Event>, n: nat, id: string)
    requires WatchAll(false, NOTHING, es).Some? && n < |es|
    ensures es[n].ToolStart? && es[n].id == id ==> forall k :: 0 <= k < n ==> !(es[k].ToolStart? && es[k].id == id)
    ensures es[n] == ToolEnd(id) ==> forall k :: 0 <= k < n ==> es[k] != ToolEnd(id)
  {
    StepAccepted(false, NOTHING, es, n);
    ToolHistory(es, n, id);
  }

  /** Its ARGS come immediately before its END, and nowhere else. */
  lemma ArgsBeforeEnd(es: seq<Event>, n: nat, id: string)
    requires WatchAll(false, NOTHING, es).Some? && n < |es|
    ensures es[n] == ToolEnd(id) ==> n > 0 && es[n - 1].ToolArgs? && es[n - 1].id == id
    ensures es[n].ToolArgs? && es[n].id == id && n + 1 < |es| ==> es[n + 1] == ToolEnd(id)
  {
    StepAccepted(false, NOTHING, es, n);
    ToolHistory(es, n, id);
    if n + 1 < |es| { StepAccepted(false, NOTHING, es, n + 1); }
  }

  lemma {:induction false} ToolOpenOrEnded(es: seq<Event>, k: nat, n: nat)
    requires WatchAll(false, NOTHING, es).Some? && k < n <= |es| && es[k].ToolStart?
    ensures WatchAll(false, NOTHING, es[..n]).Some?
    ensures es[k].id in WatchAll(false, NOTHING, es[..n]).value.tools || exists m :: k < m < n && es[m] == ToolEnd(es[k].id)
    decreases n
  {
    StepAccepted(false, NOTHING, es, n - 1);
    if k < n - 1 {
      ToolOpenOrEnded(es, k, n - 1);
      if es[k].id !in WatchAll(false, NOTHING, es[..n - 1]).value.tools {
        var m :| k < m < n - 1 && es[m] == ToolEnd(es[k].id);
      }
    }
  }

  /** In a finished stream, every tool call started is ended afterwards. */
  lemma ToolsAreEnded(es: seq<Event>, k: nat) returns (n: nat)
    requires WatchAll(false, NOTHING, es).Some? && WatchAll(false, NOTHING, es).value.over
    requires k < |es| && es[k].ToolStart?
    ensures k < n < |es| && es[n] == ToolEnd(es[k].id)
  {
    assert es[..|es|] == es;
    OverMeansEmpty(es);
    ToolOpenOrEnded(es, k, |es|);
    n :| k < n < |es| && es[n] == ToolEnd(es[k].id);
  }

  /** At no point are two lead text messages open. */
  lemma {:induction false} OneLeadText(es: seq<Event>, n: nat, x: string, y: string)
    requires WatchAll(false, NOTHING, es).Some? && n <= |es|
    ensures WatchAll(false, NOTHING, es[..n]).Some?
    ensures var o := WatchAll(false, NOTHING, es[..n]).value;
            x in o.text && y in o.text && !IsSub(x) && !IsSub(y) ==> x == y
    decreases n
  {
    if n == 0 {
      assert es[..0] == [];
    } else {
      OneLeadText(es, n - 1, x, y);
      StepAccepted(false, NOTHING, es, n - 1);
    }
  }
}
