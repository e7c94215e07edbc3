/** The tool calls of a run, from the snapshots of LangGraph to the starts an AG-UI client sees. */
module PipelineCalls {
  import opened Text
  import opened StreamClient
  import S = StreamSnapshots
  import P = StreamProcessor
  import A = AguiEvents
  import R = AguiRun
  import T = AguiTranslator

  predicate HasCall(calls: seq<Call>, id: string) { exists x :: x in calls && x.id == id }

  /** Some event sends a call with identifier `id`. */
  predicate CallSent(events: seq<StreamEvent>, id: string) {
    events != [] &&
    var e := events[|events| - 1];
    CallSent(events[..|events| - 1], id) || (e.CallsEvent? && HasCall(e.calls, id))
  }

  lemma {:induction false} CallStaysSent(events: seq<StreamEvent>, more: seq<StreamEvent>, id: string)
    ensures CallSent(events, id) ==> CallSent(events + more, id)
  {
    if more == [] {
      assert events + more == events;
    } else {
      assert (events + more)[..|events + more| - 1] == events + more[..|more| - 1];
      CallStaysSent(events, more[..|more| - 1], id);
    }
  }

  /** No call without an identifier is serialized to `id`. */
  predicate NotSerialized(events: seq<StreamEvent>, id: string) {
    forall e :: e in events && e.CallsEvent? ==> forall x :: x in e.calls && x.id == "" ==> x.json != id
  }

  /** An identifier among the keys sent is that of a call sent. */
  lemma {:induction false} KeyIsOfCall(events: seq<StreamEvent>, message: string, id: string)
    requires NotSerialized(events, id) && id in KeysSent(events, message)
    ensures CallSent(events, id)
  {
    var init, e := events[..|events| - 1], events[|events| - 1];
    assert e in events && forall x :: x in init ==> x in events;
    if id in KeysSent(init, message) {
      KeyIsOfCall(init, message, id);
    } else {
      var i :| 0 <= i < |Keys(e.calls)| && Keys(e.calls)[i] == id;
      assert e.calls[i] in e.calls && e.calls[i].Key() == id;
    }
  }

  // ---- over the bridge ----

  /** Identifiers generated for calls are never those of calls. */
  predicate NotGenerated(entries: seq<R.Bridged>, id: string) {
    forall b :: b in entries && b.entry.Ai? ==>
      forall c :: c in b.entry.calls && c.Some? && c.value.id == "" ==> c.value.generated != id
  }

  lemma SubCallsAreSub(e: T.Entry, id: string)
    requires e.SubToolCall? && id in T.CallIds(T.CallsOf(e))
    ensures A.IsSub(id)
  {
    var task := T.TaskOf(e.task);
    assert ("subagent:" + (task + ":"))[..9] == "subagent:";
  }

  lemma SameIds(calls: seq<Call>, out: seq<Option<T.ToolCall>>, id: string)
    requires P.SameCalls(calls, out) && id != ""
    requires forall c :: c in out && c.Some? && c.value.id == "" ==> c.value.generated != id
    ensures id in T.CallIds(out) <==> HasCall(calls, id)
  {
    if id in T.CallIds(out) {
      var c :| c in out && c.Some? && c.value.CallId() == id;
      var i :| 0 <= i < |out| && out[i] == c;
      assert calls[i] in calls && calls[i].id == id;
    }
    if HasCall(calls, id) {
      var x :| x in calls && x.id == id;
      var i :| 0 <= i < |calls| && calls[i] == x;
      assert out[i] in out && out[i].value.CallId() == id;
    }
  }

  lemma CarriedIds(e: StreamEvent, entry: T.Entry, id: string)
    requires P.Carries(e, entry) && id != "" && !A.IsSub(id)
    requires entry.Ai? ==> forall c :: c in entry.calls && c.Some? && c.value.id == "" ==> c.value.generated != id
    ensures id in T.CallIds(T.CallsOf(entry)) <==> e.CallsEvent? && HasCall(e.calls, id)
  {
    if e.CallsEvent? {
      SameIds(e.calls, entry.calls, id);
    } else if entry.SubToolCall? && id in T.CallIds(T.CallsOf(entry)) {
      SubCallsAreSub(entry, id);
    }
  }

  /** The calls a connection knows are those the run sent. */
  lemma {:induction false} RelayedCalls(events: seq<StreamEvent>, entries: seq<R.Bridged>, id: string)
    requires P.Relays(events, entries) && id != "" && !A.IsSub(id) && NotGenerated(entries, id)
    ensures id in R.RunArgs(entries) <==> CallSent(events, id)
    decreases |entries|
  {
    if entries != [] {
      var init, b := entries[..|entries| - 1], entries[|entries| - 1];
      assert b in entries && forall x :: x in init ==> x in entries;
      T.AddArgsKeys(R.RunArgs(init), T.CallsOf(b.entry));
      if b.entry.Heartbeat? {
        RelayedCalls(events, init, id);
      } else {
        RelayedCalls(events[..|events| - 1], init, id);
        CarriedIds(events[|events| - 1], b.entry, id);
      }
    }
  }

  predicate Starts(e: A.Event, id: string) { e.ToolStart? && e.id == id }

  /** One start, and after it one end. */
  ghost predicate StartedOnce(out: seq<A.Event>, id: string) {
    exists k, n :: 0 <= k < n < |out| && Starts(out[k], id) && out[n] == A.ToolEnd(id)
      && (forall i :: 0 <= i < |out| && Starts(out[i], id) ==> i == k)
      && forall i :: 0 <= i < |out| && out[i] == A.ToolEnd(id) ==> i == n
  }

  lemma KnownStartsOnce(entries: seq<R.Bridged>, out: seq<A.Event>, id: string)
    requires R.Outcome(entries, out) && id in R.RunArgs(entries)
    ensures StartedOnce(out, id)
  {
    assert out[..|out|] == out;
    A.ToolHistory(out, |out|, id);
    var k :| 0 <= k < |out| && out[k].ToolStart? && out[k].id == id;
    var n := A.ToolsAreEnded(out, k);
    forall i | 0 <= i < |out| && Starts(out[i], id) ensures i == k {
      A.ToolsOnce(out, i, id);
      A.ToolsOnce(out, k, id);
    }
    forall i | 0 <= i < |out| && out[i] == A.ToolEnd(id) ensures i == n {
      A.ToolsOnce(out, i, id);
      A.ToolsOnce(out, n, id);
    }
  }

  lemma UnknownNeverStarts(entries: seq<R.Bridged>, out: seq<A.Event>, id: string)
    requires R.Outcome(entries, out) && id !in R.RunArgs(entries)
    ensures forall k :: 0 <= k < |out| ==> !Starts(out[k], id)
  {
    assert out[..|out|] == out;
    A.ToolHistory(out, |out|, id);
  }

  /** End to end: an AG-UI client sees a call started, once, and then ended, once, if the run sent the
      call, and never otherwise. */
  lemma CallsStart(events: seq<StreamEvent>, entries: seq<R.Bridged>, out: seq<A.Event>, id: string)
    requires P.Relays(events, entries) && R.Outcome(entries, out)
    requires id != "" && !A.IsSub(id) && NotGenerated(entries, id)
    ensures if CallSent(events, id) then StartedOnce(out, id) else forall k :: 0 <= k < |out| ==> !Starts(out[k], id)
  {
    RelayedCalls(events, entries, id);
    if CallSent(events, id) { KnownStartsOnce(entries, out, id); } else { UnknownNeverStarts(entries, out, id); }
  }

  /** A call of a message that some snapshot of the run shows, and that the run takes notice of, is
      started once at the client, whatever the run does later. */
  lemma ShownCallStarts(
    history: set<string>, items: seq<Item>, messages: seq<Message>, top: bool, later: seq<Item>, limited: bool,
    noticeId: string, notice: string, k: nat, c: Call, entries: seq<R.Bridged>, out: seq<A.Event>)
    requires k < |messages| && messages[k].Ai? && messages[k].id != "" && c in messages[k].calls && c.id != ""
    requires S.Noticed(history, S.TextStreamed(items, messages[k].id), S.Shown(items) + messages, messages[k].id)
    requires P.Relays(P.Streamed(history, items + [Snapshot(messages, top)] + later, limited, noticeId, notice), entries)
    requires R.Outcome(entries, out) && !A.IsSub(c.id) && NotGenerated(entries, c.id)
    requires NotSerialized(P.Streamed(history, items + [Snapshot(messages, top)] + later, limited, noticeId, notice), c.id)
    ensures StartedOnce(out, c.id)
  {
    var shown := items + [Snapshot(messages, top)];
    var events := P.Streamed(history, shown + later, limited, noticeId, notice);
    var sent := Run(Seeded(history), shown).events;
    S.CallsAreSent(history, items, messages, top, k, c);
    OnlyAppends(Seeded(history), shown, later, messages[k].id);
    var rest := events[|sent|..];
    assert sent <= events && sent + rest == events;
    assert forall e :: e in sent ==> e in events;
    KeyIsOfCall(sent, messages[k].id, c.id);
    CallStaysSent(sent, rest, c.id);
    CallsStart(events, entries, out, c.id);
  }
}
