/** What a client has after a break of the connection: the resumed connection starts with fresh tool
    and reasoning state (app/routers/chat.py, `event_generator`). */
module AguiResume {
  import opened Text
  import opened AguiEvents
  import opened AguiRun
  import Sse
  import T = AguiTranslator

  // ---- reasoning ----

  predicate NonEmpty(rs: seq<string>) { forall i :: 0 <= i < |rs| ==> rs[i] != "" }

  /** The stored reasoning after `rs`, from `state` on. */
  function FoldFrom(state: string, rs: seq<string>): string {
    if rs == [] then state else T.ReasoningNext(FoldFrom(state, rs[..|rs| - 1]), rs[|rs| - 1])
  }

  /** Some text begins with all that was delivered before it, or with all that was delivered since
      the break, which is not empty. */
  predicate Repeats(kept: string, rs: seq<string>) {
    rs != [] &&
    var init, r := rs[..|rs| - 1], rs[|rs| - 1];
    Repeats(kept, init) || kept + T.Join(init) <= r || (T.Join(init) != "" && T.Join(init) <= r)
  }

  lemma {:induction false} FoldContinues(a: seq<string>, b: seq<string>)
    ensures T.ReasoningFold(a + b) == FoldFrom(T.ReasoningFold(a), b)
  {
    if b == [] {
      assert a + b == a;
    } else {
      assert (a + b)[..|a + b| - 1] == a + b[..|b| - 1];
      FoldContinues(a, b[..|b| - 1]);
    }
  }

  /** Without a repetition nothing is ambiguous after the break either. */
  lemma {:induction false} RepeatsIfAmbiguous(kept: string, rs: seq<string>)
    ensures T.Ambiguous(rs) ==> Repeats(kept, rs)
  {
    if rs != [] { RepeatsIfAmbiguous(kept, rs[..|rs| - 1]); }
  }

  lemma {:induction false} FoldExtends(state: string, rs: seq<string>)
    ensures state <= FoldFrom(state, rs)
  {
    if rs != [] {
      FoldExtends(state, rs[..|rs| - 1]);
      T.ReasoningStep(FoldFrom(state, rs[..|rs| - 1]), rs[|rs| - 1]);
    }
  }

  lemma LastAddsNothing(state: string, before: string, r: string)
    requires r != "" && state <= before && T.ReasoningNext(before, r) == state
    ensures before == state == r
  {
    T.ReasoningStep(before, r);
    assert before <= r || |T.ReasoningNext(before, r)| == |before| + |r|;
  }

  /** Reasoning that adds nothing to what was kept is what was kept, again. */
  lemma {:induction false} NothingAdded(state: string, rs: seq<string>)
    requires NonEmpty(rs)
    requires FoldFrom(state, rs) == state && rs != []
    ensures T.ReasoningFold(rs) == state
  {
    var init, r := rs[..|rs| - 1], rs[|rs| - 1];
    FoldExtends(state, init);
    LastAddsNothing(state, FoldFrom(state, init), r);
    if init != [] { NothingAdded(state, init); } else { assert rs == [r] && T.ReasoningFold([]) == ""; }
  }

  lemma JoinsOneMore(kept: string, sent: string, r: string)
    requires kept != "" && r != ""
    ensures T.ReasoningNext(kept + sent, r) == kept + T.ReasoningNext(sent, r) <==>
              !(kept + sent <= r) && !(sent != "" && sent <= r)
  {
    T.ReasoningStep(sent, r);
    if kept + sent <= r {
      assert |T.ReasoningNext(kept + sent, r)| == |r| < |kept + T.ReasoningNext(sent, r)|;
    } else if sent != "" && sent <= r {
      assert |T.ReasoningNext(kept + sent, r)| == |kept + sent + r| > |kept + T.ReasoningNext(sent, r)|;
    } else {
      Associates(kept, sent, r);
      AddsNothing(kept);
    }
  }

  lemma SameEnd(a: string, b: string, end: string)
    ensures a + end == b + end ==> a == b
  {
    if a + end == b + end {
      assert |a| == |b| && a == (a + end)[..|a|] && b == (b + end)[..|b|];
    }
  }

  lemma ApartStep(kept: string, whole: string, since: string, r: string)
    requires kept != "" && r != "" && kept <= whole && whole != kept + since
    requires whole == kept ==> since == kept
    ensures T.ReasoningNext(whole, r) != kept + T.ReasoningNext(since, r)
  {
    if whole <= r {
      assert |T.ReasoningNext(since, r)| >= |r|;
    } else if since <= r {
      SameEnd(whole, kept, r);
    } else {
      Associates(kept, since, r);
      SameEnd(whole, kept + since, r);
    }
  }

  /** Once apart, the two never come together again. */
  lemma StaysApart(kept: string, init: seq<string>, r: string)
    requires kept != "" && r != "" && init != [] && NonEmpty(init)
    requires FoldFrom(kept, init) != kept + T.ReasoningFold(init)
    ensures T.ReasoningNext(FoldFrom(kept, init), r) != kept + T.ReasoningNext(T.ReasoningFold(init), r)
  {
    var whole, since := FoldFrom(kept, init), T.ReasoningFold(init);
    FoldExtends(kept, init);
    if whole == kept { NothingAdded(kept, init); }
    ApartStep(kept, whole, since, r);
  }

  /** What is delivered before and after the break joins to what an unbroken connection delivers
      exactly when no text repeats. */
  lemma {:induction false} JoinsExactly(kept: string, rs: seq<string>)
    requires kept != "" && NonEmpty(rs)
    ensures FoldFrom(kept, rs) == kept + T.ReasoningFold(rs) <==> !Repeats(kept, rs)
  {
    if rs != [] {
      var init, r := rs[..|rs| - 1], rs[|rs| - 1];
      JoinsExactly(kept, init);
      if Repeats(kept, init) {
        StaysApart(kept, init, r);
      } else {
        RepeatsIfAmbiguous(kept, init);
        T.IncrementalReasoning(init);
        JoinsOneMore(kept, T.Join(init), r);
      }
    } else {
      assert kept + "" == kept;
    }
  }

  // ---- the entries on both sides of the break ----

  lemma EntriesSplit(entries: seq<Bridged>, k: nat)
    requires k < |entries|
    ensures var n, rest := |entries| - 1, entries[k..];
            entries[..n][..k] == entries[..k] && entries[..n][k..] == rest[..|rest| - 1] && rest[|rest| - 1] == entries[n]
  {}

  lemma {:induction false} ReasoningSplits(entries: seq<Bridged>, k: nat, id: string)
    requires k <= |entries|
    ensures RunReasoning(entries, id) == RunReasoning(entries[..k], id) + RunReasoning(entries[k..], id)
    decreases |entries|
  {
    var n := |entries| - 1;
    if k == |entries| {
      assert entries[..k] == entries && entries[k..] == [];
    } else {
      ReasoningSplits(entries[..n], k, id);
      EntriesSplit(entries, k);
    }
  }

  lemma {:induction false} ThoughtsSplit(entries: seq<Bridged>, k: nat, task: string)
    requires k <= |entries|
    ensures Thoughts(entries, task) == Thoughts(entries[..k], task) + Thoughts(entries[k..], task)
    decreases |entries|
  {
    var n := |entries| - 1;
    if k == |entries| {
      assert entries[..k] == entries && entries[k..] == [];
      AddsNothing(Thoughts(entries, task));
    } else {
      ThoughtsSplit(entries[..n], k, task);
      EntriesSplit(entries, k);
      var e := entries[n].entry;
      Associates(Thoughts(entries[..k], task), Thoughts(entries[..n][k..], task),
                 if e.SubThinking? && e.task == task then e.thinking else "");
    }
  }

  lemma {:induction false} ReasoningIsNotEmpty(entries: seq<Bridged>, id: string)
    ensures NonEmpty(RunReasoning(entries, id))
  {
    if entries != [] { ReasoningIsNotEmpty(entries[..|entries| - 1], id); }
  }

  /** What a client keeps that breaks off while holding the identifier of entry `k`. */
  function Kept(entries: seq<Bridged>, segments: seq<seq<Event>>, closing: seq<Event>, k: nat): seq<Event>
    requires |entries| == |segments| && k < |entries|
  {
    Sse.KeptPrefix(entries, segments, closing, k);
    Events(Sse.Connection(entries, segments, closing)[..Sse.Sends(entries, segments, k)])
  }

  lemma KeptIsEmitted(entries: seq<Bridged>, segments: seq<seq<Event>>, closing: seq<Event>, k: nat)
    requires |entries| == |segments| && k < |entries| && Throughout(entries, segments)
    ensures Emitted(OpenAfter(entries[..k + 1]), entries[..k + 1], Kept(entries, segments, closing, k))
  {
    Sse.KeptPrefix(entries, segments, closing, k);
    assert Kept(entries, segments, closing, k) == SentUpTo(entries, segments, k + 1);
  }

  // ---- resuming ----

  /** The reasoning that a client kept of a message and the reasoning of the resumed connection join to
      that of the run if and only if nothing was kept, or no reasoning after the break repeats. */
  lemma ResumedReasoning(
    entries: seq<Bridged>, segments: seq<seq<Event>>, closing: seq<Event>, k: nat, resumed: seq<Event>, id: string)
    requires |entries| == |segments| && k < |entries| && Throughout(entries, segments)
    requires Outcome(entries[k + 1..], resumed)
    ensures var kept, rid := Kept(entries, segments, closing, k), T.ReasoningId(id);
            ReasoningOf(kept, rid) + ReasoningOf(resumed, rid) == T.ReasoningFold(RunReasoning(entries, id)) <==>
              ReasoningOf(kept, rid) == "" || !Repeats(ReasoningOf(kept, rid), RunReasoning(entries[k + 1..], id))
  {
    var before, after := RunReasoning(entries[..k + 1], id), RunReasoning(entries[k + 1..], id);
    KeptIsEmitted(entries, segments, closing, k);
    T.ReasoningIdIsLead(id);
    StateIsFold(entries[..k + 1], id);
    ReasoningSplits(entries, k + 1, id);
    FoldContinues(before, after);
    ReasoningIsNotEmpty(entries[k + 1..], id);
    if T.ReasoningFold(before) == "" {
      FoldContinues([], after);
      assert [] + after == after;
      AddsNothing(T.ReasoningFold(after));
    } else {
      JoinsExactly(T.ReasoningFold(before), after);
    }
  }

  /** Subagents' thoughts always join. */
  lemma ResumedThoughts(
    entries: seq<Bridged>, segments: seq<seq<Event>>, closing: seq<Event>, k: nat, resumed: seq<Event>, task: string)
    requires |entries| == |segments| && k < |entries| && Throughout(entries, segments)
    requires Outcome(entries[k + 1..], resumed) && task != ""
    ensures var kept, id := Kept(entries, segments, closing, k), T.SubReasoningId(task);
            ReasoningOf(kept, id) + ReasoningOf(resumed, id) == Thoughts(entries, task)
  {
    KeptIsEmitted(entries, segments, closing, k);
    T.SubIdsAreSub(task);
    ThoughtsAreOn(entries[..k + 1], task);
    ThoughtsSplit(entries, k + 1, task);
  }

  predicate Ended(es: seq<Event>, id: string) { ToolEnd(id) in es }

  /** A started call has ended exactly if it is no longer open. */
  lemma EndedExactly(es: seq<Event>, o: Open, id: string)
    requires WatchAll(false, NOTHING, es) == Some(o)
    ensures Ended(es, id) <==> id in o.started && id !in o.tools
  {
    assert es[..|es|] == es;
    ToolHistory(es, |es|, id);
    if id in o.started {
      var k :| 0 <= k < |es| && es[k].ToolStart? && es[k].id == id;
      ToolOpenOrEnded(es, k, |es|);
    }
  }

  /** A call that was started before the break is ended, before or after it, if and only if it was ended
      when the client broke off, or the entries after the break carry it again. */
  lemma ResumedCall(
    entries: seq<Bridged>, segments: seq<seq<Event>>, closing: seq<Event>, k: nat, resumed: seq<Event>, id: string)
    requires |entries| == |segments| && k < |entries| && Throughout(entries, segments)
    requires Outcome(entries[k + 1..], resumed) && id in RunArgs(entries[..k + 1])
    ensures Ended(Kept(entries, segments, closing, k), id) || Ended(resumed, id) <==>
              id !in OpenAfter(entries[..k + 1]).tools || id in RunArgs(entries[k + 1..])
  {
    KeptIsEmitted(entries, segments, closing, k);
    StartedAreCalls(entries[..k + 1]);
    EndedExactly(Kept(entries, segments, closing, k), OpenAfter(entries[..k + 1]), id);
    OverMeansEmpty(resumed);
    EndedExactly(resumed, WatchAll(false, NOTHING, resumed).value, id);
  }

  /** Cumulative reasoning is sent again after the break. */
  lemma ReasoningIsSentAgain() returns (entries: seq<Bridged>)
    ensures |entries| == 2 && T.ReasoningFold(RunReasoning(entries, "m")) == "ab"
    ensures T.ReasoningFold(RunReasoning(entries[..1], "m")) == "a" && T.ReasoningFold(RunReasoning(entries[1..], "m")) == "ab"
  {
    var a := Bridged("1", T.Ai("m", "", "", "a", [], None));
    var b := Bridged("2", T.Ai("m", "", "", "ab", [], None));
    entries := [a, b];
    assert entries[..1] == [a] && entries[1..] == [b] && [a][..0] == [] && [b][..0] == [];
    assert RunReasoning([a], "m") == ["a"] && RunReasoning([b], "m") == ["ab"] && RunReasoning(entries, "m") == ["a", "ab"];
    assert ["a", "ab"][..1] == ["a"] && ["a"][..0] == [] && ["ab"][..0] == [];
    T.RepeatedReasoningIsLost();
    assert T.ReasoningFold(["a"]) == "a" && T.ReasoningFold(["ab"]) == "ab";
  }

  /** A call that is open at the break gets neither arguments nor an end when its result follows. */
  lemma CallIsCutOff() returns (entries: seq<Bridged>)
    ensures |entries| == 2 && entries[1].entry.ToolMessage? && entries[1].entry.callId == "x"
    ensures "x" in RunArgs(entries[..1]) && "x" in OpenAfter(entries[..1]).tools && "x" !in RunArgs(entries[1..])
  {
    var call := Some(T.ToolCall("x", "", "search", "{}"));
    var a := Bridged("1", T.Ai("m", "", "", "", [call], None));
    var b := Bridged("2", T.ToolMessage("r", "x", "found", None));
    entries := [a, b];
    assert entries[..1] == [a] && entries[1..] == [b] && [a][..0] == [] && [b][..0] == [] && [call][..0] == [];
    assert call in [call] && "x" in T.CallIds([call]);
  }
}
