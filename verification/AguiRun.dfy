/** The whole output of one `/chat/agui` connection (app/routers/chat.py, `event_generator`). */
module AguiRun {
  import opened Text
  import opened AguiEvents
  import T = AguiTranslator
  import N = AguiNotes

  /** An entry of the stream bridge with its identifier. */
  datatype Bridged = Bridged(id: string, entry: T.Entry)

  /** An emitted event; the last one of each entry carries the entry's identifier. */
  datatype Frame = Frame(event: Event, id: Option<string>)

  function Tag(b: Bridged, evs: seq<Event>): seq<Frame> {
    seq(|evs|, i requires 0 <= i < |evs| =>
          Frame(evs[i], if i == |evs| - 1 && !b.entry.Heartbeat? then Some(b.id) else None))
  }

  function Untagged(evs: seq<Event>): seq<Frame> { seq(|evs|, i requires 0 <= i < |evs| => Frame(evs[i], None)) }

  function Events(frames: seq<Frame>): seq<Event> { seq(|frames|, i requires 0 <= i < |frames| => frames[i].event) }

  function Frames(entries: seq<Bridged>, segments: seq<seq<Event>>): seq<Frame>
    requires |entries| == |segments|
  {
    if entries == [] then [] else
    var n := |entries| - 1;
    Frames(entries[..n], segments[..n]) + Tag(entries[n], segments[n])
  }

  // ---- what the entries say ----

  /** The text the entries carry for message `id`. */
  function RunText(entries: seq<Bridged>, id: string): string {
    if entries == [] then ""
    else RunText(entries[..|entries| - 1], id) + T.EntryText(entries[|entries| - 1].entry, id)
  }

  /** The latest serialized arguments of every call. */
  function RunArgs(entries: seq<Bridged>): map<string, string> {
    if entries == [] then map[]
    else T.AddArgs(RunArgs(entries[..|entries| - 1]), T.CallsOf(entries[|entries| - 1].entry))
  }

  function RunState(entries: seq<Bridged>): map<string, string> {
    if entries == [] then map[]
    else T.StateAfter(RunState(entries[..|entries| - 1]), entries[|entries| - 1].entry)
  }

  /** The reasoning texts received for message `id`, in order. */
  function RunReasoning(entries: seq<Bridged>, id: string): seq<string> {
    if entries == [] then [] else
    var e := entries[|entries| - 1].entry;
    RunReasoning(entries[..|entries| - 1], id)
    + if e.Ai? && e.calls == [] && e.reasoning != "" && e.MessageId() == id then [e.reasoning] else []
  }

  /** The signature of the last snapshot. */
  function RunSnapshot(entries: seq<Bridged>): Option<string> {
    if entries == [] then None else N.SnapshotOf(RunSnapshot(entries[..|entries| - 1]), entries[|entries| - 1].entry)
  }

  /** Results, snapshots and custom events of the entries; a snapshot that repeats the last one is left out. */
  function RunNotes(entries: seq<Bridged>): seq<Event> {
    if entries == [] then [] else
    var init := entries[..|entries| - 1];
    RunNotes(init) + T.Deduplicated(RunSnapshot(init), N.EntryNotes(entries[|entries| - 1].entry))
  }

  /** All thoughts of a subagent. */
  function Thoughts(entries: seq<Bridged>, task: string): string {
    if entries == [] then "" else
    var e := entries[|entries| - 1].entry;
    Thoughts(entries[..|entries| - 1], task) + if e.SubThinking? && e.task == task then e.thinking else ""
  }

  /** What the entries say on the reasoning message `id` of a subagent. */
  function ThoughtsOn(entries: seq<Bridged>, id: string): string {
    if entries == [] then ""
    else ThoughtsOn(entries[..|entries| - 1], id) + T.EntryThought(entries[|entries| - 1].entry, id)
  }

  lemma {:induction false} ThoughtsAreOn(entries: seq<Bridged>, task: string)
    requires task != ""
    ensures ThoughtsOn(entries, T.SubReasoningId(task)) == Thoughts(entries, task)
  {
    if entries != [] {
      var e := entries[|entries| - 1].entry;
      ThoughtsAreOn(entries[..|entries| - 1], task);
      if e.SubThinking? { T.SubReasoningIdsDiffer(e.task, task); }
    }
  }

  /** The reasoning delivered for `id`: what is stored for a message, or a subagent's thoughts. */
  function Told(entries: seq<Bridged>, id: string): string {
    if IsSub(id) then ThoughtsOn(entries, id) else T.StateOf(RunState(entries), id)
  }

  lemma {:induction false} StateIsFold(entries: seq<Bridged>, id: string)
    ensures T.StateOf(RunState(entries), T.ReasoningId(id)) == T.ReasoningFold(RunReasoning(entries, id))
  {
    if entries != [] {
      var init, e := entries[..|entries| - 1], entries[|entries| - 1].entry;
      StateIsFold(init, id);
      if e.Ai? && e.calls == [] && e.reasoning != "" {
        assert T.ReasoningId(e.MessageId())[10..] == e.MessageId() && T.ReasoningId(id)[10..] == id;
        if e.MessageId() == id {
          assert RunReasoning(entries, id)[..|RunReasoning(init, id)|] == RunReasoning(init, id);
        } else {
          assert RunReasoning(entries, id) == RunReasoning(init, id);
        }
      } else {
        assert RunReasoning(entries, id) == RunReasoning(init, id);
      }
    }
  }

  /** What the entries leave open at a client. */
  function OpenAfter(entries: seq<Bridged>): Open {
    if entries == [] then NOTHING else T.NextOpen(OpenAfter(entries[..|entries| - 1]), entries[|entries| - 1].entry)
  }

  /** The calls started are those with arguments. */
  lemma {:induction false} StartedAreCalls(entries: seq<Bridged>)
    ensures OpenAfter(entries).started == RunArgs(entries).Keys
  {
    if entries != [] {
      var init, e := entries[..|entries| - 1], entries[|entries| - 1].entry;
      StartedAreCalls(init);
      T.AddArgsKeys(RunArgs(init), T.CallsOf(e));
      T.StartsCalls(OpenAfter(init), e);
    }
  }

  /** Some lead message takes the identifier of a text message that is open. */
  predicate Collision(entries: seq<Bridged>) {
    entries != [] &&
    var init := entries[..|entries| - 1];
    Collision(init) || T.Collides(OpenAfter(init), entries[|entries| - 1].entry)
  }

  /** Collisions need a lead message named like a subagent's. */
  lemma {:induction false} PlainIdsDoNotCollide(entries: seq<Bridged>)
    requires forall b :: b in entries && b.entry.LeadText() ==> !IsSub(b.entry.MessageId())
    ensures !Collision(entries)
  {
    if entries != [] { PlainIdsDoNotCollide(entries[..|entries| - 1]); }
  }

  /** They do happen: a subagent's text is open when a lead message arrives under the same name. */
  lemma LeadMayCollide() returns (entries: seq<Bridged>)
    ensures Collision(entries)
  {
    var token := Bridged("1", T.SubToken("t", "a", "{}"));
    var lead := Bridged("2", T.Ai(T.SubTextId("t"), "", "b", "", [], None));
    entries := [token, lead];
    assert entries[..1] == [token] && [token][..0] == [];
    T.SubMembership(T.Conn(None, map[], {}, {}, map[], {}, {}), "t");
  }

  /** Everything the connection emitted up to some entry. */
  ghost predicate Emitted(o: Open, entries: seq<Bridged>, evs: seq<Event>) {
    && WatchAll(false, NOTHING, evs) == Some(o)
    && WatchAll(true, NOTHING, evs) == (if Collision(entries) then None else Some(o))
    && (forall id :: TextOf(evs, id) == RunText(entries, id))
    && (forall id :: ReasoningOf(evs, id) == Told(entries, id))
  }

  lemma ToldGrows(c: T.Conn, entries: seq<Bridged>, b: Bridged, id: string)
    requires c.state == RunState(entries)
    ensures Told(entries + [b], id) == Told(entries, id) + T.EntryReasoning(c, b.entry, id)
  {
    assert (entries + [b])[..|entries|] == entries;
    if IsSub(id) {
      if b.entry.Ai? { T.ReasoningIdIsLead(b.entry.MessageId()); }
    } else {
      T.StateGrows(c, b.entry, id);
    }
  }

  lemma EmittedStep(c: T.Conn, entries: seq<Bridged>, evs: seq<Event>, b: Bridged, more: seq<Event>)
    requires Emitted(OpenAfter(entries), entries, evs) && T.Renders(OpenAfter(entries), b.entry, more)
    requires c.state == RunState(entries)
    requires forall id :: ReasoningOf(more, id) == T.EntryReasoning(c, b.entry, id)
    ensures Emitted(OpenAfter(entries + [b]), entries + [b], evs + more)
  {
    var all := entries + [b];
    assert all[..|entries|] == entries;
    WatchConcat(false, NOTHING, evs, more);
    WatchConcat(true, NOTHING, evs, more);
    forall id ensures TextOf(evs + more, id) == RunText(all, id) { TextConcat(evs, more, id); }
    forall id ensures ReasoningOf(evs + more, id) == Told(all, id) {
      TextConcat(evs, more, id);
      ToldGrows(c, entries, b, id);
    }
  }

  lemma EmittedClosing(o: Open, entries: seq<Bridged>, evs: seq<Event>, closing: seq<Event>, p: Open)
    requires Emitted(o, entries, evs) && T.Yields(o, closing, p) && T.Silent(closing)
    ensures Emitted(p, entries, evs + closing)
  {
    WatchConcat(false, NOTHING, evs, closing);
    WatchConcat(true, NOTHING, evs, closing);
    T.SilentSides(evs, closing);
  }

  lemma EventsOfTags(frames: seq<Frame>, b: Bridged, evs: seq<Event>)
    ensures Events(frames + Tag(b, evs)) == Events(frames) + evs
    ensures Events(frames + Untagged(evs)) == Events(frames) + evs
  {}

  lemma FramesSnoc(entries: seq<Bridged>, segments: seq<seq<Event>>, b: Bridged, evs: seq<Event>)
    requires |entries| == |segments|
    ensures forall start :: start + Frames(entries + [b], segments + [evs]) == start + Frames(entries, segments) + Tag(b, evs)
  {
    assert (entries + [b])[..|entries|] == entries && (segments + [evs])[..|segments|] == segments;
  }

  /** What is sent for an entry holds exactly the entry's text. */
  ghost predicate TextsFit(entries: seq<Bridged>, segments: seq<seq<Event>>)
    requires |segments| == |entries|
  {
    forall k, id :: 0 <= k < |entries| ==> TextOf(segments[k], id) == T.EntryText(entries[k].entry, id)
  }

  /** Arguments are the latest serialized up to the entry they are sent with. */
  ghost predicate ArgsAreLatest(entries: seq<Bridged>, segments: seq<seq<Event>>)
    requires |segments| == |entries|
  {
    forall k :: 0 <= k < |entries| ==> T.CarriesArgs(RunArgs(entries[..k + 1]), segments[k])
  }

  /** All events sent up to entry `k`. */
  function SentUpTo(entries: seq<Bridged>, segments: seq<seq<Event>>, k: nat): seq<Event>
    requires |segments| == |entries| && k <= |entries|
  {
    Events(Untagged([RunStarted]) + Frames(entries[..k], segments[..k]))
  }

  /** At every entry, what was sent up to there is what the entries up to there stand for. */
  ghost predicate Throughout(entries: seq<Bridged>, segments: seq<seq<Event>>)
    requires |segments| == |entries|
  {
    forall k :: 0 <= k <= |entries| ==> Emitted(OpenAfter(entries[..k]), entries[..k], SentUpTo(entries, segments, k))
  }

  lemma SentBefore(entries: seq<Bridged>, segments: seq<seq<Event>>, b: Bridged, more: seq<Event>, k: nat)
    requires |segments| == |entries| && k <= |entries|
    ensures (entries + [b])[..k] == entries[..k]
    ensures SentUpTo(entries + [b], segments + [more], k) == SentUpTo(entries, segments, k)
  {
    assert (entries + [b])[..k] == entries[..k] && (segments + [more])[..k] == segments[..k];
  }

  lemma SentInAll(entries: seq<Bridged>, segments: seq<seq<Event>>)
    requires |segments| == |entries|
    ensures entries[..|entries|] == entries
    ensures SentUpTo(entries, segments, |entries|) == Events(Untagged([RunStarted]) + Frames(entries, segments))
  {
    assert entries[..|entries|] == entries && segments[..|segments|] == segments;
  }

  lemma ThroughoutMore(entries: seq<Bridged>, segments: seq<seq<Event>>, b: Bridged, more: seq<Event>)
    requires |segments| == |entries| && Throughout(entries, segments)
    requires Emitted(OpenAfter(entries + [b]), entries + [b], Events(Untagged([RunStarted]) + Frames(entries + [b], segments + [more])))
    ensures Throughout(entries + [b], segments + [more])
  {
    var all, sent := entries + [b], segments + [more];
    SentInAll(all, sent);
    forall k | 0 <= k <= |all| ensures Emitted(OpenAfter(all[..k]), all[..k], SentUpTo(all, sent, k)) {
      if k <= |entries| { SentBefore(entries, segments, b, more, k); }
    }
  }

  /** Where the connection stands after `entries`: its translator `c`, the frames it sent,
      and what it sent for each entry. */
  ghost predicate Delivered(c: T.Conn, entries: seq<Bridged>, frames: seq<Frame>, segments: seq<seq<Event>>) {
    && T.Sound(c) && c.args == RunArgs(entries) && c.state == RunState(entries) && T.ViewOf(c) == OpenAfter(entries)
    && Emitted(OpenAfter(entries), entries, Events(frames))
    && |segments| == |entries| && frames == Untagged([RunStarted]) + Frames(entries, segments)
    && ArgsAreLatest(entries, segments) && TextsFit(entries, segments) && Throughout(entries, segments)
  }

  lemma TextsFitMore(entries: seq<Bridged>, segments: seq<seq<Event>>, b: Bridged, more: seq<Event>)
    requires |segments| == |entries| && TextsFit(entries, segments)
    requires forall id :: TextOf(more, id) == T.EntryText(b.entry, id)
    ensures TextsFit(entries + [b], segments + [more])
  {
    var all, sent := entries + [b], segments + [more];
    forall k, id | 0 <= k < |all| ensures TextOf(sent[k], id) == T.EntryText(all[k].entry, id) {
      if k < |entries| { assert sent[k] == segments[k] && all[k] == entries[k]; }
    }
  }

  lemma FoldsSnoc(entries: seq<Bridged>, b: Bridged)
    ensures RunArgs(entries + [b]) == T.AddArgs(RunArgs(entries), T.CallsOf(b.entry))
    ensures RunState(entries + [b]) == T.StateAfter(RunState(entries), b.entry)
    ensures OpenAfter(entries + [b]) == T.NextOpen(OpenAfter(entries), b.entry)
  {
    assert (entries + [b])[..|entries|] == entries;
  }

  lemma PrefixesOfMore(entries: seq<Bridged>, b: Bridged, k: nat)
    requires k <= |entries|
    ensures (entries + [b])[..k + 1] == if k < |entries| then entries[..k + 1] else entries + [b]
  {}

  lemma LatestStep(entries: seq<Bridged>, segments: seq<seq<Event>>, b: Bridged, more: seq<Event>)
    requires |entries| == |segments| && ArgsAreLatest(entries, segments)
    requires T.CarriesArgs(T.AddArgs(RunArgs(entries), T.CallsOf(b.entry)), more)
    ensures ArgsAreLatest(entries + [b], segments + [more])
  {
    FoldsSnoc(entries, b);
    forall k | 0 <= k < |entries + [b]| ensures T.CarriesArgs(RunArgs((entries + [b])[..k + 1]), (segments + [more])[k]) {
      PrefixesOfMore(entries, b, k);
      assert k < |entries| ==> (segments + [more])[k] == segments[k];
    }
  }

  lemma DeliveredStep(c: T.Conn, entries: seq<Bridged>, frames: seq<Frame>, segments: seq<seq<Event>>,
                      b: Bridged, more: seq<Event>, d: T.Conn)
    requires Delivered(c, entries, frames, segments) && T.Handles(c, b.entry, more, d)
    ensures Delivered(d, entries + [b], frames + Tag(b, more), segments + [more])
  {
    EmittedStep(c, entries, Events(frames), b, more);
    EventsOfTags(frames, b, more);
    FramesSnoc(entries, segments, b, more);
    FoldsSnoc(entries, b);
    LatestStep(entries, segments, b, more);
    TextsFitMore(entries, segments, b, more);
    ThroughoutMore(entries, segments, b, more);
  }

  /** The results, snapshots and custom events so far, and the last snapshot. */
  ghost predicate Noted(last: Option<string>, entries: seq<Bridged>, frames: seq<Frame>) {
    NotesOf(Events(frames)) == RunNotes(entries) && last == RunSnapshot(entries)
  }

  lemma NotesStep(last: Option<string>, c: T.Conn, entries: seq<Bridged>, frames: seq<Frame>, b: Bridged, more: seq<Event>, after: Option<string>)
    requires Noted(last, entries, frames) && T.Emits(last, c, b.entry, more, after)
    ensures Noted(after, entries + [b], frames + Tag(b, more))
  {
    assert (entries + [b])[..|entries|] == entries;
    N.EmitsNotes(last, c, b.entry, more, after);
    EventsOfTags(frames, b, more);
    NotesConcat(Events(frames), more);
  }

  ghost predicate Stands(c: T.Conn, last: Option<string>, entries: seq<Bridged>, frames: seq<Frame>, segments: seq<seq<Event>>) {
    Delivered(c, entries, frames, segments) && Noted(last, entries, frames)
  }

  lemma StandsStep(c: T.Conn, last: Option<string>, entries: seq<Bridged>, frames: seq<Frame>, segments: seq<seq<Event>>,
                   b: Bridged, more: seq<Event>, d: T.Conn, after: Option<string>)
    requires Stands(c, last, entries, frames, segments) && T.Handles(c, b.entry, more, d) && T.Emits(last, c, b.entry, more, after)
    ensures Stands(d, after, entries + [b], frames + Tag(b, more), segments + [more])
  {
    DeliveredStep(c, entries, frames, segments, b, more, d);
    NotesStep(last, c, entries, frames, b, more, after);
  }

  lemma PrefixGrows(entries: seq<Bridged>, i: nat)
    requires i < |entries|
    ensures entries[..i] + [entries[i]] == entries[..i + 1]
  {}

  lemma StartIsEmitted()
    ensures Emitted(NOTHING, [], [RunStarted])
  {
    assert [RunStarted][..0] == [];
    T.SilentDeliversNothing([RunStarted]);
  }

  lemma StartIsDelivered(c: T.Conn)
    requires T.Sound(c) && T.ViewOf(c) == NOTHING && c.args == map[] && c.state == map[]
    ensures Stands(c, None, [], Untagged([RunStarted]), [])
  {
    StartIsEmitted();
    assert Events(Untagged([RunStarted])) == [RunStarted] && Untagged([RunStarted]) + [] == Untagged([RunStarted]);
    SentInAll([], []);
    NoNotes([RunStarted]);
  }

  /** The loop of `event_generator` over the subscription. */
  method Deliver(conn: T.Connection, entries: seq<Bridged>) returns (frames: seq<Frame>, ghost segments: seq<seq<Event>>)
    requires T.Sound(conn.Value()) && T.ViewOf(conn.Value()) == NOTHING
    requires conn.toolArgs == map[] && conn.reasoningState == map[] && conn.lastSnapshot == None
    requires forall b :: b in entries ==> T.WellFormed(b.entry)
    modifies conn
    ensures Stands(conn.Value(), conn.lastSnapshot, entries, frames, segments)
  {
    frames, segments := Untagged([RunStarted]), [];
    StartIsDelivered(conn.Value());
    ghost var seen: seq<Bridged> := [];
    var i := 0;
    while i < |entries|
      invariant 0 <= i <= |entries| && seen == entries[..i]
      invariant Stands(conn.Value(), conn.lastSnapshot, seen, frames, segments)
    {
      var b := entries[i];
      PrefixGrows(entries, i);
      ghost var c, last := conn.Value(), conn.lastSnapshot;
      var more := conn.OnEntry(b.entry);
      StandsStep(c, last, seen, frames, segments, b, more, conn.Value(), conn.lastSnapshot);
      frames, segments, seen := frames + Tag(b, more), segments + [more], seen + [b];
      i := i + 1;
    }
    assert seen == entries;
  }

  /** What a connection over `entries` has emitted when it is over. */
  ghost predicate Outcome(entries: seq<Bridged>, out: seq<Event>) {
    // every start is ended before the run is reported finished or failed, which comes last
    && WatchAll(false, NOTHING, out).Some? && WatchAll(false, NOTHING, out).value.over
    // every call that the entries carry is started, and no other
    && WatchAll(false, NOTHING, out).value.started == RunArgs(entries).Keys
    // no text message is started while it is open, unless a lead message takes a subagent's identifier
    && (WatchAll(true, NOTHING, out).Some? <==> !Collision(entries))
    // exactly the entries' texts are delivered, and the reasoning that `_reasoning_delta` makes of them
    && (forall id :: TextOf(out, id) == RunText(entries, id))
    && (forall id :: ReasoningOf(out, T.ReasoningId(id)) == T.ReasoningFold(RunReasoning(entries, id)))
    // a subagent's thoughts are delivered in full
    && (forall task :: task != "" ==> ReasoningOf(out, T.SubReasoningId(task)) == Thoughts(entries, task))
  }

  /** What follows the subscription, however it ended. */
  method Finish(conn: T.Connection, raised: bool, failed: bool, ghost entries: seq<Bridged>, ghost evs: seq<Event>)
    returns (closing: seq<Event>)
    requires T.Sound(conn.Value()) && conn.toolArgs == RunArgs(entries)
    requires Emitted(T.ViewOf(conn.Value()), entries, evs)
    modifies conn
    ensures closing != [] && closing[|closing| - 1] == if raised || failed then RunError else RunFinished
    ensures exists o :: Emitted(o, entries, evs + closing) && o.over && o.started == RunArgs(entries).Keys
    ensures T.CarriesArgs(RunArgs(entries), closing) && OnlyEnds(closing[..|closing| - 1])
  {
    ghost var o := T.ViewOf(conn.Value());
    var tools := conn.CloseTools(o);
    ghost var p := T.ViewOf(conn.Value());
    assert p == o.(tools := {});
    var messages := conn.CloseMessages();
    ghost var q := p.(text := {}, reasoning := {});
    T.YieldsConcat(o, tools, p, messages, q);
    var last := if raised || failed then RunError else RunFinished;
    T.YieldsOne(q, last, q.(over := true));
    T.YieldsConcat(o, tools + messages, q, [last], q.(over := true));
    closing := tools + messages + [last];
    assert closing[..|closing| - 1] == tools + messages;
    EmittedClosing(o, entries, evs, closing, q.(over := true));
  }

  lemma NotesEnd(frames: seq<Frame>, closing: seq<Event>)
    requires closing != [] && OnlyEnds(closing[..|closing| - 1]) && !IsNote(closing[|closing| - 1])
    ensures NotesOf(Events(frames + Untagged(closing))) == NotesOf(Events(frames))
  {
    EventsOfTags(frames, Bridged("", T.Ignored), closing);
    NotesConcat(Events(frames), closing);
    NoNotes(closing);
  }

  lemma Conclude(entries: seq<Bridged>, frames: seq<Frame>, closing: seq<Event>)
    requires closing != [] && exists o :: Emitted(o, entries, Events(frames) + closing) && o.over && o.started == RunArgs(entries).Keys
    ensures var sent := frames + Untagged(closing);
            && sent[|sent| - 1].event == closing[|closing| - 1] && Outcome(entries, Events(sent))
  {
    var sent, out := frames + Untagged(closing), Events(frames) + closing;
    assert sent[|sent| - 1] == Untagged(closing)[|closing| - 1];
    EventsOfTags(frames, Bridged("", T.Ignored), closing);
    forall id ensures ReasoningOf(out, T.ReasoningId(id)) == T.ReasoningFold(RunReasoning(entries, id)) {
      T.ReasoningIdIsLead(id);
      StateIsFold(entries, id);
    }
    forall task | task != "" ensures ReasoningOf(out, T.SubReasoningId(task)) == Thoughts(entries, task) {
      T.SubIdsAreSub(task);
      ThoughtsAreOn(entries, task);
    }
  }

  /** `event_generator`: the subscription delivers `entries` and then ends or, if `raised`,
      raises. `failed` says how the run itself ended. */
  method EventGenerator(entries: seq<Bridged>, raised: bool, failed: bool)
    returns (frames: seq<Frame>, ghost segments: seq<seq<Event>>, closing: seq<Event>)
    requires forall b :: b in entries ==> T.WellFormed(b.entry)
    ensures frames != [] && frames[|frames| - 1].event == if raised || failed then RunError else RunFinished
    ensures Outcome(entries, Events(frames))
    // tool results, snapshots and custom events are relayed in order
    ensures NotesOf(Events(frames)) == RunNotes(entries)
    // the frames of each entry are tagged at their end; arguments are the latest at that point
    ensures |segments| == |entries| && frames == Untagged([RunStarted]) + Frames(entries, segments) + Untagged(closing)
    ensures ArgsAreLatest(entries, segments) && T.CarriesArgs(RunArgs(entries), closing) && TextsFit(entries, segments)
    // and at every entry, what was sent so far is what the entries so far stand for
    ensures Throughout(entries, segments)
  {
    var conn := new T.Connection();
    frames, segments := Deliver(conn, entries);
    closing := Finish(conn, raised, failed, entries, Events(frames));
    Conclude(entries, frames, closing);
    NotesEnd(frames, closing);
    frames := frames + Untagged(closing);
  }
}
