/** What the snapshots of a run add to its stream (deerflow/client.py, the values mode of
    `_events_from_stream_item`), told from the checkpoint and the items alone. */
module StreamSnapshots {
  import opened Text
  import opened StreamClient
  import opened StreamOnce

  // ---- which messages are passed over ----

  /** A chunk that sends text or reasoning of message `id`. */
  predicate SendsText(item: Item, id: string) {
    item.Chunk? && item.message.Ai? && item.message.id == id && (item.message.text != "" || item.message.reasoning != "")
  }

  predicate TextStreamed(items: seq<Item>, id: string) { exists item :: item in items && SendsText(item, id) }

  /** All messages of all snapshots, in order. */
  function Shown(items: seq<Item>): seq<Message> {
    if items == [] then [] else
    var item := items[|items| - 1];
    Shown(items[..|items| - 1]) + if item.Snapshot? then item.messages else []
  }

  function FirstShown(shown: seq<Message>, id: string): Option<Message> {
    if shown == [] then None else
    var first, m := FirstShown(shown[..|shown| - 1], id), shown[|shown| - 1];
    if first.Some? then first else if m.id == id then Some(m) else None
  }

  /** The run takes notice of message `id`: it streamed it, or it is a new message that snapshots
      first show as an AI message. */
  predicate Noticed(history: set<string>, streamed: bool, shown: seq<Message>, id: string) {
    streamed || (id !in history && FirstShown(shown, id).Some? && FirstShown(shown, id).value.Ai?)
  }

  /** The state knows a message exactly if history or a snapshot holds it, and its text exactly if
      the run takes notice of it. */
  ghost predicate Knows(s: State, history: set<string>, streamed: bool, shown: seq<Message>, id: string) {
    && (id in s.seen <==> id in history || FirstShown(shown, id).Some?)
    && (id in s.text <==> Noticed(history, streamed, shown, id))
  }

  lemma LastOfMore(shown: seq<Message>, messages: seq<Message>)
    requires messages != []
    ensures shown + messages == (shown + messages[..|messages| - 1]) + [messages[|messages| - 1]]
  {}

  lemma FirstOfMore(shown: seq<Message>, m: Message, id: string)
    ensures FirstShown(shown + [m], id) ==
              if FirstShown(shown, id).Some? then FirstShown(shown, id) else if m.id == id then Some(m) else None
  {
    assert (shown + [m])[..|shown|] == shown;
  }

  lemma {:induction false} FirstStays(shown: seq<Message>, more: seq<Message>, id: string)
    ensures FirstShown(shown, id).Some? ==> FirstShown(shown + more, id) == FirstShown(shown, id)
  {
    if more == [] {
      assert shown + more == shown;
    } else {
      var init, m := more[..|more| - 1], more[|more| - 1];
      FirstStays(shown, init, id);
      FirstOfMore(shown + init, m, id);
      assert shown + more == (shown + init) + [m];
    }
  }

  lemma MessageKnown(
    s: State, m: Message, top: bool, history: set<string>, streamed: bool, shown: seq<Message>, id: string)
    requires id != "" && Knows(s, history, streamed, shown, id)
    ensures Knows(SnapshotStep(s, m, top).state, history, streamed, shown + [m], id)
  {
    FirstOfMore(shown, m, id);
    if m.Ai? && !Skipped(s, m) {
      var seen := if m.id == "" then s else s.(seen := s.seen + {m.id});
      AccountKeeps(seen, m.id, m.usage, top);
    }
  }

  lemma {:induction false} SnapshotKnown(
    s: State, messages: seq<Message>, top: bool, history: set<string>, streamed: bool, shown: seq<Message>, id: string)
    requires id != "" && Knows(s, history, streamed, shown, id)
    ensures Knows(SnapshotSteps(s, messages, top).state, history, streamed, shown + messages, id)
  {
    if messages == [] {
      assert shown + messages == shown;
    } else {
      var init, m := messages[..|messages| - 1], messages[|messages| - 1];
      SnapshotKnown(s, init, top, history, streamed, shown, id);
      MessageKnown(SnapshotSteps(s, init, top).state, m, top, history, streamed, shown + init, id);
      LastOfMore(shown, messages);
    }
  }

  lemma ItemKnown(s: State, item: Item, history: set<string>, streamed: bool, shown: seq<Message>, id: string)
    requires id != "" && Knows(s, history, streamed, shown, id)
    ensures Knows(ItemStep(s, item).state, history, streamed || SendsText(item, id),
                  shown + if item.Snapshot? then item.messages else [], id)
  {
    if item.Snapshot? {
      SnapshotKnown(s, item.messages, item.top, history, streamed, shown, id);
    } else {
      assert shown + [] == shown;
      if item.Chunk? && item.message.Ai? { AccountKeeps(s, item.message.id, item.message.usage, item.top); }
    }
  }

  lemma {:induction false} RunKnown(history: set<string>, items: seq<Item>, id: string)
    requires id != ""
    ensures Knows(Run(Seeded(history), items).state, history, TextStreamed(items, id), Shown(items), id)
  {
    if items != [] {
      var init, item := items[..|items| - 1], items[|items| - 1];
      RunKnown(history, init, id);
      ItemKnown(Run(Seeded(history), init).state, item, history, TextStreamed(init, id), Shown(init), id);
      assert items == init + [item];
      assert TextStreamed(items, id) <==> TextStreamed(init, id) || SendsText(item, id);
    }
  }

  /** A snapshot passes an AI message over if and only if it is of the history, or was first shown as
      something else, and the run has not streamed it. */
  lemma SkippedExactly(history: set<string>, items: seq<Item>, m: Message)
    requires m.Ai? && m.id != ""
    ensures Skipped(Run(Seeded(history), items).state, m) <==>
              && !TextStreamed(items, m.id)
              && (m.id in history || (FirstShown(Shown(items), m.id).Some? && !FirstShown(Shown(items), m.id).value.Ai?))
  {
    RunKnown(history, items, m.id);
  }

  // ---- a snapshot is caught up with ----

  /** The text `sent` after it has been extended by every message `id` of a snapshot that extends it. */
  function CaughtUp(sent: string, messages: seq<Message>, id: string): string {
    if messages == [] then sent else
    var before, m := CaughtUp(sent, messages[..|messages| - 1], id), messages[|messages| - 1];
    if m.Ai? && m.id == id then Extended(before, m.text) else before
  }

  /** As long as a message has not been shown, there is nothing to catch up with. */
  lemma {:induction false} NothingToCatchUp(sent: string, shown: seq<Message>, messages: seq<Message>, id: string)
    requires FirstShown(shown + messages, id) == None
    ensures CaughtUp(sent, messages, id) == sent
  {
    if messages != [] {
      var init, m := messages[..|messages| - 1], messages[|messages| - 1];
      LastOfMore(shown, messages);
      FirstOfMore(shown + init, m, id);
      NothingToCatchUp(sent, shown, init, id);
    }
  }

  /** A noticed message of a snapshot is not passed over. */
  lemma NotPassedOver(s: State, m: Message, history: set<string>, streamed: bool, shown: seq<Message>)
    requires m.Ai? && m.id != "" && Knows(s, history, streamed, shown, m.id)
    ensures Skipped(s, m) <==> !Noticed(history, streamed, shown + [m], m.id)
  {
    FirstOfMore(shown, m, m.id);
  }

  lemma MessageText(s: State, m: Message, top: bool, id: string)
    requires id != ""
    ensures Sent(SnapshotStep(s, m, top).state.text, id) ==
              if m.Ai? && m.id == id && !Skipped(s, m) then Extended(Sent(s.text, id), m.text) else Sent(s.text, id)
  {
    if m.Ai? && !Skipped(s, m) {
      var seen := if m.id == "" then s else s.(seen := s.seen + {m.id});
      AccountKeeps(seen, m.id, m.usage, top);
      RememberExtends(Account(seen, m.id, m.usage, top), m, id);
    }
  }

  lemma OneMoreText(
    t: State, m: Message, top: bool, history: set<string>, streamed: bool, shown: seq<Message>, init: seq<Message>,
    sent: string, id: string)
    requires id != "" && Knows(t, history, streamed, shown + init, id)
    requires Sent(t.text, id) == if Noticed(history, streamed, shown + init, id) then CaughtUp(sent, init, id) else sent
    ensures Sent(SnapshotStep(t, m, top).state.text, id) ==
              if !Noticed(history, streamed, (shown + init) + [m], id) then sent
              else if m.Ai? && m.id == id then Extended(CaughtUp(sent, init, id), m.text)
              else CaughtUp(sent, init, id)
  {
    MessageText(t, m, top, id);
    FirstOfMore(shown + init, m, id);
    if m.Ai? && m.id == id { NotPassedOver(t, m, history, streamed, shown + init); }
    if FirstShown(shown + init, id) == None { NothingToCatchUp(sent, shown, init, id); }
  }

  lemma {:induction false} SnapshotText(
    s: State, messages: seq<Message>, top: bool, history: set<string>, streamed: bool, shown: seq<Message>, id: string)
    requires id != "" && Knows(s, history, streamed, shown, id)
    ensures Sent(SnapshotSteps(s, messages, top).state.text, id) ==
              if Noticed(history, streamed, shown + messages, id) then CaughtUp(Sent(s.text, id), messages, id) else Sent(s.text, id)
  {
    if messages == [] {
      assert shown + messages == shown;
    } else {
      var init, m := messages[..|messages| - 1], messages[|messages| - 1];
      SnapshotText(s, init, top, history, streamed, shown, id);
      SnapshotKnown(s, init, top, history, streamed, shown, id);
      OneMoreText(SnapshotSteps(s, init, top).state, m, top, history, streamed, shown, init, Sent(s.text, id), id);
      LastOfMore(shown, messages);
    }
  }

  /** After a snapshot, the text sent for a message is caught up with it: extended by what the snapshot
      holds of it, whenever that goes beyond what was sent, and never changed otherwise. Messages
      that the run takes no notice of stay as they are. */
  lemma SnapshotCatchesUp(history: set<string>, items: seq<Item>, messages: seq<Message>, top: bool, id: string)
    requires id != ""
    ensures var before, after := Run(Seeded(history), items).events, Run(Seeded(history), items + [Snapshot(messages, top)]).events;
            TextSent(after, id) ==
              if Noticed(history, TextStreamed(items, id), Shown(items) + messages, id) then CaughtUp(TextSent(before, id), messages, id)
              else TextSent(before, id)
  {
    var all := items + [Snapshot(messages, top)];
    assert all[..|items|] == items;
    DeltasAddUp(history, items, id);
    DeltasAddUp(history, all, id);
    RunKnown(history, items, id);
    SnapshotText(Run(Seeded(history), items).state, messages, top, history, TextStreamed(items, id), Shown(items), id);
  }

  lemma {:induction false} NotHeld(sent: string, messages: seq<Message>, id: string)
    requires forall j :: 0 <= j < |messages| ==> messages[j].id != id
    ensures CaughtUp(sent, messages, id) == sent
  {
    if messages != [] { NotHeld(sent, messages[..|messages| - 1], id); }
  }

  lemma {:induction false} CaughtUpOnce(sent: string, messages: seq<Message>, k: nat)
    requires k < |messages| && messages[k].Ai?
    requires forall j :: 0 <= j < |messages| && j != k ==> messages[j].id != messages[k].id
    ensures CaughtUp(sent, messages, messages[k].id) == Extended(sent, messages[k].text)
  {
    var n := |messages| - 1;
    if k < n {
      CaughtUpOnce(sent, messages[..n], k);
    } else {
      NotHeld(sent, messages[..n], messages[k].id);
    }
  }

  /** In particular, a noticed message that a snapshot holds once, with a text that extends what was
      sent, has that text afterwards. */
  lemma SnapshotEqualsText(history: set<string>, items: seq<Item>, messages: seq<Message>, top: bool, k: nat)
    requires k < |messages| && messages[k].Ai? && messages[k].id != ""
    requires forall j :: 0 <= j < |messages| && j != k ==> messages[j].id != messages[k].id
    requires Noticed(history, TextStreamed(items, messages[k].id), Shown(items) + messages, messages[k].id)
    requires TextSent(Run(Seeded(history), items).events, messages[k].id) <= messages[k].text
    ensures TextSent(Run(Seeded(history), items + [Snapshot(messages, top)]).events, messages[k].id) == messages[k].text
  {
    SnapshotCatchesUp(history, items, messages, top, messages[k].id);
    CaughtUpOnce(TextSent(Run(Seeded(history), items).events, messages[k].id), messages, k);
  }

  // ---- calls ----

  /** Once a message was shown, later messages do not change whether it is noticed. */
  lemma NoticedStays(history: set<string>, streamed: bool, shown: seq<Message>, messages: seq<Message>, k: nat)
    requires k < |messages|
    ensures var id := messages[k].id;
            Noticed(history, streamed, shown + messages[..k] + [messages[k]], id) <==> Noticed(history, streamed, shown + messages, id)
  {
    var upTo := shown + messages[..k] + [messages[k]];
    FirstOfMore(shown + messages[..k], messages[k], messages[k].id);
    FirstStays(upTo, messages[k + 1..], messages[k].id);
    assert upTo + messages[k + 1..] == shown + messages;
  }

  lemma NoticedIsNotSkipped(history: set<string>, items: seq<Item>, messages: seq<Message>, top: bool, k: nat)
    requires k < |messages| && messages[k].Ai? && messages[k].id != ""
    ensures Skipped(SnapshotSteps(Run(Seeded(history), items).state, messages[..k], top).state, messages[k]) <==>
              !Noticed(history, TextStreamed(items, messages[k].id), Shown(items) + messages, messages[k].id)
  {
    var m, before, streamed := messages[k], messages[..k], TextStreamed(items, messages[k].id);
    var s := Run(Seeded(history), items).state;
    RunKnown(history, items, m.id);
    SnapshotKnown(s, before, top, history, streamed, Shown(items), m.id);
    NotPassedOver(SnapshotSteps(s, before, top).state, m, history, streamed, Shown(items) + before);
    NoticedStays(history, streamed, Shown(items), messages, k);
  }

  lemma Around(messages: seq<Message>, k: nat)
    requires k < |messages|
    ensures messages[..k] + [messages[k]] + messages[k + 1..] == messages
  {}

  lemma RunOfMore(history: set<string>, items: seq<Item>, messages: seq<Message>, top: bool)
    ensures Run(Seeded(history), items + [Snapshot(messages, top)]).state ==
              SnapshotSteps(Run(Seeded(history), items).state, messages, top).state
  {
    assert (items + [Snapshot(messages, top)])[..|items|] == items;
  }

  lemma InKeys(keys: seq<string>, key: string)
    ensures key in AsSet(keys) <==> key in keys
  {}

  /** No call of a noticed message that a snapshot shows is left out. */
  lemma CallsAreSent(history: set<string>, items: seq<Item>, messages: seq<Message>, top: bool, k: nat, c: Call)
    requires k < |messages| && messages[k].Ai? && messages[k].id != "" && c in messages[k].calls
    requires Noticed(history, TextStreamed(items, messages[k].id), Shown(items) + messages, messages[k].id)
    ensures c.Key() in KeysSent(Run(Seeded(history), items + [Snapshot(messages, top)]).events, messages[k].id)
  {
    NoticedIsNotSkipped(history, items, messages, top, k);
    CallsAround(Run(Seeded(history), items).state, messages[..k], messages[k], messages[k + 1..], top, c);
    Around(messages, k);
    RunOfMore(history, items, messages, top);
    CallsOnce(history, items + [Snapshot(messages, top)], messages[k].id);
    InKeys(KeysSent(Run(Seeded(history), items + [Snapshot(messages, top)]).events, messages[k].id), c.Key());
  }

  // ---- usage ----

  /** The messages of a snapshot that count, after `shown`: the unidentified and the noticed ones. */
  function CountedOf(history: set<string>, items: seq<Item>, shown: seq<Message>, messages: seq<Message>): seq<Observation> {
    if messages == [] then [] else
    var init, m := messages[..|messages| - 1], messages[|messages| - 1];
    CountedOf(history, items, shown, init)
    + if m.Ai? && (m.id == "" || Noticed(history, TextStreamed(items, m.id), shown + init + [m], m.id))
      then [Observation(m.id, m.usage)] else []
  }

  /** The messages of a run that count, told from the checkpoint and the items. */
  function Counted(history: set<string>, items: seq<Item>): seq<Observation> {
    if items == [] then [] else
    var init, item := items[..|items| - 1], items[|items| - 1];
    Counted(history, init)
    + match item
      case Chunk(m, _) => if m.Ai? then [Observation(m.id, m.usage)] else []
      case Snapshot(messages, _) => CountedOf(history, init, Shown(init), messages)
      case _ => []
  }

  lemma MessageCounts(history: set<string>, items: seq<Item>, init: seq<Message>, m: Message, top: bool)
    ensures MessageObserved(SnapshotSteps(Run(Seeded(history), items).state, init, top).state, m) ==
              if m.Ai? && (m.id == "" || Noticed(history, TextStreamed(items, m.id), Shown(items) + init + [m], m.id))
              then [Observation(m.id, m.usage)] else []
  {
    if m.Ai? && m.id != "" {
      var s := Run(Seeded(history), items).state;
      RunKnown(history, items, m.id);
      SnapshotKnown(s, init, top, history, TextStreamed(items, m.id), Shown(items), m.id);
      NotPassedOver(SnapshotSteps(s, init, top).state, m, history, TextStreamed(items, m.id), Shown(items) + init);
    }
  }

  lemma {:induction false} SnapshotCounts(history: set<string>, items: seq<Item>, messages: seq<Message>, top: bool)
    ensures SnapshotObserved(Run(Seeded(history), items).state, messages, top) == CountedOf(history, items, Shown(items), messages)
  {
    if messages != [] {
      var init, m := messages[..|messages| - 1], messages[|messages| - 1];
      SnapshotCounts(history, items, init, top);
      MessageCounts(history, items, init, m, top);
    }
  }

  lemma {:induction false} ObservedIsCounted(history: set<string>, items: seq<Item>)
    ensures AllObserved(Seeded(history), items) == Counted(history, items)
  {
    if items != [] {
      var init, item := items[..|items| - 1], items[|items| - 1];
      ObservedIsCounted(history, init);
      if item.Snapshot? { SnapshotCounts(history, init, item.messages, item.top); }
    }
  }

  /** The usage a run reports is that of the first counted message of every identifier and of every
      unidentified one: all AI chunks count, and the AI messages of snapshots that are not
      passed over. */
  lemma UsageFromItems(history: set<string>, items: seq<Item>)
    ensures Run(Seeded(history), items).state.usage == FirstUsages(Counted(history, items))
  {
    UsageOnce(history, items);
    ObservedIsCounted(history, items);
  }
}
