/** What a run of deerflow/client.py emits and counts exactly once. */
module StreamOnce {
  import opened Text
  import opened StreamClient

  // ---- tool calls ----

  predicate NoRepeats(keys: seq<string>) { forall i, j :: 0 <= i < j < |keys| ==> keys[i] != keys[j] }

  function AsSet(keys: seq<string>): set<string> { set k | k in keys }

  lemma NoRepeatsConcat(a: seq<string>, b: seq<string>)
    requires NoRepeats(a) && NoRepeats(b) && AsSet(a) !! AsSet(b)
    ensures NoRepeats(a + b) && AsSet(a + b) == AsSet(a) + AsSet(b)
  {
    forall i, j | 0 <= i < j < |a + b| ensures (a + b)[i] != (a + b)[j] {
      if i < |a| <= j { assert (a + b)[i] in AsSet(a) && (a + b)[j] in AsSet(b); }
    }
  }

  lemma {:induction false} NewCallsAreNew(known: set<string>, calls: seq<Call>)
    ensures NoRepeats(Keys(NewCalls(known, calls))) && AsSet(Keys(NewCalls(known, calls))) == KeysOf(calls) - known
  {
    if calls != [] {
      var init, c := calls[..|calls| - 1], calls[|calls| - 1];
      NewCallsAreNew(known, init);
      assert KeysOf(calls) == KeysOf(init) + {c.Key()} by { assert calls == init + [c]; }
      if c.Key() !in known + KeysOf(init) {
        assert Keys(NewCalls(known, calls)) == Keys(NewCalls(known, init)) + [c.Key()];
        NoRepeatsConcat(Keys(NewCalls(known, init)), [c.Key()]);
      } else {
        assert NewCalls(known, calls) == NewCalls(known, init);
      }
    }
  }

  /** The keys sent so far are the keys remembered, each sent once. */
  ghost predicate KeysOnce(s: State, keys: seq<string>, id: string) {
    NoRepeats(keys) && AsSet(keys) == KnownCalls(s, id)
  }

  lemma RememberKeys(s: State, m: Message, id: string)
    requires m.Ai? && id != ""
    ensures KnownCalls(Remember(s, m), id) == if m.id == id then KnownCalls(s, id) + KeysOf(m.calls) else KnownCalls(s, id)
  {
    assert m.calls == [] ==> KeysOf(m.calls) == {};
  }

  lemma NewKeys(known: set<string>, calls: seq<Call>, sent: seq<string>)
    requires NoRepeats(sent) && AsSet(sent) == known
    ensures var keys := sent + Keys(NewCalls(known, calls)); NoRepeats(keys) && AsSet(keys) == known + KeysOf(calls)
  {
    NewCallsAreNew(known, calls);
    NoRepeatsConcat(sent, Keys(NewCalls(known, calls)));
  }

  lemma NothingMore(keys: seq<string>)
    ensures keys + [] == keys
  {}

  lemma AiKeys(s: State, m: Message, top: bool, sent: seq<string>, id: string)
    requires id != "" && KeysOnce(s, sent, id) && m.Ai? && !Skipped(s, m)
    ensures KeysOnce(SnapshotStep(s, m, top).state, sent + KeysSent(SnapshotStep(s, m, top).events, id), id)
  {
    var known := KnownCalls(s, id);
    var seen := if m.id == "" then s else s.(seen := s.seen + {m.id});
    AccountKeeps(seen, m.id, m.usage, top);
    RememberKeys(Account(seen, m.id, m.usage, top), m, id);
    SentConcat(CallEvents(s, m), TextEvents(s, m), id);
    AiEventsSend(s, m, id);
    NewKeys(known, m.calls, sent);
    NothingMore(KeysSent(CallEvents(s, m), id));
    NothingMore(sent);
  }

  lemma MessageKeys(s: State, m: Message, top: bool, sent: seq<string>, id: string)
    requires id != "" && KeysOnce(s, sent, id)
    ensures KeysOnce(SnapshotStep(s, m, top).state, sent + KeysSent(SnapshotStep(s, m, top).events, id), id)
  {
    var out := SnapshotStep(s, m, top);
    if m.Ai? && !Skipped(s, m) {
      AiKeys(s, m, top, sent, id);
    } else {
      if out.events != [] { SentOne(out.events[0], id); }
      NothingMore(sent);
    }
  }

  lemma KeysAssociate(a: seq<string>, b: seq<string>, c: seq<string>)
    ensures (a + b) + c == a + (b + c)
  {}

  lemma {:induction false} SnapshotKeys(s: State, messages: seq<Message>, top: bool, sent: seq<string>, id: string)
    requires id != "" && KeysOnce(s, sent, id)
    ensures KeysOnce(SnapshotSteps(s, messages, top).state, sent + KeysSent(SnapshotSteps(s, messages, top).events, id), id)
  {
    if messages == [] {
      NothingMore(sent);
    } else {
      var init, m := messages[..|messages| - 1], messages[|messages| - 1];
      var before := SnapshotSteps(s, init, top);
      var last := SnapshotStep(before.state, m, top);
      SnapshotKeys(s, init, top, sent, id);
      MessageKeys(before.state, m, top, sent + KeysSent(before.events, id), id);
      SentConcat(before.events, last.events, id);
      KeysAssociate(sent, KeysSent(before.events, id), KeysSent(last.events, id));
    }
  }

  lemma ItemKeys(s: State, item: Item, sent: seq<string>, id: string)
    requires id != "" && KeysOnce(s, sent, id)
    ensures KeysOnce(ItemStep(s, item).state, sent + KeysSent(ItemStep(s, item).events, id), id)
  {
    var out := ItemStep(s, item);
    if item.Snapshot? {
      SnapshotKeys(s, item.messages, item.top, sent, id);
      SentConcat(SnapshotSteps(s, item.messages, item.top).events, [ValuesEvent(item.messages)], id);
      SentOne(ValuesEvent(item.messages), id);
      var keys := KeysSent(SnapshotSteps(s, item.messages, item.top).events, id);
      assert keys + [] == keys;
    } else {
      if out.events != [] { SentOne(out.events[0], id); }
      if item.Chunk? && item.message.Ai? { AccountKeeps(s, item.message.id, item.message.usage, item.top); }
      assert sent + [] == sent;
    }
  }

  /** Every call of an identified message is emitted once: no key twice, and every key of a
      message that a snapshot showed. */
  lemma {:induction false} CallsOnce(history: set<string>, items: seq<Item>, id: string)
    requires id != ""
    ensures KeysOnce(Run(Seeded(history), items).state, KeysSent(Run(Seeded(history), items).events, id), id)
  {
    if items != [] {
      var init, item := items[..|items| - 1], items[|items| - 1];
      var before := Run(Seeded(history), init);
      CallsOnce(history, init, id);
      ItemKeys(before.state, item, KeysSent(before.events, id), id);
      SentConcat(before.events, ItemStep(before.state, item).events, id);
    }
  }

  lemma CallRemembered(s: State, m: Message, top: bool, c: Call)
    requires m.Ai? && m.id != "" && c in m.calls && !Skipped(s, m)
    ensures c.Key() in KnownCalls(SnapshotStep(s, m, top).state, m.id)
  {
    assert c.Key() in KeysOf(m.calls);
  }

  lemma {:induction false} CallsStayKnown(s: State, messages: seq<Message>, top: bool, id: string)
    ensures KnownCalls(s, id) <= KnownCalls(SnapshotSteps(s, messages, top).state, id)
  {
    if messages != [] {
      var init, m := messages[..|messages| - 1], messages[|messages| - 1];
      CallsStayKnown(s, init, top, id);
      var t := SnapshotSteps(s, init, top).state;
      if m.Ai? && !Skipped(t, m) {
        var seen := if m.id == "" then t else t.(seen := t.seen + {m.id});
        AccountKeeps(seen, m.id, m.usage, top);
      }
    }
  }

  lemma CallsAround(s: State, before: seq<Message>, m: Message, after: seq<Message>, top: bool, c: Call)
    requires m.Ai? && m.id != "" && c in m.calls && !Skipped(SnapshotSteps(s, before, top).state, m)
    ensures c.Key() in KnownCalls(SnapshotSteps(s, before + [m] + after, top).state, m.id)
  {
    CallRemembered(SnapshotSteps(s, before, top).state, m, top, c);
    SnapshotSnoc(s, before, m, top);
    SnapshotConcat(s, before + [m], after, top);
    CallsStayKnown(SnapshotSteps(s, before + [m], top).state, after, top, m.id);
  }

  // ---- usage ----

  /** A message the client looked at, with the usage it carried. */
  datatype Observation = Observation(id: string, usage: Option<Usage>)

  function MessageObserved(s: State, m: Message): seq<Observation> {
    if m.Ai? && !Skipped(s, m) then [Observation(m.id, m.usage)] else []
  }

  function SnapshotObserved(s: State, messages: seq<Message>, top: bool): seq<Observation> {
    if messages == [] then [] else
    var init := messages[..|messages| - 1];
    SnapshotObserved(s, init, top) + MessageObserved(SnapshotSteps(s, init, top).state, messages[|messages| - 1])
  }

  function Observed(s: State, item: Item): seq<Observation> {
    match item
    case Chunk(m, _) => if m.Ai? then [Observation(m.id, m.usage)] else []
    case Snapshot(messages, top) => SnapshotObserved(s, messages, top)
    case _ => []
  }

  function AllObserved(s: State, items: seq<Item>): seq<Observation> {
    if items == [] then [] else
    var init := items[..|items| - 1];
    AllObserved(s, init) + Observed(Run(s, init).state, items[|items| - 1])
  }

  predicate HasUsage(obs: seq<Observation>, id: string) { exists o :: o in obs && o.id == id && o.usage.Some? }

  /** The sum of the first usage of every identified message and of every unidentified one. */
  function FirstUsages(obs: seq<Observation>): Usage {
    if obs == [] then NO_USAGE else
    var init, o := obs[..|obs| - 1], obs[|obs| - 1];
    if o.usage.Some? && (o.id == "" || !HasUsage(init, o.id)) then Plus(FirstUsages(init), o.usage.value)
    else FirstUsages(init)
  }

  ghost predicate Accounted(s: State, obs: seq<Observation>) {
    && s.usage == FirstUsages(obs)
    && forall id :: id in s.counted <==> id != "" && HasUsage(obs, id)
  }

  lemma AccountOne(s: State, obs: seq<Observation>, id: string, usage: Option<Usage>, top: bool)
    requires Accounted(s, obs)
    ensures Accounted(Account(s, id, usage, top), obs + [Observation(id, usage)])
  {
    var o := Observation(id, usage);
    var all := obs + [o];
    assert all[..|obs|] == obs;
    forall x ensures HasUsage(all, x) <==> HasUsage(obs, x) || (x == id && usage.Some?) {
      if HasUsage(obs, x) { var p :| p in obs && p.id == x && p.usage.Some?; assert p in all; }
      if x == id && usage.Some? { assert o in all; }
    }
  }

  lemma AccountsFor(s: State, t: State, obs: seq<Observation>)
    requires Accounted(s, obs) && t.usage == s.usage && t.counted == s.counted
    ensures Accounted(t, obs + [])
  {
    assert obs + [] == obs;
  }

  lemma MessageAccounted(s: State, m: Message, top: bool, obs: seq<Observation>)
    requires Accounted(s, obs)
    ensures Accounted(SnapshotStep(s, m, top).state, obs + MessageObserved(s, m))
  {
    var seen := if m.id == "" then s else s.(seen := s.seen + {m.id});
    if m.Ai? && !Skipped(s, m) {
      AccountOne(seen, obs, m.id, m.usage, top);
    } else {
      AccountsFor(s, SnapshotStep(s, m, top).state, obs);
    }
  }

  lemma {:induction false} SnapshotAccounted(s: State, messages: seq<Message>, top: bool, obs: seq<Observation>)
    requires Accounted(s, obs)
    ensures Accounted(SnapshotSteps(s, messages, top).state, obs + SnapshotObserved(s, messages, top))
  {
    if messages == [] {
      AccountsFor(s, s, obs);
    } else {
      var init, m := messages[..|messages| - 1], messages[|messages| - 1];
      var t := SnapshotSteps(s, init, top).state;
      SnapshotAccounted(s, init, top, obs);
      MessageAccounted(t, m, top, obs + SnapshotObserved(s, init, top));
      assert obs + SnapshotObserved(s, init, top) + MessageObserved(t, m) == obs + SnapshotObserved(s, messages, top);
    }
  }

  lemma ItemAccounted(s: State, item: Item, obs: seq<Observation>)
    requires Accounted(s, obs)
    ensures Accounted(ItemStep(s, item).state, obs + Observed(s, item))
  {
    match item
    case Chunk(m, top) =>
      if m.Ai? { AccountOne(s, obs, m.id, m.usage, top); } else { AccountsFor(s, ItemStep(s, item).state, obs); }
    case Snapshot(messages, top) => SnapshotAccounted(s, messages, top, obs);
    case _ => AccountsFor(s, s, obs);
  }

  /** The usage a run reports at its end counts each identified message once. */
  lemma {:induction false} UsageOnce(history: set<string>, items: seq<Item>)
    ensures Accounted(Run(Seeded(history), items).state, AllObserved(Seeded(history), items))
  {
    var s := Seeded(history);
    if items != [] {
      var init := items[..|items| - 1];
      UsageOnce(history, init);
      ItemAccounted(Run(s, init).state, items[|items| - 1], AllObserved(s, init));
    }
  }

  // ---- messages of the history ----

  /** A chunk that shows something of message `id`. */
  predicate Streams(item: Item, id: string) {
    item.Chunk? && item.message.id == id &&
    match item.message
    case Ai(_, text, reasoning, _, _, _) => text != "" || reasoning != ""
    case Tool(_, _, _) => true
    case Other(_) => false
  }

  predicate Silent(s: State, id: string) { id in s.seen && id !in s.text }

  predicate NothingAbout(events: seq<StreamEvent>, id: string) { forall e :: e in events ==> !About(e, id) }

  lemma MessageIsSilent(s: State, m: Message, top: bool, id: string)
    requires id != "" && Silent(s, id)
    ensures Silent(SnapshotStep(s, m, top).state, id) && NothingAbout(SnapshotStep(s, m, top).events, id)
  {
    if m.Ai? && !Skipped(s, m) {
      var seen := if m.id == "" then s else s.(seen := s.seen + {m.id});
      AccountKeeps(seen, m.id, m.usage, top);
    }
  }

  lemma {:induction false} SnapshotIsSilent(s: State, messages: seq<Message>, top: bool, id: string)
    requires id != "" && Silent(s, id)
    ensures Silent(SnapshotSteps(s, messages, top).state, id) && NothingAbout(SnapshotSteps(s, messages, top).events, id)
  {
    if messages != [] {
      var init, m := messages[..|messages| - 1], messages[|messages| - 1];
      SnapshotIsSilent(s, init, top, id);
      MessageIsSilent(SnapshotSteps(s, init, top).state, m, top, id);
    }
  }

  lemma ItemIsSilent(s: State, item: Item, id: string)
    requires id != "" && Silent(s, id) && !Streams(item, id)
    ensures Silent(ItemStep(s, item).state, id) && NothingAbout(ItemStep(s, item).events, id)
  {
    if item.Snapshot? { SnapshotIsSilent(s, item.messages, item.top, id); }
  }

  /** A message of the history is mentioned by the run if and only if the run streams it anew. */
  lemma {:induction false} HistoryIsNotReplayed(history: set<string>, items: seq<Item>, id: string)
    requires id in history && id != ""
    ensures NothingAbout(Run(Seeded(history), items).events, id) <==> forall k :: 0 <= k < |items| ==> !Streams(items[k], id)
    ensures NothingAbout(Run(Seeded(history), items).events, id) ==> Silent(Run(Seeded(history), items).state, id)
  {
    if items != [] {
      var n := |items| - 1;
      var init, item := items[..n], items[n];
      var before := Run(Seeded(history), init);
      var events := ItemStep(before.state, item).events;
      HistoryIsNotReplayed(history, init, id);
      if !NothingAbout(before.events, id) {
        var e :| e in before.events && About(e, id);
        assert e in before.events + events;
        var k :| 0 <= k < n && Streams(init[k], id);
        assert Streams(items[k], id);
      } else if Streams(item, id) {
        assert About(events[0], id) && events[0] in before.events + events;
      } else {
        ItemIsSilent(before.state, item, id);
        forall k | 0 <= k < |items| ensures !Streams(items[k], id) { assert k < n ==> items[k] == init[k]; }
      }
    }
  }
}
