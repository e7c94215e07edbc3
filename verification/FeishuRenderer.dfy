/** The dictionaries of `_render_events_to_cards` (app/channels/feishu.py) and the code that changes
    them between two awaits. */
module FeishuRenderer {
  import opened Text
  import opened FeishuCards

  function Restarted(w: Worker, again: bool): Worker { if again && w == Idle then Ready else w }

  function Joined(parts: seq<string>): string {
    if parts == [] then "" else Joined(parts[..|parts| - 1]) + parts[|parts| - 1]
  }

  /** All messages but those of `rest` have their full text pending. */
  predicate Queued(
    chunks: map<string, seq<string>>, rest: set<string>, before: map<string, string>, after: map<string, string>, id: string)
  {
    if id in chunks && id !in rest then id in after && after[id] == Joined(chunks[id])
    else (id in after <==> id in before) && (id in after ==> after[id] == before[id])
  }

  /** All messages but those of `rest` have a worker. */
  predicate Woken(
    chunks: map<string, seq<string>>, rest: set<string>, before: map<string, Worker>, after: map<string, Worker>, id: string)
  {
    if id in chunks && id !in rest then id in after && after[id] == Restarted(if id in before then before[id] else Idle, true)
    else (id in after <==> id in before) && (id in after ==> after[id] == before[id])
  }

  lemma OneQueued(
    chunks: map<string, seq<string>>, rest: set<string>, id: string,
    before: map<string, string>, now: map<string, string>, after: map<string, string>)
    requires id in rest && id in chunks && (forall x :: Queued(chunks, rest, before, now, x))
    requires after == now[id := Joined(chunks[id])]
    ensures forall x :: Queued(chunks, rest - {id}, before, after, x)
  {
    forall x ensures Queued(chunks, rest - {id}, before, after, x) { assert Queued(chunks, rest, before, now, x); }
  }

  lemma OneWoken(
    chunks: map<string, seq<string>>, rest: set<string>, id: string,
    before: map<string, Worker>, now: map<string, Worker>, after: map<string, Worker>)
    requires id in rest && id in chunks && (forall x :: Woken(chunks, rest, before, now, x))
    requires after == if id in now && now[id] != Idle then now else now[id := Ready]
    ensures forall x :: Woken(chunks, rest - {id}, before, after, x)
  {
    forall x ensures Woken(chunks, rest - {id}, before, after, x) { assert Woken(chunks, rest, before, now, x); }
    assert Woken(chunks, rest, before, now, id);
  }

  lemma JoinedMore(parts: seq<string>, part: string)
    ensures Joined(parts + [part]) == Joined(parts) + part
  {
    assert (parts + [part])[..|parts|] == parts;
  }

  class Renderer {
    const initialCard: string
    var chunks: map<string, seq<string>>
    var cardIds: map<string, string>
    var cardTasks: map<string, Send>
    var patchTasks: map<string, Worker>
    var pending: map<string, string>
    var lastPatched: map<string, string>
    var initialBound: bool
    ghost var calls: map<string, seq<Patch>>

    /** What the dictionaries say about a message. */
    ghost function MessageOf(id: string): Message reads this {
      Message(
        if id in chunks then Joined(chunks[id]) else "",
        if id in cardIds then Some(cardIds[id]) else None,
        if id in cardTasks then Some(cardTasks[id]) else None,
        if id in patchTasks then patchTasks[id] else Idle,
        if id in pending then pending[id] else "",
        if id in lastPatched then lastPatched[id] else "",
        if id in calls then calls[id] else [])
    }

    constructor (initialCard: string)
      ensures forall id :: MessageOf(id) == BLANK
      ensures this.initialCard == initialCard && !initialBound && chunks == map[]
    {
      this.initialCard := initialCard;
      chunks, cardIds, cardTasks, patchTasks := map[], map[], map[], map[];
      pending, lastPatched, initialBound, calls := map[], map[], false, map[];
    }

    ghost function Initial(): string reads this { if initialBound then "" else initialCard }

    /** `ensure_card_for_message`. */
    method EnsureCardForMessage(id: string)
      modifies this`cardIds, this`cardTasks, this`initialBound
      ensures MessageOf(id) == EnsureCard(old(MessageOf(id)), old(Initial()))
      ensures forall x :: x != id ==> MessageOf(x) == old(MessageOf(x))
      ensures initialBound == (old(initialBound)
                || (old(MessageOf(id)).card == None && old(MessageOf(id)).send == None && old(Initial()) != ""))
    {
      if id in cardIds || id in cardTasks { return; }
      if initialCard != "" && !initialBound {
        cardIds := cardIds[id := initialCard];
        initialBound := true;
        return;
      }
      cardTasks := cardTasks[id := Sending];
    }

    /** `schedule_patch`, as a change of one message. */
    method SchedulePatch(id: string, content: string)
      modifies this`pending, this`patchTasks
      ensures MessageOf(id) == Schedule(old(MessageOf(id)), content)
      ensures forall x :: x != id ==> MessageOf(x) == old(MessageOf(x))
    {
      Queue(id, content);
    }

    /** `schedule_patch`. */
    method Queue(id: string, content: string)
      modifies this`pending, this`patchTasks
      ensures pending == old(pending)[id := content]
      ensures patchTasks == if id in old(patchTasks) && old(patchTasks)[id] != Idle then old(patchTasks) else old(patchTasks)[id := Ready]
    {
      pending := pending[id := content];
      if id !in patchTasks || patchTasks[id] == Idle { patchTasks := patchTasks[id := Ready]; }
    }

    /** The loop body for one text delta. */
    method OnDelta(id: string, text: string, due: bool)
      modifies this
      ensures MessageOf(id) == Receive(old(MessageOf(id)), text, due, old(Initial()))
      ensures forall x :: x != id ==> MessageOf(x) == old(MessageOf(x))
    {
      ghost var m, initial := MessageOf(id), Initial();
      var parts := (if id in chunks then chunks[id] else []) + [text];
      JoinedMore(if id in chunks then chunks[id] else [], text);
      chunks := chunks[id := parts];
      assert MessageOf(id) == m.(text := m.text + text);
      EnsureCardForMessage(id);
      if due {
        var full := Join(parts);
        SchedulePatch(id, full);
      }
    }

    method Join(parts: seq<string>) returns (text: string)
      ensures text == Joined(parts)
    {
      text := "";
      for i := 0 to |parts|
        invariant text == Joined(parts[..i])
      {
        assert parts[..i + 1][..i] == parts[..i];
        text := text + parts[i];
      }
      assert parts[..|parts|] == parts;
    }

    /** When the stream has ended, every full text is scheduled. */
    method OnEnd()
      requires forall id :: id in chunks ==> Joined(chunks[id]) != ""
      modifies this`pending, this`patchTasks
      ensures forall id :: id in chunks ==> MessageOf(id) == Schedule(old(MessageOf(id)), old(MessageOf(id)).text)
      ensures forall id :: id !in chunks ==> MessageOf(id) == old(MessageOf(id))
    {
      ghost var pending0, tasks0 := pending, patchTasks;
      ScheduleAll();
      forall id ensures MessageOf(id).pending == if id in chunks then Joined(chunks[id]) else if id in pending0 then pending0[id] else "" {
        assert Queued(chunks, {}, pending0, pending, id);
      }
      forall id ensures MessageOf(id).worker == Restarted(if id in tasks0 then tasks0[id] else Idle, id in chunks) {
        assert Woken(chunks, {}, tasks0, patchTasks, id);
      }
    }

    method ScheduleAll()
      requires forall id :: id in chunks ==> Joined(chunks[id]) != ""
      modifies this`pending, this`patchTasks
      ensures forall id :: Queued(chunks, {}, old(pending), pending, id)
      ensures forall id :: Woken(chunks, {}, old(patchTasks), patchTasks, id)
    {
      ghost var pending0, tasks0 := pending, patchTasks;
      var rest := chunks.Keys;
      while rest != {}
        invariant rest <= chunks.Keys
        invariant forall id :: Queued(chunks, rest, pending0, pending, id)
        invariant forall id :: Woken(chunks, rest, tasks0, patchTasks, id)
        decreases rest
      {
        var id :| id in rest;
        var full := Join(chunks[id]);
        ghost var pending1, tasks1 := pending, patchTasks;
        if full != "" { Queue(id, full); }
        OneQueued(chunks, rest, id, pending0, pending1, pending);
        OneWoken(chunks, rest, id, tasks0, tasks1, patchTasks);
        rest := rest - {id};
      }
    }

    /** After a patch call has returned, or none was possible. */
    method AfterPatch(id: string, content: string)
      modifies this`lastPatched, this`patchTasks
      ensures MessageOf(id) == Patched(old(MessageOf(id)), content)
      ensures forall x :: x != id ==> MessageOf(x) == old(MessageOf(x))
    {
      lastPatched := lastPatched[id := content];
      var queued := if id in pending then pending[id] else "";
      patchTasks := patchTasks[id := if queued == content then Idle else Ready];
    }

    /** `patch_message_card`, until the worker waits. */
    method PatchMessageCard(id: string, content: string)
      modifies this
      ensures MessageOf(id) == Resolve(old(MessageOf(id)), content)
      ensures forall x :: x != id ==> MessageOf(x) == old(MessageOf(x))
    {
      var card := "";
      if id in cardIds {
        card := cardIds[id];
      } else if id in cardTasks {
        match cardTasks[id] {
          case Sending =>
            patchTasks := patchTasks[id := Resolving(content)];
            return;
          case Answered(answer) =>
            cardIds := cardIds[id := answer];
            card := answer;
          case Failed =>
        }
      }
      if card == "" {
        AfterPatch(id, content);
      } else {
        calls := calls[id := (if id in calls then calls[id] else []) + [Patch(card, content)]];
        patchTasks := patchTasks[id := Patching(content)];
      }
    }

    /** `run_patch_worker`, from one await to the next. */
    method RunPatchWorker(id: string)
      requires id in patchTasks
      modifies this
      ensures MessageOf(id) == Work(old(MessageOf(id)))
      ensures forall x :: x != id ==> MessageOf(x) == old(MessageOf(x))
    {
      match patchTasks[id] {
        case Idle =>
        case Ready =>
          var content := if id in pending then pending[id] else "";
          var last := if id in lastPatched then lastPatched[id] else "";
          if content == "" || content == last {
            patchTasks := patchTasks[id := Idle];
          } else {
            PatchMessageCard(id, content);
          }
        case Resolving(content) => PatchMessageCard(id, content);
        case Patching(content) => AfterPatch(id, content);
      }
    }
  }
}
