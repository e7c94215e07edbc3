/** Streaming a run into Feishu cards (app/channels/feishu.py, `_render_events_to_cards`): the event
    loop and one background worker per message, interleaved at their await points. */
module FeishuCards {
  import opened Text

  /** A worker that is about to look for content, waits for its card, or waits for a patch call. */
  datatype Worker = Idle | Ready | Resolving(content: string) | Patching(content: string)

  /** How the sending of a new card stands. */
  datatype Send = Sending | Answered(card: string) | Failed

  datatype Patch = Patch(card: string, content: string)

  /** What the dictionaries of `_render_events_to_cards` hold for one message. `text` are its joined
      chunks, "" is a missing pending or last patched content, `patches` are the calls made for it. */
  datatype Message = Message(
    text: string, card: Option<string>, send: Option<Send>, worker: Worker, pending: string, last: string, patches: seq<Patch>)

  const BLANK := Message("", None, None, Idle, "", "", [])

  // ---- the event loop, for one message ----

  /** `ensure_card_for_message`; `initial` is the initial card while it is free, or "". */
  function EnsureCard(m: Message, initial: string): Message {
    if m.card.Some? || m.send.Some? then m
    else if initial != "" then m.(card := Some(initial))
    else m.(send := Some(Sending))
  }

  /** `schedule_patch`. */
  function Schedule(m: Message, content: string): Message {
    m.(pending := content, worker := if m.worker == Idle then Ready else m.worker)
  }

  /** A text delta; `due` says whether it is time for a patch. */
  function Receive(m: Message, text: string, due: bool, initial: string): Message {
    var n := EnsureCard(m.(text := m.text + text), initial);
    if due then Schedule(n, n.text) else n
  }

  // ---- a worker, from one await to the next ----

  /** After a patch, made or skipped. */
  function Patched(m: Message, content: string): Message {
    m.(last := content, worker := if m.pending == content then Idle else Ready)
  }

  function PatchOn(m: Message, card: string, content: string): Message {
    if card == "" then Patched(m, content)
    else m.(patches := m.patches + [Patch(card, content)], worker := Patching(content))
  }

  /** `resolve_card_id` and what follows. */
  function Resolve(m: Message, content: string): Message {
    if m.card.Some? then PatchOn(m, m.card.value, content)
    else match m.send
      case None => PatchOn(m, "", content)
      case Some(Sending) => m.(worker := Resolving(content))
      case Some(Answered(card)) => PatchOn(m.(card := Some(card)), card, content)
      case Some(Failed) => PatchOn(m, "", content)
  }

  /** `run_patch_worker` until it waits again. */
  function Work(m: Message): Message {
    match m.worker
    case Idle => m
    case Ready => if m.pending == "" || m.pending == m.last then m.(worker := Idle) else Resolve(m, m.pending)
    case Resolving(content) => Resolve(m, content)
    case Patching(content) => Patched(m, content)
  }

  // ---- what every message keeps ----

  predicate StrictPrefix(a: string, b: string) { a <= b && a != b }

  predicate InFlight(m: Message) { m.worker.Resolving? || m.worker.Patching? }

  /** Last patched, in flight, pending and received text are prefixes of each other, and whatever
      is pending and not yet patched has a worker. */
  predicate Chain(m: Message, ended: bool) {
    && m.last <= m.pending <= m.text
    && (m.last != m.pending ==> m.worker != Idle)
    && (InFlight(m) ==> StrictPrefix(m.last, m.worker.content) && m.worker.content <= m.pending)
    && (ended ==> m.pending == m.text)
  }

  /** The card of a message, once it is known. */
  function CardOf(m: Message): string {
    if m.card.Some? then m.card.value else if m.send.Some? && m.send.value.Answered? then m.send.value.card else ""
  }

  function LastSent(patches: seq<Patch>): string { if patches == [] then "" else patches[|patches| - 1].content }

  /** What the message's card shows. */
  function Shown(m: Message): string {
    if m.worker.Patching? then m.worker.content else if CardOf(m) != "" then m.last else ""
  }

  /** The message has a card or asked for one, and patches go to it, each extending the one before. */
  ghost predicate Carded(m: Message) {
    && (m.text != "" ==> m.card.Some? || m.send.Some?)
    && (m.card == None && m.send != Some(Failed) ==> m.last == "")
    && (m.worker.Patching? ==> m.card.Some? && m.card.value != "")
    && LastSent(m.patches) == Shown(m)
    && (forall i :: 0 <= i < |m.patches| ==> m.patches[i].card == CardOf(m) != "")
    && forall i, j :: 0 <= i < j < |m.patches| ==> StrictPrefix(m.patches[i].content, m.patches[j].content)
  }

  ghost predicate Good(m: Message, ended: bool) { Chain(m, ended) && Carded(m) }

  lemma ReceiveKeeps(m: Message, text: string, due: bool, initial: string)
    requires Good(m, false) && text != ""
    ensures Good(Receive(m, text, due, initial), false)
    ensures CardOf(Receive(m, text, due, initial)) == if m.card == None && m.send == None then initial else CardOf(m)
  {
    assert m.text <= m.text + text;
  }

  lemma ScheduleKeeps(m: Message)
    requires Good(m, false)
    ensures Good(Schedule(m, m.text), true) && CardOf(Schedule(m, m.text)) == CardOf(m)
  {}

  lemma ExtendsAll(patches: seq<Patch>, card: string, content: string)
    requires forall i, j :: 0 <= i < j < |patches| ==> StrictPrefix(patches[i].content, patches[j].content)
    requires StrictPrefix(LastSent(patches), content)
    ensures var more := patches + [Patch(card, content)];
            forall i, j :: 0 <= i < j < |more| ==> StrictPrefix(more[i].content, more[j].content)
  {
    var more, n := patches + [Patch(card, content)], |patches|;
    forall i | 0 <= i < n ensures StrictPrefix(more[i].content, content) {
      if i < n - 1 { assert StrictPrefix(patches[i].content, patches[n - 1].content); }
    }
  }

  lemma ResolveKeeps(m: Message, content: string, ended: bool)
    requires Good(m, ended) && !m.worker.Patching? && StrictPrefix(m.last, content) && content <= m.pending
    ensures Good(Resolve(m, content), ended) && CardOf(Resolve(m, content)) == CardOf(m)
  {
    assert m.text != "";
    ExtendsAll(m.patches, CardOf(m), content);
  }

  lemma WorkKeeps(m: Message, ended: bool)
    requires Good(m, ended)
    ensures Good(Work(m), ended) && CardOf(Work(m)) == CardOf(m)
  {
    match m.worker
    case Idle =>
    case Ready => if m.pending != "" && m.pending != m.last { ResolveKeeps(m, m.pending, ended); }
    case Resolving(content) => ResolveKeeps(m, content, ended);
    case Patching(content) =>
  }

  lemma SentKeeps(m: Message, card: string, ended: bool)
    requires Good(m, ended) && m.card == None && m.send == Some(Sending)
    ensures Good(m.(send := Some(Answered(card))), ended) && CardOf(m.(send := Some(Answered(card)))) == card
    ensures Good(m.(send := Some(Failed)), ended) && CardOf(m.(send := Some(Failed))) == ""
  {}

  // ---- all interleavings ----

  /** `cards` are all cards there are, "" standing for none. */
  datatype World = World(messages: map<string, Message>, initialCard: string, initialBound: bool, ended: bool, cards: set<string>)

  function Start(initialCard: string): World { World(map[], initialCard, false, false, {"", initialCard}) }

  datatype Action =
    | Delta(id: string, text: string, due: bool)
    | End
    | CardSent(id: string, card: string)
    | CardFailed(id: string)
    | Proceed(id: string)

  function At(w: World, id: string): Message { if id in w.messages then w.messages[id] else BLANK }

  /** Deltas are not empty and name a message; a new card gets an identifier no card has, or none. */
  predicate Enabled(w: World, a: Action) {
    match a
    case Delta(id, text, _) => !w.ended && id != "" && text != ""
    case End => !w.ended
    case CardSent(id, card) => At(w, id).send == Some(Sending) && At(w, id).card == None && (card == "" || card !in w.cards)
    case CardFailed(id) => At(w, id).send == Some(Sending) && At(w, id).card == None
    case Proceed(id) => id in w.messages
  }

  function FreeCard(w: World): string { if w.initialBound then "" else w.initialCard }

  function TakesInitial(w: World, id: string): bool {
    At(w, id).card == None && At(w, id).send == None && FreeCard(w) != ""
  }

  function Apply(w: World, a: Action): World {
    match a
    case Delta(id, text, due) =>
      w.(messages := w.messages[id := Receive(At(w, id), text, due, FreeCard(w))],
         initialBound := w.initialBound || TakesInitial(w, id))
    case End => w.(ended := true, messages := map id | id in w.messages :: Schedule(w.messages[id], w.messages[id].text))
    case CardSent(id, card) =>
      w.(messages := w.messages[id := At(w, id).(send := Some(Answered(card)))], cards := w.cards + {card})
    case CardFailed(id) => w.(messages := w.messages[id := At(w, id).(send := Some(Failed))])
    case Proceed(id) => w.(messages := w.messages[id := Work(At(w, id))])
  }

  function After(w: World, actions: seq<Action>): World {
    if actions == [] then w else Apply(After(w, actions[..|actions| - 1]), actions[|actions| - 1])
  }

  ghost predicate Possible(w: World, actions: seq<Action>) {
    actions == [] ||
    var init := actions[..|actions| - 1];
    Possible(w, init) && Enabled(After(w, init), actions[|actions| - 1])
  }

  /** No two messages share a card, and the initial card is free until it is bound. */
  ghost predicate OneEach(w: World) {
    && {"", w.initialCard} <= w.cards
    && (forall id :: CardOf(At(w, id)) in w.cards)
    && (forall id :: CardOf(At(w, id)) == w.initialCard != "" ==> w.initialBound)
    && forall x, y :: CardOf(At(w, x)) == CardOf(At(w, y)) != "" ==> x == y
  }

  ghost predicate Inv(w: World) {
    (forall id :: id in w.messages ==> Good(w.messages[id], w.ended) && w.messages[id].text != "") && OneEach(w)
  }

  lemma BlankIsGood()
    ensures Good(BLANK, false) && CardOf(BLANK) == ""
  {}

  /** One message changed; its card is the old one, or none, or new. */
  lemma OneChanged(w: World, v: World, id: string, m: Message)
    requires Inv(w) && v.messages == w.messages[id := m] && Good(m, v.ended) && m.text != ""
    requires v.ended == w.ended && v.initialCard == w.initialCard && w.cards <= v.cards
    requires CardOf(m) in v.cards && (CardOf(m) == w.initialCard != "" ==> v.initialBound) && (w.initialBound ==> v.initialBound)
    requires CardOf(m) == CardOf(At(w, id)) || CardOf(m) == "" || forall x :: CardOf(At(w, x)) != CardOf(m)
    ensures Inv(v)
  {
    forall x ensures At(v, x) == if x == id then m else At(w, x) {}
  }

  lemma DeltaKeeps(w: World, id: string, text: string, due: bool)
    requires Inv(w) && Enabled(w, Delta(id, text, due))
    ensures Inv(Apply(w, Delta(id, text, due)))
  {
    var m := Receive(At(w, id), text, due, FreeCard(w));
    BlankIsGood();
    ReceiveKeeps(At(w, id), text, due, FreeCard(w));
    OneChanged(w, Apply(w, Delta(id, text, due)), id, m);
  }

  lemma EndKeeps(w: World)
    requires Inv(w) && !w.ended
    ensures Inv(Apply(w, End))
  {
    var v := Apply(w, End);
    forall id | id in v.messages ensures Good(v.messages[id], true) && v.messages[id].text != "" { ScheduleKeeps(w.messages[id]); }
    forall id ensures CardOf(At(v, id)) == CardOf(At(w, id)) {}
  }

  /** Every step keeps the invariant. */
  lemma StepKeeps(w: World, a: Action)
    requires Inv(w) && Enabled(w, a)
    ensures Inv(Apply(w, a))
  {
    match a
    case Delta(id, text, due) => DeltaKeeps(w, id, text, due);
    case End => EndKeeps(w);
    case CardSent(id, card) =>
      SentKeeps(At(w, id), card, w.ended);
      OneChanged(w, Apply(w, a), id, At(w, id).(send := Some(Answered(card))));
    case CardFailed(id) =>
      SentKeeps(At(w, id), "", w.ended);
      OneChanged(w, Apply(w, a), id, At(w, id).(send := Some(Failed)));
    case Proceed(id) =>
      WorkKeeps(At(w, id), w.ended);
      OneChanged(w, Apply(w, a), id, Work(At(w, id)));
  }

  lemma {:induction false} AlwaysKept(initialCard: string, actions: seq<Action>)
    requires Possible(Start(initialCard), actions)
    ensures Inv(After(Start(initialCard), actions))
  {
    if actions != [] {
      var init := actions[..|actions| - 1];
      AlwaysKept(initialCard, init);
      StepKeeps(After(Start(initialCard), init), actions[|actions| - 1]);
    }
  }

  /** All text of a message among the actions. */
  function Received(actions: seq<Action>, id: string): string {
    if actions == [] then "" else
    var a := actions[|actions| - 1];
    Received(actions[..|actions| - 1], id) + if a.Delta? && a.id == id then a.text else ""
  }

  lemma WorkKeepsText(m: Message)
    ensures Work(m).text == m.text
  {}

  lemma StepText(w: World, a: Action, id: string)
    ensures At(Apply(w, a), id).text == At(w, id).text + if a.Delta? && a.id == id then a.text else ""
  {
    AddsNothing(At(w, id).text);
    if a.Proceed? { WorkKeepsText(At(w, a.id)); }
  }

  lemma {:induction false} TextIsReceived(initialCard: string, actions: seq<Action>, id: string)
    ensures At(After(Start(initialCard), actions), id).text == Received(actions, id)
  {
    if actions != [] {
      var init, a := actions[..|actions| - 1], actions[|actions| - 1];
      TextIsReceived(initialCard, init, id);
      StepText(After(Start(initialCard), init), a, id);
    }
  }

  ghost predicate Drained(w: World) { w.ended && forall id :: id in w.messages ==> w.messages[id].worker == Idle }

  /** Once the stream has ended and the workers are done, every message's full text was the last
      thing sent to its card, unless no card could be sent; each card was patched for one message
      only, with ever longer prefixes of its text. */
  lemma FullTextShown(initialCard: string, actions: seq<Action>, id: string)
    requires Possible(Start(initialCard), actions) && Drained(After(Start(initialCard), actions))
    requires Received(actions, id) != ""
    ensures var m := At(After(Start(initialCard), actions), id);
            && m.last == Received(actions, id)
            && if CardOf(m) != "" then m.patches != [] && m.patches[|m.patches| - 1] == Patch(CardOf(m), Received(actions, id))
               else m.patches == [] && (m.send == Some(Failed) || m.card == Some(""))
  {
    AlwaysKept(initialCard, actions);
    TextIsReceived(initialCard, actions, id);
  }

  lemma PatchesAreText(m: Message, ended: bool)
    requires Good(m, ended)
    ensures forall i :: 0 <= i < |m.patches| ==> m.patches[i].card == CardOf(m) && m.patches[i].content <= m.text
  {
    var n := |m.patches| - 1;
    assert Shown(m) <= m.text;
    forall i | 0 <= i < |m.patches| ensures m.patches[i].content <= m.text {
      if i < n { assert StrictPrefix(m.patches[i].content, m.patches[n].content); }
    }
  }

  /** What holds of a message's card whenever one looks: the patches are ever longer prefixes of
      `text`, and a worker is there as long as some text is pending. */
  ghost predicate Growing(m: Message, text: string) {
    && (forall i :: 0 <= i < |m.patches| ==> m.patches[i].card == CardOf(m) && m.patches[i].content <= text)
    && (forall i, j :: 0 <= i < j < |m.patches| ==> StrictPrefix(m.patches[i].content, m.patches[j].content))
    && (m.pending != m.last ==> m.worker != Idle)
  }

  /** At every point of every run: a card belongs to one message, and what is sent to it only
      ever grows. */
  lemma CardsAreSeparate(initialCard: string, actions: seq<Action>, x: string, y: string)
    requires Possible(Start(initialCard), actions)
    ensures var w := After(Start(initialCard), actions);
            (CardOf(At(w, x)) == CardOf(At(w, y)) != "" ==> x == y) && Growing(At(w, x), Received(actions, x))
  {
    var w := After(Start(initialCard), actions);
    AlwaysKept(initialCard, actions);
    TextIsReceived(initialCard, actions, x);
    BlankIsGood();
    PatchesAreText(At(w, x), if x in w.messages then w.ended else false);
  }

  // ---- the drain ends ----

  /** How often a message's worker still runs, once the stream has ended and its card is decided. */
  function TurnsLeft(m: Message): nat {
    var behind := if m.pending == m.last then 1 else 3;
    match m.worker
    case Idle => 0
    case Ready => behind
    case Resolving(content) => if content == m.pending then 2 else 5
    case Patching(content) => if content == m.pending then 1 else 4
  }

  /** Every turn of a worker that is not waiting for its card brings it closer to its end. */
  lemma TurnsRunOut(m: Message)
    requires Good(m, true) && m.worker != Idle && (m.card.Some? || m.send != Some(Sending))
    ensures TurnsLeft(Work(m)) < TurnsLeft(m)
    ensures Work(m).card.Some? || Work(m).send != Some(Sending)
  {}
}
