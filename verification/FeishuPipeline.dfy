/** From a run's stream items to what a Feishu card finally shows. */
module FeishuPipeline {
  import opened Text
  import S = StreamClient
  import F = FeishuCards

  datatype Piece = Piece(id: string, text: string)

  /** The text deltas that the event loop picks out: identified and not empty. */
  function Pieces(events: seq<S.StreamEvent>): seq<Piece> {
    if events == [] then [] else
    var e := events[|events| - 1];
    Pieces(events[..|events| - 1]) + if e.TextEvent? && e.id != "" && e.text != "" then [Piece(e.id, e.text)] else []
  }

  /** The deltas among the steps of an interleaving. */
  function Taken(actions: seq<F.Action>): seq<Piece> {
    if actions == [] then [] else
    var a := actions[|actions| - 1];
    Taken(actions[..|actions| - 1]) + if a.Delta? then [Piece(a.id, a.text)] else []
  }

  function TextOf(pieces: seq<Piece>, id: string): string {
    if pieces == [] then "" else
    var p := pieces[|pieces| - 1];
    TextOf(pieces[..|pieces| - 1], id) + if p.id == id then p.text else ""
  }

  lemma OneMorePiece(pieces: seq<Piece>, p: Piece, id: string)
    ensures TextOf(pieces + [p], id) == TextOf(pieces, id) + if p.id == id then p.text else ""
    ensures pieces + [] == pieces
  {
    assert (pieces + [p])[..|pieces|] == pieces;
  }

  lemma {:induction false} PiecesHoldText(events: seq<S.StreamEvent>, id: string)
    requires id != ""
    ensures TextOf(Pieces(events), id) == S.TextSent(events, id)
  {
    if events != [] {
      var init, e := events[..|events| - 1], events[|events| - 1];
      PiecesHoldText(init, id);
      AddsNothing(S.TextSent(init, id));
      OneMorePiece(Pieces(init), if e.TextEvent? then Piece(e.id, e.text) else Piece("", ""), id);
    }
  }

  lemma {:induction false} TakenIsReceived(actions: seq<F.Action>, id: string)
    ensures TextOf(Taken(actions), id) == F.Received(actions, id)
  {
    if actions != [] {
      var init, a := actions[..|actions| - 1], actions[|actions| - 1];
      TakenIsReceived(init, id);
      AddsNothing(F.Received(init, id));
      OneMorePiece(Taken(init), if a.Delta? then Piece(a.id, a.text) else Piece("", ""), id);
    }
  }

  /** However the loop, the workers and the sending of cards interleave: when all is done, the card
      of a message shows exactly the text the run sent for it, unless no card could be sent. */
  lemma CardShowsRun(history: set<string>, items: seq<S.Item>, initialCard: string, actions: seq<F.Action>, id: string)
    requires F.Possible(F.Start(initialCard), actions) && F.Drained(F.After(F.Start(initialCard), actions))
    requires Taken(actions) == Pieces(S.Run(S.Seeded(history), items).events)
    requires id != "" && S.Sent(S.Run(S.Seeded(history), items).state.text, id) != ""
    ensures var m := F.At(F.After(F.Start(initialCard), actions), id);
            F.CardOf(m) != "" ==>
              && m.patches != []
              && m.patches[|m.patches| - 1] == F.Patch(F.CardOf(m), S.Sent(S.Run(S.Seeded(history), items).state.text, id))
  {
    S.DeltasAddUp(history, items, id);
    PiecesHoldText(S.Run(S.Seeded(history), items).events, id);
    TakenIsReceived(actions, id);
    F.FullTextShown(initialCard, actions, id);
  }
}
