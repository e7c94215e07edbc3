/** What an AG-UI client knows of the whole state: the snapshots of a connection, of which
    `event_generator` leaves out those with the same identifiers as the one before
    (app/routers/chat.py). */
module AguiSnapshots {
  import opened Text
  import opened AguiEvents
  import opened AguiRun
  import T = AguiTranslator
  import N = AguiNotes

  /** The messages of the values entries, in order. */
  function States(entries: seq<Bridged>): seq<seq<Shown>> {
    if entries == [] then [] else
    var e := entries[|entries| - 1].entry;
    States(entries[..|entries| - 1]) + if e.Values? && e.messages.Some? then [e.messages.value] else []
  }

  /** The state a client shows: the last snapshot it received. */
  function ClientState(es: seq<Event>): Option<seq<Shown>> {
    if es == [] then None else
    var e := es[|es| - 1];
    if e.Snapshot? then Some(e.messages) else ClientState(es[..|es| - 1])
  }

  /** Where the last run of states with one signature begins. */
  function RunStart(states: seq<seq<Shown>>): (k: nat)
    requires states != []
    ensures k < |states| && forall i :: k <= i < |states| ==> T.Signature(states[i]) == T.Signature(states[|states| - 1])
    ensures k > 0 ==> T.Signature(states[k - 1]) != T.Signature(states[|states| - 1])
  {
    var n := |states| - 1;
    if n > 0 && T.Signature(states[n - 1]) == T.Signature(states[n]) then RunStart(states[..n]) else n
  }

  lemma {:induction false} ClientConcat(a: seq<Event>, b: seq<Event>)
    ensures ClientState(a + b) == if ClientState(b) == None then ClientState(a) else ClientState(b)
  {
    if b == [] {
      assert a + b == a;
    } else {
      assert (a + b)[..|a + b| - 1] == a + b[..|b| - 1];
      if !b[|b| - 1].Snapshot? { ClientConcat(a, b[..|b| - 1]); }
    }
  }

  lemma {:induction false} OnlyNotesMatter(es: seq<Event>)
    ensures ClientState(NotesOf(es)) == ClientState(es)
  {
    if es != [] {
      var init, e := es[..|es| - 1], es[|es| - 1];
      OnlyNotesMatter(init);
      if IsNote(e) {
        assert NotesOf(es)[..|NotesOf(init)|] == NotesOf(init);
      } else {
        assert NotesOf(es) == NotesOf(init);
      }
    }
  }

  lemma {:induction false} LastSignature(entries: seq<Bridged>)
    ensures var states := States(entries);
            RunSnapshot(entries) == if states == [] then None else Some(T.Signature(states[|states| - 1]))
  {
    if entries != [] { LastSignature(entries[..|entries| - 1]); }
  }

  lemma {:induction false} NoState(es: seq<Event>)
    requires forall k :: 0 <= k < |es| ==> !es[k].Snapshot?
    ensures ClientState(es) == None
  {
    if es != [] { NoState(es[..|es| - 1]); }
  }

  /** The notes of an entry, less a repeated signature, show its state if that is new. */
  lemma EntryState(last: Option<string>, e: T.Entry)
    ensures ClientState(T.Deduplicated(last, N.EntryNotes(e))) ==
              if e.Values? && e.messages.Some? && last != Some(T.Signature(e.messages.value)) then e.messages else None
  {
    if e.Values? && e.messages.Some? {
      var rest := T.CustomIf(e.sources, SourcesName) + T.CustomIf(e.artifacts, ArtifactsName);
      var snapshot := [Snapshot(e.messages.value)];
      assert N.EntryNotes(e) == snapshot + rest;
      NoState(rest);
      ClientConcat(snapshot, rest);
      assert (snapshot + rest)[1..] == rest;
    } else {
      N.NoSnapshotNoted(e);
      NoState(N.EntryNotes(e));
    }
  }

  lemma OneMoreState(states: seq<seq<Shown>>, state: seq<Shown>)
    ensures RunStart(states + [state]) ==
              if states != [] && T.Signature(states[|states| - 1]) == T.Signature(state) then RunStart(states) else |states|
  {
    assert (states + [state])[..|states|] == states;
  }

  lemma {:induction false} NotedState(entries: seq<Bridged>)
    ensures var states := States(entries);
            ClientState(RunNotes(entries)) == if states == [] then None else Some(states[RunStart(states)])
  {
    if entries != [] {
      var init, e := entries[..|entries| - 1], entries[|entries| - 1].entry;
      NotedState(init);
      LastSignature(init);
      EntryState(RunSnapshot(init), e);
      ClientConcat(RunNotes(init), T.Deduplicated(RunSnapshot(init), N.EntryNotes(e)));
      if e.Values? && e.messages.Some? {
        OneMoreState(States(init), e.messages.value);
      } else {
        assert States(entries) == States(init);
      }
    }
  }

  /** A client always shows the first of the latest states with one signature, so what it shows is
      the latest state if and only if nothing but the identifiers mattered since then. */
  lemma ClientShowsRunStart(entries: seq<Bridged>, out: seq<Event>)
    requires NotesOf(out) == RunNotes(entries)
    ensures var states := States(entries);
            if states == [] then ClientState(out) == None
            else ClientState(out) == Some(states[RunStart(states)])
                 && (ClientState(out) == Some(states[|states| - 1]) <==> states[RunStart(states)] == states[|states| - 1])
  {
    OnlyNotesMatter(out);
    NotedState(entries);
  }

  /** Of two states with one signature, a client is shown the first. */
  lemma SecondIsDropped(first: seq<Shown>, second: seq<Shown>) returns (entries: seq<Bridged>)
    requires T.Signature(first) == T.Signature(second)
    ensures States(entries) == [first, second] && ClientState(RunNotes(entries)) == Some(first)
  {
    var a, b := Bridged("1", T.Values(Some(first), None, None)), Bridged("2", T.Values(Some(second), None, None));
    entries := [a, b];
    assert entries[..1] == [a] && [a][..0] == [];
    assert States([a]) == [first] && States(entries) == [first, second] && [first, second][..1] == [first];
    NotedState(entries);
  }

  /** A message rewritten under its identifier is not shown. */
  lemma RewriteIsDropped() returns (entries: seq<Bridged>)
    ensures States(entries) == [[Shown("a", "x")], [Shown("a", "y")]]
    ensures ClientState(RunNotes(entries)) == Some([Shown("a", "x")])
  {
    entries := SecondIsDropped([Shown("a", "x")], [Shown("a", "y")]);
  }

  /** Nor is another list of identifiers that joins to the same text. */
  lemma JoinedIdsCollide() returns (entries: seq<Bridged>)
    ensures States(entries) == [[Shown("a,b", "x")], [Shown("a", "x"), Shown("b", "x")]]
    ensures ClientState(RunNotes(entries)) == Some([Shown("a,b", "x")])
  {
    var two := [Shown("a", "x"), Shown("b", "x")];
    assert two[..1] == [Shown("a", "x")] && T.Signature(two) == "a" + "," + "b" == "a,b";
    entries := SecondIsDropped([Shown("a,b", "x")], two);
  }
}
