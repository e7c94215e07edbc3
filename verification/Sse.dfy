/** Server-sent events: how `_agui_sse` (app/routers/chat.py) prints the frames of a connection,
    and how a client reads them back, at any point of the transmission. */
module Sse {
  import opened Text
  import opened AguiRun
  import E = AguiEvents
  import T = AguiTranslator

  // ---- the printer ----

  predicate IsBreak(c: char) { c == '\r' || c == '\n' }

  predicate OneLine(s: string) { forall i :: 0 <= i < |s| ==> !IsBreak(s[i]) }

  function WithoutBreaks(s: string): (r: string)
    ensures OneLine(r)
    ensures OneLine(s) ==> r == s
    ensures (forall i :: 0 <= i < |s| ==> s[i] != '\0') ==> forall i :: 0 <= i < |r| ==> r[i] != '\0'
  {
    if s == "" then "" else (if IsBreak(s[0]) then "" else [s[0]]) + WithoutBreaks(s[1..])
  }

  /** One frame: an event as JSON, with the identifier it may carry. */
  datatype Sent = Sent(json: string, id: Option<string>) {
    /** An empty identifier counts as none. */
    predicate HasId() { id.Some? && id.value != "" }
  }

  function Lines(s: Sent): seq<string> {
    (if s.HasId() then ["id: " + WithoutBreaks(s.id.value)] else []) + ["data: " + s.json]
  }

  function Joined(lines: seq<string>): string {
    if lines == [] then "" else if |lines| == 1 then lines[0] else lines[0] + "\n" + Joined(lines[1..])
  }

  /** `_agui_sse`. */
  function Print(s: Sent): string { Joined(Lines(s)) + "\n\n" }

  function PrintAll(frames: seq<Sent>): string {
    if frames == [] then "" else PrintAll(frames[..|frames| - 1]) + Print(frames[|frames| - 1])
  }

  // ---- the reader: section 9.2.6 of the WHATWG HTML standard, a character at a time ----

  datatype Message = Message(data: string, lastId: string)

  /** `idBuffer` and `data` are the buffers of that section, `lastId` the event source's last event ID. */
  datatype Reader = Reader(
    line: string, afterCr: bool, data: string, idBuffer: string, lastId: string, received: seq<Message>)

  const FRESH := Reader("", false, "", "", "", [])

  function Dispatch(r: Reader): Reader {
    var q := r.(lastId := r.idBuffer, data := "");
    if r.data == "" then q else
    var n := |r.data|;
    var data := if r.data[n - 1] == '\n' then r.data[..n - 1] else r.data;
    q.(received := r.received + [Message(data, r.idBuffer)])
  }

  function ColonAt(line: string): (k: nat)
    ensures k <= |line| && (k < |line| ==> line[k] == ':') && forall i :: 0 <= i < k ==> line[i] != ':'
  {
    if line == "" || line[0] == ':' then 0 else 1 + ColonAt(line[1..])
  }

  function Value(line: string): string {
    var k := ColonAt(line);
    if k == |line| then ""
    else if k + 1 < |line| && line[k + 1] == ' ' then line[k + 2..]
    else line[k + 1..]
  }

  function ProcessField(r: Reader, name: string, value: string): Reader {
    if name == "data" then r.(data := r.data + value + "\n")
    else if name == "id" then if '\0' in value then r else r.(idBuffer := value)
    else r
  }

  function ProcessLine(r: Reader, line: string): Reader {
    if line == "" then Dispatch(r)
    else if line[0] == ':' then r
    else ProcessField(r, line[..ColonAt(line)], Value(line))
  }

  function Read(r: Reader, c: char): Reader {
    if c == '\n' && r.afterCr then r.(afterCr := false)
    else if IsBreak(c) then ProcessLine(r.(line := "", afterCr := c == '\r'), r.line)
    else r.(line := r.line + [c], afterCr := false)
  }

  function ReadAll(r: Reader, s: string): Reader {
    if s == "" then r else Read(ReadAll(r, s[..|s| - 1]), s[|s| - 1])
  }

  lemma {:induction false} ReadConcat(r: Reader, s: string, t: string)
    ensures ReadAll(r, s + t) == ReadAll(ReadAll(r, s), t)
  {
    if t == "" {
      assert s + t == s;
    } else {
      assert (s + t)[..|s + t| - 1] == s + t[..|t| - 1];
      ReadConcat(r, s, t[..|t| - 1]);
    }
  }

  /** Text without line breaks only extends the current line. */
  lemma {:induction false} ReadText(r: Reader, s: string)
    requires OneLine(s) && !r.afterCr
    ensures ReadAll(r, s) == r.(line := r.line + s)
  {
    if s == "" {
      assert r.line + s == r.line;
    } else {
      ReadText(r, s[..|s| - 1]);
      assert r.line + s == (r.line + s[..|s| - 1]) + [s[|s| - 1]];
    }
  }

  lemma ReadLine(r: Reader, s: string)
    requires OneLine(s) && !r.afterCr && r.line == ""
    ensures ReadAll(r, s + "\n") == ProcessLine(r, s)
  {
    ReadConcat(r, s, "\n");
    ReadText(r, s);
    assert "" + s == s && r.(line := s).(line := "", afterCr := false) == r;
    assert "\n"[..0] == "";
  }

  // ---- reading back what was printed ----

  predicate Printable(s: Sent) {
    && OneLine(s.json) && (s.id.Some? ==> '\0' !in s.id.value)
  }

  function LastIdAfter(lastId: string, s: Sent): string {
    if s.HasId() then WithoutBreaks(s.id.value) else lastId
  }

  /** The reader after complete frames: ready for the next one. */
  predicate Ready(r: Reader) { r.line == "" && !r.afterCr && r.data == "" && r.idBuffer == r.lastId }

  function AfterFrame(r: Reader, s: Sent): Reader {
    var id := LastIdAfter(r.lastId, s);
    r.(idBuffer := id, lastId := id, received := r.received + [Message(s.json, id)])
  }

  lemma DataLine(r: Reader, json: string)
    ensures ProcessLine(r, "data: " + json) == r.(data := r.data + json + "\n")
  {
    var line := "data: " + json;
    assert line[0] == 'd' && line[1] == 'a' && line[2] == 't' && line[3] == 'a' && line[4] == ':' && line[5] == ' ';
    assert ColonAt(line) == 4;
    assert line[..4] == "data" && line[6..] == json;
  }

  lemma IdLine(r: Reader, id: string)
    requires '\0' !in id
    ensures ProcessLine(r, "id: " + id) == r.(idBuffer := id)
  {
    var line := "id: " + id;
    assert line[0] == 'i' && line[1] == 'd' && line[2] == ':' && line[3] == ' ';
    assert ColonAt(line) == 2;
    assert line[..2] == "id" && line[4..] == id;
  }

  function IdPart(s: Sent): string { if s.HasId() then "id: " + WithoutBreaks(s.id.value) + "\n" else "" }

  lemma PrintParts(s: Sent)
    ensures Print(s) == IdPart(s) + ((("data: " + s.json) + "\n") + "\n")
  {
    var data := "data: " + s.json;
    assert [data][0] == data && Joined([data]) == data && data + "\n\n" == (data + "\n") + "\n";
    if s.HasId() {
      var id := "id: " + WithoutBreaks(s.id.value);
      assert Lines(s) == [id, data] && Lines(s)[1..] == [data];
      assert (id + "\n" + data) + "\n\n" == (id + "\n") + (data + "\n\n");
    } else {
      assert Lines(s) == [data] && "" + (data + "\n\n") == data + "\n\n";
    }
  }

  lemma ReadIdPart(r: Reader, s: Sent)
    requires Ready(r) && Printable(s)
    ensures ReadAll(r, IdPart(s)) == r.(idBuffer := LastIdAfter(r.lastId, s))
  {
    if s.HasId() {
      var id := WithoutBreaks(s.id.value);
      ReadLine(r, "id: " + id);
      IdLine(r, id);
    }
  }

  lemma ReadBlank(r: Reader)
    requires r.line == "" && !r.afterCr
    ensures ReadAll(r, "\n") == Dispatch(r)
  {
    assert "\n"[..0] == "" && ReadAll(r, "\n") == Read(r, '\n') && r.(line := "", afterCr := false) == r;
  }

  lemma ReadDataLine(r: Reader, json: string)
    requires r.line == "" && !r.afterCr && r.data == "" && OneLine(json)
    ensures ReadAll(r, ("data: " + json) + "\n") == r.(data := json + "\n")
  {
    ReadLine(r, "data: " + json);
    DataLine(r, json);
    assert r.data + json == json;
  }

  lemma DispatchData(r: Reader, json: string)
    requires r.data == json + "\n"
    ensures Dispatch(r) == r.(lastId := r.idBuffer, data := "", received := r.received + [Message(json, r.idBuffer)])
  {
    assert r.data[..|json|] == json && r.data[|json|] == '\n';
  }

  lemma ReadData(r: Reader, json: string)
    requires r.line == "" && !r.afterCr && r.data == "" && OneLine(json)
    ensures ReadAll(r, (("data: " + json) + "\n") + "\n") ==
              r.(lastId := r.idBuffer, received := r.received + [Message(json, r.idBuffer)])
  {
    var q := r.(data := json + "\n");
    ReadConcat(r, ("data: " + json) + "\n", "\n");
    ReadDataLine(r, json);
    ReadBlank(q);
    DispatchData(q, json);
  }

  lemma ReadFrame(r: Reader, s: Sent)
    requires Ready(r) && Printable(s)
    ensures ReadAll(r, Print(s)) == AfterFrame(r, s) && Ready(AfterFrame(r, s))
  {
    PrintParts(s);
    ReadIdPart(r, s);
    ReadConcat(r, IdPart(s), (("data: " + s.json) + "\n") + "\n");
    ReadData(r.(idBuffer := LastIdAfter(r.lastId, s)), s.json);
  }

  lemma ReadPartOfData(r: Reader, json: string, m: nat)
    requires r.line == "" && !r.afterCr && r.data == "" && OneLine(json)
    requires m < |"data: " + json| + 2
    ensures var q := ReadAll(r, ((("data: " + json) + "\n") + "\n")[..m]); q.received == r.received && q.lastId == r.lastId
  {
    var data := "data: " + json;
    var text := (data + "\n") + "\n";
    if m <= |data| {
      assert text[..m] == data[..m];
      ReadText(r, data[..m]);
    } else {
      assert text[..m] == data + "\n";
      ReadDataLine(r, json);
    }
  }

  /** Until its last character has arrived, a frame changes nothing that was delivered. */
  lemma ReadPartOfFrame(r: Reader, s: Sent, n: nat)
    requires Ready(r) && Printable(s) && n < |Print(s)|
    ensures var q := ReadAll(r, Print(s)[..n]); q.received == r.received && q.lastId == r.lastId
  {
    var idPart, rest := IdPart(s), (("data: " + s.json) + "\n") + "\n";
    PrintParts(s);
    if n < |idPart| {
      var line := "id: " + WithoutBreaks(s.id.value);
      assert (idPart + rest)[..n] == line[..n];
      ReadText(r, line[..n]);
    } else {
      var m := n - |idPart|;
      assert (idPart + rest)[..n] == idPart + rest[..m];
      ReadIdPart(r, s);
      ReadConcat(r, idPart, rest[..m]);
      ReadPartOfData(r.(idBuffer := LastIdAfter(r.lastId, s)), s.json, m);
    }
  }

  // ---- the whole stream, and any prefix of it ----

  /** What a client has when exactly `frames` have arrived. */
  function LastId(frames: seq<Sent>): string {
    if frames == [] then "" else LastIdAfter(LastId(frames[..|frames| - 1]), frames[|frames| - 1])
  }

  function Received(frames: seq<Sent>): (r: seq<Message>)
    ensures |r| == |frames|
  {
    if frames == [] then [] else
    Received(frames[..|frames| - 1]) + [Message(frames[|frames| - 1].json, LastId(frames))]
  }

  function ReaderAfter(frames: seq<Sent>): Reader {
    Reader("", false, "", LastId(frames), LastId(frames), Received(frames))
  }

  lemma OneMoreFrame(frames: seq<Sent>, s: Sent)
    ensures PrintAll(frames + [s]) == PrintAll(frames) + Print(s)
    ensures ReaderAfter(frames + [s]) == AfterFrame(ReaderAfter(frames), s)
  {
    assert (frames + [s])[..|frames|] == frames;
  }

  lemma {:induction false} ReadStream(frames: seq<Sent>)
    requires forall s :: s in frames ==> Printable(s)
    ensures ReadAll(FRESH, PrintAll(frames)) == ReaderAfter(frames)
  {
    if frames != [] {
      var init, s := frames[..|frames| - 1], frames[|frames| - 1];
      ReadStream(init);
      assert init + [s] == frames;
      OneMoreFrame(init, s);
      ReadConcat(FRESH, PrintAll(init), Print(s));
      ReadFrame(ReaderAfter(init), s);
    }
  }

  lemma {:induction false} ReceivedPayloads(frames: seq<Sent>)
    ensures forall k :: 0 <= k < |frames| ==> Received(frames)[k].data == frames[k].json
  {
    if frames != [] { ReceivedPayloads(frames[..|frames| - 1]); }
  }

  /** Reading back the printed frames gives exactly their JSON payloads, in order. */
  lemma ReadBack(frames: seq<Sent>)
    requires forall s :: s in frames ==> Printable(s)
    ensures var received := ReadAll(FRESH, PrintAll(frames)).received;
            |received| == |frames| && forall k :: 0 <= k < |frames| ==> received[k].data == frames[k].json
  {
    ReadStream(frames);
    ReceivedPayloads(frames);
  }

  /** A client that has read `text` has received exactly `frames`. */
  predicate Got(text: string, frames: seq<Sent>) {
    ReadAll(FRESH, text).received == Received(frames) && ReadAll(FRESH, text).lastId == LastId(frames)
  }

  lemma ReadWithin(init: seq<Sent>, s: Sent, n: nat)
    requires (forall x :: x in init ==> Printable(x)) && Printable(s) && n < |Print(s)|
    ensures Got(PrintAll(init) + Print(s)[..n], init)
  {
    ReadStream(init);
    ReadConcat(FRESH, PrintAll(init), Print(s)[..n]);
    ReadPartOfFrame(ReaderAfter(init), s, n);
  }

  lemma CutWithin(a: string, b: string, n: nat)
    requires n <= |a| + |b|
    ensures (a + b)[..n] == if n < |a| then a[..n] else a + b[..n - |a|]
  {}

  /** Of the first `n` characters of the stream, the first `m` frames are whole, and they are what
      a client has received, together with the last identifier among them. */
  ghost predicate Whole(frames: seq<Sent>, n: nat, m: nat) {
    && n <= |PrintAll(frames)| && m <= |frames| && |PrintAll(frames[..m])| <= n
    && (m < |frames| ==> n < |PrintAll(frames[..m + 1])|)
    && Got(PrintAll(frames)[..n], frames[..m])
  }

  lemma WholeAll(frames: seq<Sent>)
    requires forall s :: s in frames ==> Printable(s)
    ensures Whole(frames, |PrintAll(frames)|, |frames|)
  {
    assert frames[..|frames|] == frames && PrintAll(frames)[..|PrintAll(frames)|] == PrintAll(frames);
    ReadStream(frames);
  }

  lemma AllOf(frames: seq<Sent>)
    ensures frames[..|frames|] == frames
  {}

  lemma WholeEarlier(init: seq<Sent>, s: Sent, n: nat, m: nat)
    requires Whole(init, n, m) && n < |PrintAll(init)|
    ensures Whole(init + [s], n, m)
  {
    OneMoreFrame(init, s);
    CutWithin(PrintAll(init), Print(s), n);
    AllOf(init);
    assert (init + [s])[..m] == init[..m] && (init + [s])[..m + 1] == init[..m + 1];
  }

  lemma FirstOf(init: seq<Sent>, s: Sent)
    ensures (init + [s])[..|init|] == init && (init + [s])[..|init| + 1] == init + [s]
  {}

  lemma WholeBefore(init: seq<Sent>, s: Sent, n: nat)
    requires (forall x :: x in init ==> Printable(x)) && Printable(s)
    requires |PrintAll(init)| <= n < |PrintAll(init)| + |Print(s)|
    ensures Whole(init + [s], n, |init|)
  {
    var frames, k := init + [s], |init|;
    OneMoreFrame(init, s);
    FirstOf(init, s);
    CutWithin(PrintAll(init), Print(s), n);
    ReadWithin(init, s, n - |PrintAll(init)|);
    assert |PrintAll(frames[..k])| <= n < |PrintAll(frames[..k + 1])|;
  }

  /** Wherever the transmission breaks off, the client has received some number of whole frames,
      and its last event ID is that of the last of them that carries one. */
  lemma {:induction false} ReadPrefix(frames: seq<Sent>, n: nat) returns (m: nat)
    requires n <= |PrintAll(frames)| && forall s :: s in frames ==> Printable(s)
    ensures Whole(frames, n, m)
  {
    m := |frames|;
    if n == |PrintAll(frames)| {
      WholeAll(frames);
    } else {
      var init, s := frames[..m - 1], frames[m - 1];
      assert init + [s] == frames;
      OneMoreFrame(init, s);
      if n < |PrintAll(init)| {
        m := ReadPrefix(init, n);
        WholeEarlier(init, s, n, m);
      } else {
        m := m - 1;
        WholeBefore(init, s, n);
      }
    }
  }

  // ---- resuming a run ----

  /** The frames of a connection on the wire, under some JSON serialization. */
  function OnWire(frames: seq<Frame>, json: E.Event -> string): seq<Sent> {
    seq(|frames|, i requires 0 <= i < |frames| => Sent(json(frames[i].event), frames[i].id))
  }

  function Connection(entries: seq<Bridged>, segments: seq<seq<E.Event>>, closing: seq<E.Event>): seq<Frame>
    requires |entries| == |segments|
  {
    Untagged([E.RunStarted]) + Frames(entries, segments) + Untagged(closing)
  }

  /** How many frames the connection sends up to and including entry `k`. */
  function Sends(entries: seq<Bridged>, segments: seq<seq<E.Event>>, k: nat): nat
    requires |entries| == |segments| && k < |entries|
  {
    1 + |Frames(entries[..k + 1], segments[..k + 1])|
  }

  /** An entry that was sent with its identifier. */
  predicate Marked(entries: seq<Bridged>, segments: seq<seq<E.Event>>, k: nat)
    requires |entries| == |segments| && k < |entries|
  {
    segments[k] != [] && !entries[k].entry.Heartbeat?
  }

  lemma {:induction false} FramesPrefix(entries: seq<Bridged>, segments: seq<seq<E.Event>>, n: nat)
    requires |entries| == |segments| && n <= |entries|
    ensures var init := Frames(entries[..n], segments[..n]);
            |init| <= |Frames(entries, segments)| && Frames(entries, segments)[..|init|] == init
    decreases |entries|
  {
    var last := |entries| - 1;
    if n == |entries| {
      assert entries[..n] == entries && segments[..n] == segments;
    } else {
      FramesPrefix(entries[..last], segments[..last], n);
      assert entries[..last][..n] == entries[..n] && segments[..last][..n] == segments[..n];
    }
  }

  /** Only the last frame of an entry carries an identifier, that of the entry. */
  lemma {:induction false} IdsEndEntries(entries: seq<Bridged>, segments: seq<seq<E.Event>>, i: nat) returns (k: nat)
    requires |entries| == |segments| && i < |Frames(entries, segments)| && Frames(entries, segments)[i].id.Some?
    ensures k < |entries| && Marked(entries, segments, k) && i + 2 == Sends(entries, segments, k)
    ensures Frames(entries, segments)[i].id == Some(entries[k].id)
  {
    var n := |entries| - 1;
    var init := Frames(entries[..n], segments[..n]);
    if i < |init| {
      k := IdsEndEntries(entries[..n], segments[..n], i);
      assert entries[..n][..k + 1] == entries[..k + 1] && segments[..n][..k + 1] == segments[..k + 1];
    } else {
      k := n;
      assert entries[..k + 1] == entries && segments[..k + 1] == segments;
    }
  }

  lemma TagEnds(b: Bridged, evs: seq<E.Event>)
    requires evs != [] && !b.entry.Heartbeat?
    ensures Tag(b, evs) != [] && Tag(b, evs)[|Tag(b, evs)| - 1].id == Some(b.id)
  {}

  lemma LastOfPart(all: seq<Frame>, some: seq<Frame>, before: seq<Frame>, part: seq<Frame>)
    requires some == before + part && |some| <= |all| && all[..|some|] == some && part != []
    ensures all[|some| - 1] == part[|part| - 1]
  {
    assert some[|some| - 1] == part[|part| - 1] && all[..|some|][|some| - 1] == all[|some| - 1];
  }

  lemma FramesTo(entries: seq<Bridged>, segments: seq<seq<E.Event>>, k: nat)
    requires |entries| == |segments| && k < |entries|
    ensures Frames(entries[..k + 1], segments[..k + 1]) == Frames(entries[..k], segments[..k]) + Tag(entries[k], segments[k])
  {
    assert entries[..k + 1][..k] == entries[..k] && segments[..k + 1][..k] == segments[..k];
  }

  /** The frames up to a marked entry: those before it and its own, the last with its identifier. */
  lemma MarkedPart(entries: seq<Bridged>, segments: seq<seq<E.Event>>, k: nat)
    returns (some: seq<Frame>, before: seq<Frame>, part: seq<Frame>)
    requires |entries| == |segments| && k < |entries| && Marked(entries, segments, k)
    ensures some == Frames(entries[..k + 1], segments[..k + 1]) && some == before + part
    ensures part != [] && part[|part| - 1].id == Some(entries[k].id)
  {
    some := Frames(entries[..k + 1], segments[..k + 1]);
    before, part := Frames(entries[..k], segments[..k]), Tag(entries[k], segments[k]);
    FramesTo(entries, segments, k);
    TagEnds(entries[k], segments[k]);
  }

  lemma MarkedCarriesId(entries: seq<Bridged>, segments: seq<seq<E.Event>>, k: nat)
    requires |entries| == |segments| && k < |entries| && Marked(entries, segments, k)
    ensures var n := Sends(entries, segments, k);
            2 <= n <= 1 + |Frames(entries, segments)| && Frames(entries, segments)[n - 2].id == Some(entries[k].id)
  {
    FramesPrefix(entries, segments, k + 1);
    var some, before, part := MarkedPart(entries, segments, k);
    LastOfPart(Frames(entries, segments), some, before, part);
  }

  /** The last event ID is that of the last frame with one. */
  lemma {:induction false} LastIdIsLast(frames: seq<Sent>) returns (i: int)
    ensures -1 <= i < |frames| && forall j :: i < j < |frames| ==> !frames[j].HasId()
    ensures if i < 0 then LastId(frames) == "" else frames[i].HasId() && LastId(frames) == WithoutBreaks(frames[i].id.value)
  {
    if frames == [] {
      i := -1;
    } else if frames[|frames| - 1].HasId() {
      i := |frames| - 1;
    } else {
      i := LastIdIsLast(frames[..|frames| - 1]);
    }
  }

  /** Identifiers a client can tell apart. */
  ghost predicate Distinct(entries: seq<Bridged>) {
    && (forall k :: 0 <= k < |entries| ==> WithoutBreaks(entries[k].id) != "")
    && forall j, k :: 0 <= j < k < |entries| ==> WithoutBreaks(entries[j].id) != WithoutBreaks(entries[k].id)
  }

  lemma SendsGrow(entries: seq<Bridged>, segments: seq<seq<E.Event>>, j: nat, k: nat)
    requires |entries| == |segments| && j < k < |entries|
    ensures Sends(entries, segments, j) + |segments[k]| <= Sends(entries, segments, k)
  {
    assert entries[..k + 1][..k] == entries[..k] && segments[..k + 1][..k] == segments[..k];
    FramesPrefix(entries[..k], segments[..k], j + 1);
    assert entries[..k][..j + 1] == entries[..j + 1] && segments[..k][..j + 1] == segments[..j + 1];
  }

  lemma MarkedInOrder(entries: seq<Bridged>, segments: seq<seq<E.Event>>)
    requires |entries| == |segments|
    ensures forall j, k :: 0 <= j < k < |entries| && Marked(entries, segments, k) ==>
              Sends(entries, segments, j) < Sends(entries, segments, k)
  {
    forall j, k | 0 <= j < k < |entries| && Marked(entries, segments, k) ensures Sends(entries, segments, j) < Sends(entries, segments, k) {
      SendsGrow(entries, segments, j, k);
    }
  }

  lemma LastMarked(entries: seq<Bridged>, segments: seq<seq<E.Event>>, m: nat, i: nat, e: nat, k: nat)
    requires |entries| == |segments| && e < |entries| && k < |entries| && Marked(entries, segments, e) && Marked(entries, segments, k)
    requires Sends(entries, segments, e) == i + 1 <= m
    requires forall j :: 0 <= j < |entries| && Marked(entries, segments, j) && Sends(entries, segments, j) <= m ==>
               Sends(entries, segments, j) <= i + 1
    ensures e == k <==>
              && Sends(entries, segments, k) <= m
              && forall j :: k < j < |entries| && Marked(entries, segments, j) ==> m < Sends(entries, segments, j)
  {
    MarkedInOrder(entries, segments);
  }

  /** The frame that ends a marked entry carries its identifier, so no later one is the last with an identifier. */
  lemma LastMark(entries: seq<Bridged>, segments: seq<seq<E.Event>>, closing: seq<E.Event>, json: E.Event -> string,
                 m: nat, i: int, j: nat)
    requires |entries| == |segments| && j < |entries| && Distinct(entries) && Marked(entries, segments, j)
    requires m <= |Connection(entries, segments, closing)|
    requires -1 <= i < m && forall x :: i < x < m ==> !OnWire(Connection(entries, segments, closing), json)[..m][x].HasId()
    ensures Sends(entries, segments, j) <= m ==> Sends(entries, segments, j) <= i + 1
  {
    var all, n := OnWire(Connection(entries, segments, closing), json), Sends(entries, segments, j);
    MarkedCarriesId(entries, segments, j);
    assert all[n - 1].id == Frames(entries, segments)[n - 2].id;
    assert n <= m ==> all[..m][n - 1] == all[n - 1];
  }

  lemma OnWireIds(entries: seq<Bridged>, segments: seq<seq<E.Event>>, closing: seq<E.Event>, json: E.Event -> string, i: nat)
    returns (e: nat)
    requires |entries| == |segments| && i < |Connection(entries, segments, closing)|
    requires OnWire(Connection(entries, segments, closing), json)[i].HasId()
    ensures e < |entries| && Marked(entries, segments, e) && i + 1 == Sends(entries, segments, e)
    ensures OnWire(Connection(entries, segments, closing), json)[i].id == Some(entries[e].id)
  {
    assert 1 <= i <= |Frames(entries, segments)|;
    assert Connection(entries, segments, closing)[i] == Frames(entries, segments)[i - 1];
    e := IdsEndEntries(entries, segments, i - 1);
  }

  /** Resuming loses nothing and repeats nothing that was marked: a client that received `m` frames
      holds the identifier of entry `k` exactly when it has every frame of entry `k` but not
      every frame of any later marked entry. */
  lemma ResumePoint(
    entries: seq<Bridged>, segments: seq<seq<E.Event>>, closing: seq<E.Event>, json: E.Event -> string, m: nat, k: nat)
    requires |entries| == |segments| && k < |entries| && Distinct(entries) && Marked(entries, segments, k)
    requires m <= |Connection(entries, segments, closing)|
    ensures LastId(OnWire(Connection(entries, segments, closing), json)[..m]) == WithoutBreaks(entries[k].id) <==>
              && Sends(entries, segments, k) <= m
              && forall j :: k < j < |entries| && Marked(entries, segments, j) ==> m < Sends(entries, segments, j)
  {
    var all := OnWire(Connection(entries, segments, closing), json);
    var i := LastIdIsLast(all[..m]);
    forall j | 0 <= j < |entries| && Marked(entries, segments, j)
      ensures Sends(entries, segments, j) <= m ==> Sends(entries, segments, j) <= i + 1 {
      LastMark(entries, segments, closing, json, m, i, j);
    }
    if i >= 0 {
      var e := OnWireIds(entries, segments, closing, json, i);
      assert LastId(all[..m]) == WithoutBreaks(entries[e].id);
      LastMarked(entries, segments, m, i, e, k);
    }
  }

  // ---- what a client has after resuming ----

  lemma {:induction false} FramesText(entries: seq<Bridged>, segments: seq<seq<E.Event>>, id: string)
    requires |entries| == |segments| && TextsFit(entries, segments)
    ensures E.TextOf(Events(Frames(entries, segments)), id) == RunText(entries, id)
  {
    if entries == [] {
      assert Events([]) == [];
    } else {
      var n := |entries| - 1;
      FramesText(entries[..n], segments[..n], id);
      EventsOfTags(Frames(entries[..n], segments[..n]), entries[n], segments[n]);
      E.TextConcat(Events(Frames(entries[..n], segments[..n])), segments[n], id);
    }
  }

  lemma {:induction false} RunTextSplits(entries: seq<Bridged>, k: nat, id: string)
    requires k <= |entries|
    ensures RunText(entries, id) == RunText(entries[..k], id) + RunText(entries[k..], id)
    decreases |entries|
  {
    var n := |entries| - 1;
    if k == |entries| {
      assert entries[..k] == entries;
      AddsNothing(RunText(entries, id));
    } else {
      var rest := entries[k..];
      RunTextSplits(entries[..n], k, id);
      assert entries[..n][..k] == entries[..k] && entries[..n][k..] == rest[..|rest| - 1] && rest[|rest| - 1] == entries[n];
      Associates(RunText(entries[..k], id), RunText(rest[..|rest| - 1], id), T.EntryText(entries[n].entry, id));
    }
  }

  lemma StartText(frames: seq<Frame>, id: string)
    ensures E.TextOf(Events(Untagged([E.RunStarted]) + frames), id) == E.TextOf(Events(frames), id)
  {
    var start := Events(Untagged([E.RunStarted]));
    assert start == [E.RunStarted] && start[..0] == [];
    assert Events(Untagged([E.RunStarted]) + frames) == start + Events(frames);
    E.TextConcat(start, Events(frames), id);
    AddsNothing(E.TextOf(Events(frames), id));
  }

  lemma KeptFrames(start: seq<Frame>, body: seq<Frame>, closing: seq<Frame>, kept: seq<Frame>)
    requires |kept| <= |body| && body[..|kept|] == kept
    ensures (start + body + closing)[..|start| + |kept|] == start + kept
  {}

  lemma KeptPrefix(entries: seq<Bridged>, segments: seq<seq<E.Event>>, closing: seq<E.Event>, k: nat)
    requires |entries| == |segments| && k < |entries|
    ensures Sends(entries, segments, k) <= |Connection(entries, segments, closing)|
    ensures Connection(entries, segments, closing)[..Sends(entries, segments, k)]
         == Untagged([E.RunStarted]) + Frames(entries[..k + 1], segments[..k + 1])
  {
    FramesPrefix(entries, segments, k + 1);
    KeptFrames(Untagged([E.RunStarted]), Frames(entries, segments), Untagged(closing), Frames(entries[..k + 1], segments[..k + 1]));
  }

  lemma TextsFitPrefix(entries: seq<Bridged>, segments: seq<seq<E.Event>>, n: nat)
    requires |entries| == |segments| && n <= |entries| && TextsFit(entries, segments)
    ensures TextsFit(entries[..n], segments[..n])
  {}

  lemma KeptText(entries: seq<Bridged>, segments: seq<seq<E.Event>>, k: nat, id: string)
    requires |entries| == |segments| && k < |entries| && TextsFit(entries, segments)
    ensures E.TextOf(Events(Untagged([E.RunStarted]) + Frames(entries[..k + 1], segments[..k + 1])), id) + RunText(entries[k + 1..], id)
         == RunText(entries, id)
  {
    TextsFitPrefix(entries, segments, k + 1);
    StartText(Frames(entries[..k + 1], segments[..k + 1]), id);
    FramesText(entries[..k + 1], segments[..k + 1], id);
    RunTextSplits(entries, k + 1, id);
  }

  /** A client that lost its connection while holding the identifier of entry `k`, keeps what came up
      to that identifier and reconnects with it, ends up with exactly the run's text. */
  lemma ResumedText(entries: seq<Bridged>, segments: seq<seq<E.Event>>, closing: seq<E.Event>, k: nat, resumed: seq<E.Event>, id: string)
    requires |entries| == |segments| && k < |entries| && TextsFit(entries, segments)
    requires Outcome(entries[k + 1..], resumed)
    ensures Sends(entries, segments, k) <= |Connection(entries, segments, closing)|
    ensures E.TextOf(Events(Connection(entries, segments, closing)[..Sends(entries, segments, k)]), id) + E.TextOf(resumed, id)
         == RunText(entries, id)
  {
    KeptPrefix(entries, segments, closing, k);
    KeptText(entries, segments, k, id);
    assert E.TextOf(resumed, id) == RunText(entries[k + 1..], id);
  }
}
