/** The admin interface's writer of `config.yaml`: compare and swap, and a compensating rollback
    when the memory settings it wrote cannot be loaded (app/routers/admin.py). */
module AdminConfig {
  import opened Text
  import opened Json

  type Data = map<string, Json>

  /** A configuration file: what it says, and how it is laid out (comments, spacing). A revision
      stands for the whole file it is a hash of. */
  datatype File = File(data: Data, layout: string)

  /** What the writer itself produces. */
  function Dumped(data: Data): File { File(data, "") }

  // ---- concurrent writers ----

  /** Writer `i` loads the file; or writes what it made of the file it loaded. */
  datatype Action = Load(i: nat) | Commit(i: nat)

  /** `log` are the writers whose commits succeeded, in order. */
  datatype World = World(file: File, loaded: map<nat, File>, log: seq<nat>)

  /** `edit` is what each writer makes of the data it loaded. The guard makes the comparison with
      the loaded revision and the replacement of the file one step. */
  function Apply(edit: (nat, Data) -> Data, w: World, a: Action): World {
    match a
    case Load(i) => w.(loaded := w.loaded[i := w.file])
    case Commit(i) =>
      if i in w.loaded && w.loaded[i] == w.file
      then w.(file := Dumped(edit(i, w.loaded[i].data)), log := w.log + [i]) else w
  }

  function After(edit: (nat, Data) -> Data, w: World, actions: seq<Action>): World {
    if actions == [] then w else Apply(edit, After(edit, w, actions[..|actions| - 1]), actions[|actions| - 1])
  }

  /** The writers `log` one after the other, each loading what the one before left. */
  function Serial(edit: (nat, Data) -> Data, file: File, log: seq<nat>): File {
    if log == [] then file else Dumped(edit(log[|log| - 1], Serial(edit, file, log[..|log| - 1]).data))
  }

  /** No update is lost: however loads and commits of any number of writers interleave, the file is
      what the successful writers would have made of it one after the other. */
  lemma {:induction false} NoLostUpdate(edit: (nat, Data) -> Data, file: File, actions: seq<Action>)
    ensures var w := After(edit, World(file, map[], []), actions);
            w.file == Serial(edit, file, w.log)
  {
    if actions != [] {
      var init, a := actions[..|actions| - 1], actions[|actions| - 1];
      var w := After(edit, World(file, map[], []), init);
      NoLostUpdate(edit, file, init);
      if a.Commit? { assert (w.log + [a.i])[..|w.log|] == w.log; }
    }
  }

  // ---- writers that do not use the guard ----

  /** A guarded writer compares and replaces in two steps, holding the guard in between. An
      unguarded one overwrites the file with what it made of the file it read, as a save of the
      portable configuration does once its comparison at the start has passed. A guarded writer
      that cannot write or replace the file abandons the guard. */
  datatype Move = Reads(i: nat) | Compares(i: nat) | Replaces(i: nat) | Abandons(i: nat) | Overwrites(i: nat)

  /** `holder` is the writer that holds the guard after its comparison. */
  datatype Desk = Desk(file: File, loaded: map<nat, File>, holder: Option<nat>, log: seq<nat>)

  predicate Possible(d: Desk, m: Move) {
    match m
    case Reads(i) => d.holder != Some(i)
    case Compares(i) => i in d.loaded && d.holder == None && d.loaded[i] == d.file
    case Replaces(i) => i in d.loaded && d.holder == Some(i)
    case Abandons(i) => d.holder == Some(i)
    case Overwrites(i) => i in d.loaded && d.holder != Some(i)
  }

  predicate Writes(m: Move) { m.Replaces? || m.Overwrites? }

  function Moved(edit: (nat, Data) -> Data, d: Desk, m: Move): Desk
    requires Possible(d, m)
  {
    match m
    case Reads(i) => d.(loaded := d.loaded[i := d.file])
    case Compares(i) => d.(holder := Some(i))
    case Replaces(i) => d.(file := Dumped(edit(i, d.loaded[i].data)), holder := None, log := d.log + [i])
    case Abandons(_) => d.(holder := None)
    case Overwrites(i) => d.(file := Dumped(edit(i, d.loaded[i].data)), log := d.log + [i])
  }

  predicate MoveAt(edit: (nat, Data) -> Data, ds: seq<Desk>, moves: seq<Move>, k: nat)
    requires |ds| == |moves| + 1 && k < |moves|
  {
    Possible(ds[k], moves[k]) && ds[k + 1] == Moved(edit, ds[k], moves[k])
  }

  ghost predicate IsSession(edit: (nat, Data) -> Data, ds: seq<Desk>, moves: seq<Move>) {
    |ds| == |moves| + 1 && forall k: nat :: k < |moves| ==> MoveAt(edit, ds, moves, k)
  }

  /** A write loses an update: what it replaces is not what it was made from. */
  predicate Loses(d: Desk, m: Move)
    requires Possible(d, m)
  {
    Writes(m) && d.file != d.loaded[m.i]
  }

  /** The last write between `a` and `b`, if any. */
  ghost predicate LastWrite(moves: seq<Move>, a: nat, k: nat, b: nat)
    requires b <= |moves|
  {
    a <= k < b && Writes(moves[k]) && forall l :: k < l < b ==> !Writes(moves[l])
  }

  lemma {:induction false} FileSince(edit: (nat, Data) -> Data, ds: seq<Desk>, moves: seq<Move>, a: nat, b: nat)
    requires IsSession(edit, ds, moves) && a <= b <= |moves|
    ensures (forall k :: a <= k < b ==> !Writes(moves[k])) ==> ds[b].file == ds[a].file
    ensures forall k: nat :: LastWrite(moves, a, k, b) ==> ds[b].file == ds[k + 1].file
    decreases b
  {
    if a < b {
      FileSince(edit, ds, moves, a, b - 1);
      assert MoveAt(edit, ds, moves, b - 1);
      forall k: nat | LastWrite(moves, a, k, b) ensures ds[b].file == ds[k + 1].file {
        if k < b - 1 { assert LastWrite(moves, a, k, b - 1); }
      }
    }
  }

  lemma {:induction false} FindLastWrite(moves: seq<Move>, a: nat, b: nat) returns (k: nat)
    requires a <= b <= |moves| && exists l :: a <= l < b && Writes(moves[l])
    ensures LastWrite(moves, a, k, b)
    decreases b
  {
    if Writes(moves[b - 1]) {
      k := b - 1;
    } else {
      k := FindLastWrite(moves, a, b - 1);
    }
  }

  lemma {:induction false} LoadedStays(edit: (nat, Data) -> Data, ds: seq<Desk>, moves: seq<Move>, a: nat, b: nat, i: nat)
    requires IsSession(edit, ds, moves) && a <= b <= |moves| && i in ds[a].loaded
    requires forall k :: a <= k < b ==> moves[k] != Reads(i)
    ensures i in ds[b].loaded && ds[b].loaded[i] == ds[a].loaded[i]
    decreases b
  {
    if a < b {
      LoadedStays(edit, ds, moves, a, b - 1, i);
      assert MoveAt(edit, ds, moves, b - 1);
    }
  }

  /** A write loses an update if and only if the last write since its writer saw the file (when it
      read or compared it, right before state `a`) left something else than the writer had loaded. */
  lemma LosesExactly(edit: (nat, Data) -> Data, ds: seq<Desk>, moves: seq<Move>, a: nat, b: nat)
    requires IsSession(edit, ds, moves) && a <= b < |moves| && Writes(moves[b])
    requires moves[b].i in ds[a].loaded && ds[a].file == ds[a].loaded[moves[b].i]
    requires forall k :: a <= k < b ==> moves[k] != Reads(moves[b].i)
    ensures Possible(ds[b], moves[b])
    ensures Loses(ds[b], moves[b]) <==>
              exists k: nat :: LastWrite(moves, a, k, b) && ds[k + 1].file != ds[a].loaded[moves[b].i]
  {
    assert MoveAt(edit, ds, moves, b);
    LoadedStays(edit, ds, moves, a, b, moves[b].i);
    FileSince(edit, ds, moves, a, b);
    if exists k :: a <= k < b && Writes(moves[k]) { var k := FindLastWrite(moves, a, b); }
  }

  /** While a writer holds the guard, only unguarded writers write: a guarded write can lose an update
      only to one of them, between its comparison and its replacement. */
  lemma {:induction false} GuardHolds(edit: (nat, Data) -> Data, ds: seq<Desk>, moves: seq<Move>, a: nat, b: nat, i: nat)
    requires IsSession(edit, ds, moves) && a < b <= |moves| && moves[a] == Compares(i) && ds[b].holder == Some(i)
    requires forall k :: a < k < b ==> moves[k] != Compares(i)
    ensures forall k :: a < k < b && Writes(moves[k]) ==> moves[k].Overwrites? && moves[k].i != i
    ensures forall k :: a < k < b ==> moves[k] != Reads(i)
    decreases b
  {
    assert MoveAt(edit, ds, moves, b - 1);
    if a + 1 < b { GuardHolds(edit, ds, moves, a, b - 1, i); }
  }

  lemma GuardedLosesExactly(edit: (nat, Data) -> Data, ds: seq<Desk>, moves: seq<Move>, a: nat, b: nat, i: nat)
    requires IsSession(edit, ds, moves) && a < b < |moves| && moves[a] == Compares(i) && moves[b] == Replaces(i)
    requires forall k :: a < k < b ==> moves[k] != Compares(i)
    ensures Possible(ds[b], moves[b]) && i in ds[a].loaded
    ensures Loses(ds[b], moves[b]) <==>
              exists k: nat :: LastWrite(moves, a + 1, k, b) && moves[k].Overwrites? && ds[k + 1].file != ds[a].loaded[i]
  {
    assert MoveAt(edit, ds, moves, a) && MoveAt(edit, ds, moves, b);
    GuardHolds(edit, ds, moves, a, b, i);
    LosesExactly(edit, ds, moves, a + 1, b);
  }

  /** As long as no write loses an update, the file is what the writers would have made of it one
      after the other, guarded or not. */
  lemma {:induction false} SerialUnlessLost(edit: (nat, Data) -> Data, ds: seq<Desk>, moves: seq<Move>, n: nat)
    requires IsSession(edit, ds, moves) && n <= |moves| && ds[0].log == []
    requires forall k: nat :: k < n && Possible(ds[k], moves[k]) ==> !Loses(ds[k], moves[k])
    ensures ds[n].file == Serial(edit, ds[0].file, ds[n].log)
    decreases n
  {
    if n > 0 {
      SerialUnlessLost(edit, ds, moves, n - 1);
      assert MoveAt(edit, ds, moves, n - 1);
      var d, m := ds[n - 1], moves[n - 1];
      if Writes(m) { assert (d.log + [m.i])[..|d.log|] == d.log; }
    }
  }

  /** Writer 0 adds a section `a`, the others a section `b`. */
  function AddSection(i: nat, data: Data): Data { data[(if i == 0 then "a" else "b") := Null] }

  lemma SessionOfFive(ds: seq<Desk>, moves: seq<Move>)
    requires |moves| == 5 && |ds| == 6
    requires MoveAt(AddSection, ds, moves, 0) && MoveAt(AddSection, ds, moves, 1) && MoveAt(AddSection, ds, moves, 2)
    requires MoveAt(AddSection, ds, moves, 3) && MoveAt(AddSection, ds, moves, 4)
    ensures IsSession(AddSection, ds, moves)
  {
    forall k: nat | k < |moves| ensures MoveAt(AddSection, ds, moves, k) {
      assert k == 0 || k == 1 || k == 2 || k == 3 || k == 4;
    }
  }

  /** Updates do get lost: an unguarded writer gets in between comparison and replacement, and its
      section is gone, although one writer after the other would have kept both. */
  lemma GuardIsNotEnough() returns (ds: seq<Desk>, moves: seq<Move>)
    ensures IsSession(AddSection, ds, moves) && ds[0].file == Dumped(map[]) && ds[0].log == []
    ensures ds[|ds| - 1].file == Dumped(map["a" := Null])
    ensures Serial(AddSection, ds[0].file, ds[|ds| - 1].log) == Dumped(map["b" := Null, "a" := Null])
  {
    var empty, one := Dumped(map[]), Dumped(map["b" := Null]);
    assert AddSection(1, map[]) == map["b" := Null] && AddSection(0, map[]) == map["a" := Null];
    assert AddSection(0, map["b" := Null]) == map["b" := Null, "a" := Null];
    moves := [Reads(0), Reads(1), Compares(0), Overwrites(1), Replaces(0)];
    var both := map[0 := empty, 1 := empty];
    ds := [Desk(empty, map[], None, []), Desk(empty, map[0 := empty], None, []), Desk(empty, both, None, []),
           Desk(empty, both, Some(0), []), Desk(one, both, Some(0), [1]),
           Desk(Dumped(map["a" := Null]), both, None, [1, 0])];
    SessionOfFive(ds, moves);
    assert [1, 0][..1] == [1] && [1][..0] == [];
  }

  // ---- the memory section ----

  /** `_memory_raw_config`: a memory section that is not an object counts as an empty one. */
  function MemoryOf(data: Data): Json {
    if "memory" in data && data["memory"].Obj? then data["memory"] else Obj([])
  }

  function WithMemory(data: Data, memory: Json): Data { data["memory" := memory] }

  /** What the rollback writes: the previous section, or none. */
  function Undone(data: Data, previous: Json, present: bool): Data {
    if present then WithMemory(data, previous) else data - {"memory"}
  }

  /** Undoing an update brings back the data it was based on, exactly unless the memory section was
      there without being an object; and it touches no other section. */
  lemma UndoneExactly(base: Data, candidate: Json)
    ensures var undone := Undone(WithMemory(base, candidate), MemoryOf(base), "memory" in base);
            && (undone == base <==> ("memory" in base ==> base["memory"].Obj?))
            && forall k :: k != "memory" ==> (k in undone <==> k in base) && (k in base ==> undone[k] == base[k])
  {
    var undone := Undone(WithMemory(base, candidate), MemoryOf(base), "memory" in base);
    if "memory" in base {
      assert undone["memory"] == MemoryOf(base);
      if base["memory"].Obj? { assert undone == base; }
    } else {
      assert undone == base;
    }
  }

  /** A memory section that is `null` comes back as an empty object. */
  lemma NullMemoryIsReplaced(candidate: Json)
    ensures Undone(WithMemory(map["memory" := Null], candidate), MemoryOf(map["memory" := Null]), true) == map["memory" := Obj([])]
  {}

  // ---- one request ----

  datatype Written = Committed | Conflict | Invalid | DiskError

  /** What happens around a guarded write that the writer does not control: whether the data
      validates, whether the disk works, and a file that someone without the guard puts in place
      while the update is prepared. */
  datatype Conditions = Conditions(valid: bool, disk: bool, edited: Option<File>)

  /** What happens around a memory update: around its write, its reload, the loading for the
      rollback, the rollback's write, and the last reload; `newer` and `latest` are files that other
      writers put in place before and after the loading for the rollback. */
  datatype Surroundings = Surroundings(
    write: Conditions, reloads: bool, newer: Option<File>, loads: bool, latest: Option<File>, undo: Conditions, reloadsAgain: bool)

  datatype Reply =
    | Done
    | Rejected(why: Written)
    | ReloadFailed(fileRestored: bool, runtimeRestored: bool, synchronized: bool, superseded: bool)

  function Else(edited: Option<File>, file: File): File { if edited.Some? then edited.value else file }

  /** The rollback changed the memory section only, and only of a file that still held the
      candidate; otherwise the file is as the other writers left it. */
  ghost predicate Compensated(
    current: File, after: File, previous: Json, present: bool, candidate: Json, s: Surroundings, r: Reply)
  {
    var latest := Else(s.latest, current);
    && r.ReloadFailed?
    && (r.superseded <==> MemoryOf(current.data) != candidate)
    && (r.superseded ==> !r.fileRestored && after == latest)
    && (r.fileRestored ==> Else(s.undo.edited, latest) == current && after == Dumped(Undone(current.data, previous, present)))
    && (!r.fileRestored ==> after == latest || after == Else(s.undo.edited, latest))
    && (r.runtimeRestored ==> r.fileRestored && r.synchronized)
  }

  /** The same, from the file `before` that the update had written. */
  ghost predicate RolledBack(
    before: File, after: File, previous: Json, present: bool, candidate: Json, s: Surroundings, r: Reply)
  {
    var current := Else(s.newer, before);
    if s.loads then Compensated(current, after, previous, present, candidate, s, r)
    else r == ReloadFailed(false, false, false, false) && after == current
  }

  class Admin {
    var file: File
    /** The file this process runs with; None after a reload that failed. */
    var running: Option<File>

    /** `_atomic_write_config`; `base` is the file the data was loaded from. */
    method AtomicWriteConfig(data: Data, base: File, c: Conditions) returns (r: Written)
      modifies this`file
      // what is replaced is what the data was loaded from, even if others do not use the guard
      ensures r == Committed ==> file == Dumped(data) && old(file) == base && Else(c.edited, base) == base
      ensures r != Committed ==> file == old(file) || Some(file) == c.edited
      ensures r == Committed <==> old(file) == base && c.valid && c.disk && Else(c.edited, base) == base
      ensures old(file) != base ==> r == Conflict && file == old(file)
      ensures r == Conflict ==> old(file) != base || Else(c.edited, base) != base
    {
      if file != base { return Conflict; }
      if !c.valid { return Invalid; }
      if c.edited.Some? { file := c.edited.value; }
      if !c.disk { return DiskError; }
      if file != base { return Conflict; }
      file := Dumped(data);
      r := Committed;
    }

    /** `_reload_after_config_write`. */
    method Reload(works: bool) returns (ok: bool)
      modifies this`running
      ensures ok == works && running == if works then Some(file) else None
    {
      ok := works;
      running := if works then Some(file) else None;
    }

    /** `_reload_memory_with_rollback`, after the candidate was written. */
    method ReloadMemoryWithRollback(previous: Json, present: bool, candidate: Json, s: Surroundings) returns (r: Reply)
      modifies this
      ensures s.reloads <==> r == Done
      ensures r == Done ==> file == old(file)
      ensures r == Done || (r.ReloadFailed? && r.synchronized) ==> running == Some(file)
      ensures r != Done ==> RolledBack(old(file), file, previous, present, candidate, s, r)
    {
      var ok := Reload(s.reloads);
      if ok { return Done; }
      if s.newer.Some? { file := s.newer.value; }
      if !s.loads { return ReloadFailed(false, false, false, false); }
      r := Compensate(file, previous, present, candidate, s);
    }

    /** The part of the rollback that follows its loading of the file, `current`. */
    method Compensate(current: File, previous: Json, present: bool, candidate: Json, s: Surroundings) returns (r: Reply)
      requires file == current
      modifies this
      ensures r.ReloadFailed? && (r.synchronized ==> running == Some(file))
      ensures Compensated(current, file, previous, present, candidate, s, r)
    {
      if s.latest.Some? { file := s.latest.value; }
      if MemoryOf(current.data) != candidate {
        var ok := Reload(s.reloadsAgain);
        return ReloadFailed(false, false, ok, true);
      }
      var written := AtomicWriteConfig(Undone(current.data, previous, present), current, s.undo);
      if written != Committed { return ReloadFailed(false, false, false, false); }
      var ok := Reload(s.reloadsAgain);
      r := ReloadFailed(true, ok, ok, false);
    }

    /** `_persist_memory_and_reload` of an update based on the file `base`. */
    method PersistMemoryAndReload(base: File, candidate: Json, s: Surroundings) returns (r: Reply)
      requires candidate.Obj?
      modifies this
      ensures r == Done ==> old(file) == base && file == Dumped(WithMemory(base.data, candidate)) && running == Some(file)
      ensures r.Rejected? ==> file == old(file) || Some(file) == s.write.edited
      ensures r.ReloadFailed? ==>
                && old(file) == base
                && RolledBack(Dumped(WithMemory(base.data, candidate)), file, MemoryOf(base.data), "memory" in base.data, candidate, s, r)
      // alone, the update leaves the data as it was, if the memory section was an object
      ensures r.ReloadFailed? && r.fileRestored && s.newer == None ==>
                (file.data == base.data <==> ("memory" in base.data ==> base.data["memory"].Obj?))
    {
      var written := AtomicWriteConfig(WithMemory(base.data, candidate), base, s.write);
      if written != Committed { return Rejected(written); }
      UndoneExactly(base.data, candidate);
      r := ReloadMemoryWithRollback(MemoryOf(base.data), "memory" in base.data, candidate, s);
    }
  }
}
