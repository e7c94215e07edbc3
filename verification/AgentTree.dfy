/** What a save does to the directory of custom agents (deerflow/config_tool.py). */
module AgentTree {
  import opened Text
  import Redaction

  datatype Entry = File(content: string) | Folder(files: map<string, string>)

  type Tree = map<string, Entry>

  /** An agent as the user sends it: the directory it came from ("" for a new one), its name, its
      model ("" for the default), its `config.yaml` and its `SOUL.md`. */
  datatype Agent = Agent(original: string, name: string, model: string, yaml: string, soul: string)

  function Folders(t: Tree): set<string> { set n | n in t && t[n].Folder? }

  function Names(agents: seq<Agent>): set<string> { set a | a in agents :: a.name }

  function Originals(agents: seq<Agent>): set<string> { set a | a in agents && a.original != "" :: a.original }

  // ---- validation ----

  predicate NameChar(c: char) { 'A' <= c <= 'Z' || 'a' <= c <= 'z' || '0' <= c <= '9' || c == '-' }

  predicate ValidName(name: string) { name != "" && forall i :: 0 <= i < |name| ==> NameChar(name[i]) }

  function LowerName(name: string): string {
    seq(|name|, i requires 0 <= i < |name| => if 'A' <= name[i] <= 'Z' then (name[i] as int + 32) as char else name[i])
  }

  /** The models that are configured, and whether `AgentConfig` accepts the other settings. */
  datatype Rules = Rules(models: set<string>, accepts: Agent -> bool)

  predicate Fits(rules: Rules, a: Agent) {
    && ValidName(Redaction.Strip(a.name))
    && (Redaction.Strip(a.model) == "" || Redaction.Strip(a.model) in rules.models)
    && rules.accepts(a)
  }

  ghost predicate Acceptable(rules: Rules, agents: seq<Agent>) {
    && (forall i :: 0 <= i < |agents| ==> Fits(rules, agents[i]))
    && forall i, j :: 0 <= i < j < |agents| ==>
         LowerName(Redaction.Strip(agents[i].name)) != LowerName(Redaction.Strip(agents[j].name))
  }

  function Trimmed(a: Agent): Agent { a.(name := Redaction.Strip(a.name), model := Redaction.Strip(a.model)) }

  function Stripped(agents: seq<Agent>): seq<Agent> {
    seq(|agents|, i requires 0 <= i < |agents| => Trimmed(agents[i]))
  }

  function LowerNames(agents: seq<Agent>): set<string> { set a | a in agents :: LowerName(Redaction.Strip(a.name)) }

  lemma OneMoreAcceptable(rules: Rules, agents: seq<Agent>, a: Agent)
    ensures Acceptable(rules, agents + [a]) <==>
              Acceptable(rules, agents) && Fits(rules, a) && LowerName(Redaction.Strip(a.name)) !in LowerNames(agents)
    ensures LowerNames(agents + [a]) == LowerNames(agents) + {LowerName(Redaction.Strip(a.name))}
    ensures Stripped(agents + [a]) == Stripped(agents) + [Trimmed(a)]
  {
    var all, n := agents + [a], |agents|;
    assert all[n] == a && forall i :: 0 <= i < n ==> all[i] == agents[i];
    if LowerName(Redaction.Strip(a.name)) in LowerNames(agents) {
      var b :| b in agents && LowerName(Redaction.Strip(b.name)) == LowerName(Redaction.Strip(a.name));
      var i :| 0 <= i < n && agents[i] == b;
      assert LowerName(Redaction.Strip(all[i].name)) == LowerName(Redaction.Strip(all[n].name));
    } else if Acceptable(rules, agents) && Fits(rules, a) {
      forall i | 0 <= i < n ensures LowerName(Redaction.Strip(all[i].name)) != LowerName(Redaction.Strip(a.name)) {
        assert agents[i] in agents;
      }
    }
    forall x ensures x in LowerNames(all) <==> x in LowerNames(agents) || x == LowerName(Redaction.Strip(a.name)) {
      if x in LowerNames(agents) { var b :| b in agents && LowerName(Redaction.Strip(b.name)) == x; assert b in all; }
      if x == LowerName(Redaction.Strip(a.name)) { assert a in all; }
    }
  }

  lemma PrefixAcceptable(rules: Rules, agents: seq<Agent>, n: nat)
    requires n <= |agents|
    ensures Acceptable(rules, agents) ==> Acceptable(rules, agents[..n])
  {}

  /** `_validated_agents`: accepts agents whose names are valid and differ in more than letter case,
      whose models are configured and whose settings are accepted. */
  method ValidatedAgents(rules: Rules, incoming: seq<Agent>) returns (r: Option<seq<Agent>>)
    ensures r == if Acceptable(rules, incoming) then Some(Stripped(incoming)) else None
  {
    var output: seq<Agent> := [];
    var names: set<string> := {};
    for i := 0 to |incoming|
      invariant output == Stripped(incoming[..i]) && Acceptable(rules, incoming[..i]) && names == LowerNames(incoming[..i])
    {
      var name, model := Redaction.Strip(incoming[i].name), Redaction.Strip(incoming[i].model);
      OneMoreAcceptable(rules, incoming[..i], incoming[i]);
      assert incoming[..i + 1] == incoming[..i] + [incoming[i]];
      PrefixAcceptable(rules, incoming, i + 1);
      if !ValidName(name) || LowerName(name) in names { return None; }
      if model != "" && model !in rules.models { return None; }
      if !rules.accepts(incoming[i]) { return None; }
      names := names + {LowerName(name)};
      output := output + [incoming[i].(name := name, model := model)];
    }
    assert incoming[..|incoming|] == incoming;
    r := Some(output);
  }

  ghost predicate DistinctNames(agents: seq<Agent>) { forall i, j :: 0 <= i < j < |agents| ==> agents[i].name != agents[j].name }

  ghost predicate DistinctOriginals(agents: seq<Agent>) {
    forall i, j :: 0 <= i < j < |agents| && agents[i].original != "" ==> agents[i].original != agents[j].original
  }

  lemma AcceptedNamesDiffer(rules: Rules, incoming: seq<Agent>)
    requires Acceptable(rules, incoming)
    ensures DistinctNames(Stripped(incoming))
  {}

  /** The checks before anything is written: no agent takes a directory that is not its own. */
  ghost predicate Unobstructed(t: Tree, agents: seq<Agent>) {
    forall i :: 0 <= i < |agents| && agents[i].name in Folders(t) ==> agents[i].original == agents[i].name != ""
  }

  /** Those checks, as written. */
  method PreCheck(t: Tree, agents: seq<Agent>) returns (ok: bool)
    ensures ok <==> Unobstructed(t, agents)
  {
    var existing := Folders(t);
    for i := 0 to |agents|
      invariant Unobstructed(t, agents[..i])
    {
      var a := agents[i];
      if a.original == "" && a.name in existing { return false; }
      if a.original != "" && a.original != a.name && a.name in existing { return false; }
    }
    assert agents[..|agents|] == agents;
    ok := true;
  }

  // ---- the files of one agent ----

  const CONFIG_FILE := "config.yaml"

  const SOUL_FILE := "SOUL.md"

  function RightStrip(s: string): string {
    if s != "" && Redaction.IsSpace(s[|s| - 1]) then RightStrip(s[..|s| - 1]) else s
  }

  function Written(files: map<string, string>, a: Agent): map<string, string> {
    var withConfig := files[CONFIG_FILE := a.yaml];
    if RightStrip(a.soul) != "" then withConfig[SOUL_FILE := RightStrip(a.soul) + "\n"] else withConfig - {SOUL_FILE}
  }

  // ---- the loop over the agents ----

  /** The rename of one agent's directory; None if the operating system refuses. `existing` are the
      directories there were before the loop. */
  function Renamed(t: Tree, existing: set<string>, a: Agent): Option<Tree> {
    if a.original == "" || a.original == a.name || a.original !in existing then Some(t)
    else if a.original !in t || (a.name in t && t[a.name] != Folder(map[])) then None
    else Some((t - {a.original})[a.name := t[a.original]])
  }

  function Made(t: Tree, name: string): Option<Tree> {
    if name !in t then Some(t[name := Folder(map[])]) else if t[name].File? then None else Some(t)
  }

  function AgentStep(t: Tree, existing: set<string>, a: Agent): Option<Tree> {
    match Renamed(t, existing, a)
    case None => None
    case Some(u) =>
      match Made(u, a.name)
      case None => None
      case Some(w) => if a.name in w && w[a.name].Folder? then Some(w[a.name := Folder(Written(w[a.name].files, a))]) else None
  }

  function AgentLoop(t: Tree, agents: seq<Agent>): Option<Tree> {
    if agents == [] then Some(t) else
    match AgentLoop(t, agents[..|agents| - 1])
    case None => None
    case Some(u) => AgentStep(u, Folders(t), agents[|agents| - 1])
  }

  /** What is archived: directories that no incoming agent came from. */
  function Removed(t: Tree, agents: seq<Agent>): set<string> { Folders(t) - Originals(agents) }

  /** The directory after a save, and what was moved out of it. */
  function Updated(t: Tree, agents: seq<Agent>): Option<(Tree, Tree)> {
    match AgentLoop(t, agents)
    case None => None
    case Some(u) => Some((u - Removed(t, agents), map n | n in Removed(t, agents) && n in u :: u[n]))
  }

  // ---- what the loop achieves ----

  predicate MovesAway(t: Tree, a: Agent) { a.original in Folders(t) && a.original != "" && a.original != a.name }

  /** No plain file stands where an agent's directory goes. */
  ghost predicate NoStrays(t: Tree, agents: seq<Agent>) {
    forall i :: 0 <= i < |agents| && agents[i].name in t ==> t[agents[i].name].Folder?
  }

  /** Two agents, the first one first, come from the same directory. */
  predicate Sharing(t: Tree, agents: seq<Agent>, i: int, j: int) {
    0 <= i < j < |agents| && agents[i].original == agents[j].original != "" && agents[j].original in Folders(t)
  }

  /** A directory may be shared in one way only: someone moves it away, and then someone keeps its name. */
  ghost predicate Compatible(t: Tree, agents: seq<Agent>) {
    forall i, j :: Sharing(t, agents, i, j) ==> agents[j].name == agents[j].original
  }

  lemma DistinctIsCompatible(t: Tree, agents: seq<Agent>)
    requires DistinctOriginals(agents)
    ensures Compatible(t, agents)
  {}

  predicate TakenBefore(before: seq<Agent>, a: Agent) { exists b :: b in before && b.original == a.original }

  /** Where an agent's files come from: the directory it names, unless an earlier agent has taken that. */
  function Source(t: Tree, before: seq<Agent>, a: Agent): map<string, string> {
    if a.original != "" && a.original in Folders(t) && !TakenBefore(before, a) then t[a.original].files else map[]
  }

  function FilesOf(t: Tree, agents: seq<Agent>, i: nat): map<string, string>
    requires i < |agents|
  {
    Written(Source(t, agents[..i], agents[i]), agents[i])
  }

  /** The tree `u` after the agents `agents` of the loop that started from `t`. */
  ghost predicate Halfway(t: Tree, agents: seq<Agent>, u: Tree) {
    && (forall n :: n in u <==>
          n in Names(agents) || (n in t && forall i :: 0 <= i < |agents| && MovesAway(t, agents[i]) ==> agents[i].original != n))
    && (forall i :: 0 <= i < |agents| ==> agents[i].name in u && u[agents[i].name] == Folder(FilesOf(t, agents, i)))
    && (forall n :: n in u && n !in Names(agents) ==> n in t && u[n] == t[n])
  }

  /** Lists that the checks before a save let through. */
  ghost predicate Admitted(t: Tree, agents: seq<Agent>) {
    DistinctNames(agents) && Unobstructed(t, agents) && forall i :: 0 <= i < |agents| ==> agents[i].name != ""
  }

  ghost predicate Sensible(t: Tree, agents: seq<Agent>) {
    Admitted(t, agents) && Compatible(t, agents) && NoStrays(t, agents)
  }

  lemma PrefixOf(agents: seq<Agent>, a: Agent)
    ensures (agents + [a])[|agents|] == a && (agents + [a])[..|agents|] == agents
    ensures forall i :: 0 <= i < |agents| ==> (agents + [a])[i] == agents[i] && (agents + [a])[..i] == agents[..i]
  {}

  lemma SensiblePrefix(t: Tree, agents: seq<Agent>, a: Agent)
    requires Sensible(t, agents + [a])
    ensures Sensible(t, agents)
  {
    PrefixOf(agents, a);
    forall i, j | Sharing(t, agents, i, j) ensures agents[j].name == agents[j].original { assert Sharing(t, agents + [a], i, j); }
  }

  lemma NamesOfMore(agents: seq<Agent>, a: Agent)
    ensures Names(agents + [a]) == Names(agents) + {a.name}
  {
    forall n ensures n in Names(agents + [a]) <==> n in Names(agents) || n == a.name {
      if n in Names(agents) { var b :| b in agents && b.name == n; assert b in agents + [a]; }
      if n == a.name { assert a in agents + [a]; }
    }
  }

  /** The agent's name is new among the agents so far. */
  lemma NameIsNew(t: Tree, agents: seq<Agent>, a: Agent)
    requires Admitted(t, agents + [a])
    ensures a.name !in Names(agents)
  {
    PrefixOf(agents, a);
    forall b | b in agents ensures b.name != a.name {
      var i :| 0 <= i < |agents| && agents[i] == b;
    }
  }

  /** The step from `u`, spelled out. */
  function Placed(t: Tree, u: Tree, before: seq<Agent>, a: Agent): Tree {
    (if MovesAway(t, a) then u - {a.original} else u)[a.name := Folder(Written(Source(t, before, a), a))]
  }

  lemma InNames(agents: seq<Agent>, i: nat)
    requires i < |agents|
    ensures agents[i].name in Names(agents)
  {
    assert agents[i] in agents;
  }

  /** If the directory an agent came from was taken before, the agent keeps its name, which is free. */
  lemma TakenIsFree(t: Tree, agents: seq<Agent>, a: Agent, u: Tree)
    requires Sensible(t, agents + [a]) && Halfway(t, agents, u)
    requires a.original in Folders(t) && a.original != "" && TakenBefore(agents, a)
    ensures a.name == a.original && a.name !in u
  {
    var b :| b in agents && b.original == a.original;
    var i :| 0 <= i < |agents| && agents[i] == b;
    PrefixOf(agents, a);
    assert Sharing(t, agents + [a], i, |agents|);
    NameIsNew(t, agents, a);
    InNames(agents, i);
    assert MovesAway(t, agents[i]);
  }

  /** Otherwise that directory is untouched so far. */
  lemma SourceIsThere(t: Tree, agents: seq<Agent>, a: Agent, u: Tree)
    requires Sensible(t, agents + [a]) && Halfway(t, agents, u)
    requires a.original in Folders(t) && a.original != "" && !TakenBefore(agents, a)
    ensures a.original in u && u[a.original] == t[a.original]
  {
    PrefixOf(agents, a);
    forall i | 0 <= i < |agents| ensures agents[i].original != a.original && agents[i].name != a.original {
      assert agents[i] in agents;
      assert agents[i] == (agents + [a])[i];
    }
  }

  /** A name that is in the way is the agent's own directory. */
  lemma OwnDirectory(t: Tree, agents: seq<Agent>, a: Agent, u: Tree)
    requires Sensible(t, agents + [a]) && Halfway(t, agents, u) && a.name in u
    ensures a.name in Folders(t) && a.original == a.name && u[a.name] == t[a.name]
  {
    PrefixOf(agents, a);
    NameIsNew(t, agents, a);
    assert (agents + [a])[|agents|].name in Folders(t);
  }

  lemma Overwritten(t: Tree, n: string, first: Entry, last: Entry)
    ensures t[n := first][n := last] == t[n := last]
  {}

  lemma StepWrites(u: Tree, existing: set<string>, a: Agent, r: Tree, files: map<string, string>)
    requires Renamed(u, existing, a) == Some(r)
    requires if a.name in r then r[a.name] == Folder(files) else files == map[]
    ensures AgentStep(u, existing, a) == Some(r[a.name := Folder(Written(files, a))])
  {
    Overwritten(r, a.name, Folder(map[]), Folder(Written(files, a)));
  }

  lemma UntakenPlaces(t: Tree, agents: seq<Agent>, a: Agent, u: Tree)
    requires a.original in Folders(t) && a.original != "" ==>
               !TakenBefore(agents, a) && a.original in u && u[a.original] == t[a.original]
    requires a.name in u ==> a.name in Folders(t) && a.original == a.name && a.original != "" && u[a.name] == t[a.name]
    ensures AgentStep(u, Folders(t), a) == Some(Placed(t, u, agents, a))
  {
    if MovesAway(t, a) {
      assert a.name !in u;
      Overwritten(u - {a.original}, a.name, t[a.original], Folder(Written(t[a.original].files, a)));
      StepWrites(u, Folders(t), a, (u - {a.original})[a.name := t[a.original]], t[a.original].files);
    } else {
      StepWrites(u, Folders(t), a, u, Source(t, agents, a));
    }
  }

  lemma StepPlaces(t: Tree, agents: seq<Agent>, a: Agent, u: Tree)
    requires Sensible(t, agents + [a]) && Halfway(t, agents, u)
    ensures AgentStep(u, Folders(t), a) == Some(Placed(t, u, agents, a))
  {
    PrefixOf(agents, a);
    var named := a.original in Folders(t) && a.original != "";
    if named && TakenBefore(agents, a) {
      TakenIsFree(t, agents, a, u);
      StepWrites(u, Folders(t), a, u, map[]);
    } else {
      if named { SourceIsThere(t, agents, a, u); }
      if a.name in u { OwnDirectory(t, agents, a, u); }
      UntakenPlaces(t, agents, a, u);
    }
  }

  /** A directory that an agent moves away has not been taken, so its name is nobody's. */
  lemma MoverIsFirst(t: Tree, agents: seq<Agent>, a: Agent)
    requires Sensible(t, agents + [a]) && MovesAway(t, a)
    ensures !TakenBefore(agents, a) && a.original !in Names(agents)
  {
    PrefixOf(agents, a);
    forall b | b in agents ensures b.original != a.original && b.name != a.original {
      var i :| 0 <= i < |agents| && agents[i] == b;
      assert !Sharing(t, agents + [a], i, |agents|);
      assert (agents + [a])[i] == b;
    }
  }

  lemma PlacedFiles(t: Tree, agents: seq<Agent>, a: Agent, u: Tree)
    requires Sensible(t, agents + [a]) && Halfway(t, agents, u)
    ensures var w, all := Placed(t, u, agents, a), agents + [a];
            forall i :: 0 <= i < |all| ==> all[i].name in w && w[all[i].name] == Folder(FilesOf(t, all, i))
  {
    var w, all := Placed(t, u, agents, a), agents + [a];
    PrefixOf(agents, a);
    NameIsNew(t, agents, a);
    if MovesAway(t, a) { MoverIsFirst(t, agents, a); }
    forall i | 0 <= i < |all| ensures all[i].name in w && w[all[i].name] == Folder(FilesOf(t, all, i)) {
      if i < |agents| { InNames(agents, i); }
    }
  }

  /** A directory remains as long as no agent moves it away. */
  lemma Remaining(t: Tree, agents: seq<Agent>, a: Agent, m: string)
    ensures (forall i :: 0 <= i < |agents + [a]| && MovesAway(t, (agents + [a])[i]) ==> (agents + [a])[i].original != m)
       <==> (forall i :: 0 <= i < |agents| && MovesAway(t, agents[i]) ==> agents[i].original != m) && (MovesAway(t, a) ==> a.original != m)
  {
    var all := agents + [a];
    assert all[|agents|] == a && forall i :: 0 <= i < |agents| ==> all[i] == agents[i];
  }

  lemma StepReaches(t: Tree, agents: seq<Agent>, a: Agent, u: Tree)
    requires Sensible(t, agents + [a]) && Halfway(t, agents, u)
    ensures AgentStep(u, Folders(t), a) == Some(Placed(t, u, agents, a)) && Halfway(t, agents + [a], Placed(t, u, agents, a))
  {
    StepPlaces(t, agents, a, u);
    PrefixOf(agents, a);
    NameIsNew(t, agents, a);
    NamesOfMore(agents, a);
    PlacedFiles(t, agents, a, u);
    var w, all := Placed(t, u, agents, a), agents + [a];
    forall m ensures m in w <==>
        m in Names(all) || (m in t && forall i :: 0 <= i < |all| && MovesAway(t, all[i]) ==> all[i].original != m) {
      Remaining(t, agents, a, m);
      if MovesAway(t, a) { MoverIsFirst(t, agents, a); }
    }
  }

  lemma {:induction false} LoopReaches(t: Tree, agents: seq<Agent>)
    requires Sensible(t, agents)
    ensures AgentLoop(t, agents).Some? && Halfway(t, agents, AgentLoop(t, agents).value)
  {
    if agents != [] {
      var init, a := agents[..|agents| - 1], agents[|agents| - 1];
      assert init + [a] == agents;
      SensiblePrefix(t, init, a);
      LoopReaches(t, init);
      StepReaches(t, init, a, AgentLoop(t, init).value);
    }
  }

  // ---- exactly when the loop reaches its goal ----

  /** The loop ends well, and every incoming agent has its directory. */
  ghost predicate Reaches(t: Tree, agents: seq<Agent>) {
    AgentLoop(t, agents).Some? && forall i :: 0 <= i < |agents| ==> agents[i].name in Folders(AgentLoop(t, agents).value)
  }

  lemma StepAddsOne(u: Tree, existing: set<string>, a: Agent, n: string)
    requires AgentStep(u, existing, a).Some? && n != a.name
    ensures n in Folders(AgentStep(u, existing, a).value) ==> n in Folders(u)
  {}

  /** An agent whose directory is missing does not get it back from a later one. */
  lemma MissingStaysMissing(t: Tree, agents: seq<Agent>, a: Agent)
    requires Admitted(t, agents + [a]) && !Reaches(t, agents)
    ensures !Reaches(t, agents + [a])
  {
    var all := agents + [a];
    PrefixOf(agents, a);
    NameIsNew(t, agents, a);
    if AgentLoop(t, agents).Some? && AgentLoop(t, all).Some? {
      var i :| 0 <= i < |agents| && agents[i].name !in Folders(AgentLoop(t, agents).value);
      InNames(agents, i);
      StepAddsOne(AgentLoop(t, agents).value, Folders(t), a, agents[i].name);
      assert all[i] == agents[i];
    }
  }

  /** A plain file in the way makes the loop fail. */
  lemma StrayFails(t: Tree, agents: seq<Agent>, a: Agent, u: Tree)
    requires Admitted(t, agents + [a]) && Halfway(t, agents, u) && a.name in t && t[a.name].File?
    ensures AgentStep(u, Folders(t), a) == None
  {
    NameIsNew(t, agents, a);
    assert a.name in u && u[a.name] == t[a.name];
  }

  /** Taking a directory that was taken before makes the loop fail, or takes it from the agent
      that has it now. */
  lemma TakingAgainFails(t: Tree, agents: seq<Agent>, a: Agent, u: Tree, i: nat)
    requires Admitted(t, agents + [a]) && Halfway(t, agents, u) && AgentLoop(t, agents) == Some(u)
    requires Sharing(t, agents + [a], i, |agents|) && a.name != a.original
    ensures !Reaches(t, agents + [a])
  {
    var all, o := agents + [a], a.original;
    PrefixOf(agents, a);
    if o in u {
      if !MovesAway(t, agents[i]) { InNames(agents, i); }
      assert o in Names(agents);
      var b :| b in agents && b.name == o;
      var k :| 0 <= k < |agents| && agents[k] == b;
      assert all[k] == b;
      if AgentStep(u, Folders(t), a).Some? { assert o !in AgentStep(u, Folders(t), a).value; }
    } else {
      assert Renamed(u, Folders(t), a) == None;
    }
  }

  lemma LastOneFails(t: Tree, agents: seq<Agent>, a: Agent, u: Tree)
    requires Admitted(t, agents + [a]) && !Sensible(t, agents + [a]) && Sensible(t, agents)
    requires Halfway(t, agents, u) && AgentLoop(t, agents) == Some(u)
    ensures !Reaches(t, agents + [a])
  {
    var all := agents + [a];
    PrefixOf(agents, a);
    if !NoStrays(t, all) {
      StrayFails(t, agents, a, u);
    } else {
      var i, j :| Sharing(t, all, i, j) && all[j].name != all[j].original;
      if j < |agents| { assert Sharing(t, agents, i, j); }
      TakingAgainFails(t, agents, a, u, i);
    }
  }

  /** With the checks passed, the loop reaches its goal if and only if no plain file is in the way and
      every shared directory is first moved away and then named again. */
  lemma {:induction false} ReachesExactly(t: Tree, agents: seq<Agent>)
    requires Admitted(t, agents)
    ensures Reaches(t, agents) <==> Compatible(t, agents) && NoStrays(t, agents)
  {
    if Sensible(t, agents) {
      LoopReaches(t, agents);
    } else {
      var n := |agents| - 1;
      var init, a := agents[..n], agents[n];
      assert init + [a] == agents;
      PrefixOf(init, a);
      ReachesExactly(t, init);
      if !Sensible(t, init) {
        MissingStaysMissing(t, init, a);
      } else {
        LoopReaches(t, init);
        LastOneFails(t, init, a, AgentLoop(t, init).value);
      }
    }
  }

  /** Of two agents from one directory, the one that moves it away gets its files, and the one that
      keeps its name starts afresh. */
  lemma MoverGetsFiles(t: Tree, agents: seq<Agent>, i: nat, j: nat)
    requires Sensible(t, agents) && Sharing(t, agents, i, j)
    ensures agents[i].name != agents[i].original && agents[j].name == agents[j].original
    ensures AgentLoop(t, agents).Some?
    ensures var u, o := AgentLoop(t, agents).value, agents[i].original;
            && agents[i].name in u && u[agents[i].name] == Folder(Written(t[o].files, agents[i]))
            && o in u && u[o] == Folder(Written(map[], agents[j]))
  {
    LoopReaches(t, agents);
    assert agents[i] in agents[..j];
    assert TakenBefore(agents[..j], agents[j]);
    forall b | b in agents[..i] ensures b.original != agents[i].original {
      var k :| 0 <= k < i && agents[k] == b;
      assert !Sharing(t, agents, k, i);
    }
  }

  // ---- the result of a save ----

  /** After a save exactly the incoming agents are directories, each with its own settings on top
      of the files of the directory it came from; plain files stay; directories that nobody came
      from are archived as they were. */
  ghost predicate UpdatedExactly(t: Tree, agents: seq<Agent>, u: Tree, archived: Tree) {
    && Folders(u) == Names(agents)
    && (forall i :: 0 <= i < |agents| ==> agents[i].name in u && u[agents[i].name] == Folder(FilesOf(t, agents, i)))
    && (forall n :: n in u && u[n].File? <==> n in t && t[n].File?)
    && (forall n :: n in t && t[n].File? ==> n in u && u[n] == t[n])
    && archived.Keys == Folders(t) - Originals(agents)
    && forall n :: n in archived ==> archived[n] == t[n]
  }

  lemma InOriginals(agents: seq<Agent>, i: nat)
    requires i < |agents| && agents[i].original != ""
    ensures agents[i].original in Originals(agents)
  {
    assert agents[i] in agents;
  }

  /** The first agent that comes from a directory. */
  lemma {:induction false} OwnerOf(agents: seq<Agent>, n: string) returns (i: nat)
    requires n in Originals(agents)
    ensures i < |agents| && agents[i].original == n != "" && forall b :: b in agents[..i] ==> b.original != n
  {
    var init, last := agents[..|agents| - 1], agents[|agents| - 1];
    if n in Originals(init) {
      i := OwnerOf(init, n);
      assert agents[..i] == init[..i];
    } else {
      i := |agents| - 1;
      assert forall b :: b in init && b.original != "" ==> b.original in Originals(init);
    }
  }

  /** A directory is left in the tree after the loop exactly if it has no new place, and it is then
      as it was. */
  lemma LeftOver(t: Tree, agents: seq<Agent>, u: Tree, n: string)
    requires Sensible(t, agents) && Halfway(t, agents, u) && n in Folders(t) && n !in Originals(agents)
    ensures n in u && u[n] == t[n] && n !in Names(agents)
  {
    forall i | 0 <= i < |agents| ensures (MovesAway(t, agents[i]) ==> agents[i].original != n) && agents[i].name != n {
      if agents[i].original != "" { InOriginals(agents, i); }
    }
  }

  lemma KeptIsNamed(t: Tree, agents: seq<Agent>, u: Tree, n: string)
    requires Sensible(t, agents) && Halfway(t, agents, u) && n in Folders(u) && n !in Removed(t, agents)
    ensures n in Names(agents)
  {
    if n !in Names(agents) {
      var i := OwnerOf(agents, n);
      if agents[i].name == n { InNames(agents, i); }
    }
  }

  lemma NamesStay(t: Tree, agents: seq<Agent>, i: nat)
    requires Sensible(t, agents) && i < |agents|
    ensures agents[i].name !in Removed(t, agents)
  {
    if agents[i].name in Folders(t) { InOriginals(agents, i); }
  }

  lemma FilesStay(t: Tree, agents: seq<Agent>, u: Tree, n: string)
    requires Sensible(t, agents) && Halfway(t, agents, u) && n in t && t[n].File?
    ensures n in u && u[n] == t[n]
  {
    forall a | a in agents ensures a.name != n {
      var i :| 0 <= i < |agents| && agents[i] == a;
    }
  }

  lemma SaveUpdates(t: Tree, agents: seq<Agent>)
    requires Sensible(t, agents)
    ensures Updated(t, agents).Some? && UpdatedExactly(t, agents, Updated(t, agents).value.0, Updated(t, agents).value.1)
  {
    LoopReaches(t, agents);
    var u := AgentLoop(t, agents).value;
    var (w, archived) := Updated(t, agents).value;
    forall n | n in Removed(t, agents) ensures n in u && u[n] == t[n] { LeftOver(t, agents, u, n); }
    forall i | 0 <= i < |agents| ensures agents[i].name in w && w[agents[i].name] == u[agents[i].name] {
      NamesStay(t, agents, i);
    }
    forall n ensures n in Folders(w) <==> n in Names(agents) {
      if n in Folders(w) { KeptIsNamed(t, agents, u, n); }
    }
    forall n | n in t && t[n].File? ensures n in w && w[n] == t[n] {
      FilesStay(t, agents, u, n);
    }
    forall n | n in w && w[n].File? ensures n in t && t[n].File? {
      assert n !in Folders(w);
    }
  }

  /** A plain file that is nobody's name so far is still there. */
  lemma {:induction false} StrayStays(t: Tree, agents: seq<Agent>, n: string)
    requires AgentLoop(t, agents).Some? && n in t && t[n].File? && n !in Names(agents)
    ensures n in AgentLoop(t, agents).value && AgentLoop(t, agents).value[n] == t[n]
  {
    if agents != [] {
      var init, a := agents[..|agents| - 1], agents[|agents| - 1];
      assert init + [a] == agents;
      NamesOfMore(init, a);
      StrayStays(t, init, n);
    }
  }

  /** A loop that ends well met no plain file in its way. */
  lemma {:induction false} LoopMeansNoStrays(t: Tree, agents: seq<Agent>)
    requires Admitted(t, agents) && AgentLoop(t, agents).Some?
    ensures NoStrays(t, agents)
  {
    if agents != [] {
      var init, a := agents[..|agents| - 1], agents[|agents| - 1];
      assert init + [a] == agents;
      PrefixOf(init, a);
      LoopMeansNoStrays(t, init);
      if a.name in t && t[a.name].File? { StrayStays(t, init, a.name); }
    }
  }

  /** A save that ends well updates the agents exactly if and only if shared directories are
      compatible. */
  lemma UpdatesExactly(t: Tree, agents: seq<Agent>)
    requires Admitted(t, agents) && Updated(t, agents).Some?
    ensures UpdatedExactly(t, agents, Updated(t, agents).value.0, Updated(t, agents).value.1) <==> Compatible(t, agents)
  {
    ReachesExactly(t, agents);
    LoopMeansNoStrays(t, agents);
    if Compatible(t, agents) {
      SaveUpdates(t, agents);
    } else {
      var i :| 0 <= i < |agents| && agents[i].name !in Folders(AgentLoop(t, agents).value);
      InNames(agents, i);
    }
  }

  /** Nothing is lost or overwritten: every file of a directory is kept under the name the directory
      has now, or archived with its directory; only `config.yaml` and `SOUL.md` are replaced. */
  lemma NothingLost(t: Tree, agents: seq<Agent>, d: string, file: string)
    requires Sensible(t, agents) && d in Folders(t) && file in t[d].files
    ensures Updated(t, agents).Some?
    ensures var (u, archived) := Updated(t, agents).value;
            if d in Originals(agents) then
              (file != CONFIG_FILE && file != SOUL_FILE ==>
                 exists i :: 0 <= i < |agents| && agents[i].original == d && agents[i].name in Folders(u)
                   && file in u[agents[i].name].files && u[agents[i].name].files[file] == t[d].files[file])
            else d in archived && archived[d] == t[d]
  {
    SaveUpdates(t, agents);
    var (u, archived) := Updated(t, agents).value;
    if d in Originals(agents) {
      var i := OwnerOf(agents, d);
      InNames(agents, i);
      assert Source(t, agents[..i], agents[i]) == t[d].files;
    }
  }

  /** The loop may end well and still lose an agent: `a` is kept and then renamed away. */
  lemma SharedOriginalLosesAgent() returns (t: Tree, agents: seq<Agent>)
    ensures DistinctNames(agents) && Unobstructed(t, agents) && NoStrays(t, agents)
    ensures Updated(t, agents).Some? && "a" in Names(agents) && "a" !in Updated(t, agents).value.0
  {
    var a, b := Agent("a", "a", "", "", ""), Agent("a", "b", "", "", "");
    t, agents := map["a" := Folder(map[])], [a, b];
    assert agents[..1] == [a] && [a][..0] == [] && agents[0] == a && agents[1] == b;
    assert "a" in Folders(t);
    var t1 := map["a" := Folder(Written(map[], a))];
    assert t["a" := Folder(Written(map[], a))] == t1;
    assert Made(t, "a") == Some(t) && Renamed(t, Folders(t), a) == Some(t);
    assert AgentStep(t, Folders(t), a) == Some(t1);
    assert AgentLoop(t, [a]) == Some(t1);
    var moved := (t1 - {"a"})["b" := t1["a"]];
    assert Renamed(t1, Folders(t), b) == Some(moved);
    assert AgentLoop(t, agents) == AgentStep(t1, Folders(t), b);
    assert "a" in Names(agents) by { assert a in agents; }
    InOriginals(agents, 0);
  }
}
