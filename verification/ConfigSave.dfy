/** Saving the portable configuration (deerflow/config_tool.py, `_save_locked`): all or nothing. */
module ConfigSave {
  import opened Text
  import opened AgentTree

  /** Text as Python reads it: every line ends in a line feed. */
  function Universal(s: string): string {
    if s == "" then ""
    else if s[0] == '\r' then "\n" + Universal(if |s| > 1 && s[1] == '\n' then s[2..] else s[1..])
    else [s[0]] + Universal(s[1..])
  }

  lemma {:induction false} UniversalIsPlain(s: string)
    ensures '\r' !in Universal(s) && (Universal(s) == s <==> '\r' !in s)
  {
    if s != "" {
      if s[0] == '\r' {
        UniversalIsPlain(if |s| > 1 && s[1] == '\n' then s[2..] else s[1..]);
        assert Universal(s)[0] == '\n';
      } else {
        UniversalIsPlain(s[1..]);
        assert s == [s[0]] + s[1..];
        if Universal(s) == s { assert Universal(s[1..]) == Universal(s)[1..]; }
      }
    }
  }

  function ReadText(file: Option<string>): Option<string> {
    match file case None => None case Some(s) => Some(Universal(s))
  }

  /** What is on disk. */
  datatype Disk = Disk(config: Option<string>, extensions: Option<string>, agents: Tree)

  /** What a save asks for. Revisions stand for the contents they are hashes of; `build` is the
      validation and merging of everything but the agents. */
  datatype Document = Document(
    configRevision: Option<string>, extensionsRevision: Option<string>, agents: seq<Agent>, rules: Rules,
    build: (Option<string>, Option<string>) -> Option<(string, string)>)

  datatype Outcome = Refused | Saved | RolledBack | RollbackFailed

  predicate Current(d: Disk, doc: Document) { d.config == doc.configRevision && d.extensions == doc.extensionsRevision }

  /** The disk after rolling back to `d`. */
  function Restored(d: Disk): Disk { Disk(ReadText(d.config), ReadText(d.extensions), d.agents) }

  /** The disk a save computes from the contents it replaces, and the archived directories. */
  ghost function Candidate(d: Disk, doc: Document): Option<(Disk, Tree)> {
    match doc.build(d.config, d.extensions)
    case None => None
    case Some((config, extensions)) =>
      match Updated(d.agents, Stripped(doc.agents))
      case None => None
      case Some((agents, archived)) => Some((Disk(Some(config), Some(extensions), agents), archived))
  }

  class Store {
    var config: Option<string>
    var extensions: Option<string>
    var agents: Tree
    var backup: Option<Tree>
    var archived: Tree
    /** How many more operations on the disk succeed. */
    var allowed: nat

    function Value(): Disk reads this { Disk(config, extensions, agents) }

    constructor (d: Disk, operations: nat)
      ensures Value() == d && allowed == operations && backup == None && archived == map[]
    {
      config, extensions, agents, backup, archived, allowed := d.config, d.extensions, d.agents, None, map[], operations;
    }

    /** One operation on the disk, which may fail. */
    method Attempt() returns (ok: bool)
      modifies this`allowed
      ensures ok <==> old(allowed) > 0
    {
      ok := allowed > 0;
      if ok { allowed := allowed - 1; }
    }

    /** One turn of the loop over the agents: rename, create, write the settings, write or delete the soul. */
    method PlaceAgent(existing: set<string>, a: Agent) returns (ok: bool)
      modifies this`agents, this`allowed
      ensures ok ==> Some(agents) == AgentStep(old(agents), existing, a)
    {
      if a.original != "" && a.original != a.name && a.original in existing {
        ok := Attempt();
        if !ok || a.original !in agents || (a.name in agents && agents[a.name] != Folder(map[])) { return false; }
        agents := (agents - {a.original})[a.name := agents[a.original]];
      }
      ok := Attempt();
      if !ok || (a.name in agents && agents[a.name].File?) { return false; }
      if a.name !in agents { agents := agents[a.name := Folder(map[])]; }
      ghost var made, files := agents, agents[a.name].files;
      ok := Attempt();
      if !ok { return; }
      agents := agents[a.name := Folder(agents[a.name].files[CONFIG_FILE := a.yaml])];
      ok := Attempt();
      if !ok { return; }
      var soul := RightStrip(a.soul);
      var before := agents[a.name].files;
      agents := agents[a.name := Folder(if soul != "" then before[SOUL_FILE := soul + "\n"] else before - {SOUL_FILE})];
      Overwritten(made, a.name, Folder(before), Folder(Written(files, a)));
    }

    method PlaceAgents(list: seq<Agent>) returns (ok: bool)
      modifies this`agents, this`allowed
      ensures ok ==> Some(agents) == AgentLoop(old(agents), list)
    {
      var existing := Folders(agents);
      for i := 0 to |list|
        invariant Some(agents) == AgentLoop(old(agents), list[..i])
      {
        assert list[..i + 1][..i] == list[..i];
        ok := PlaceAgent(existing, list[i]);
        if !ok { return; }
      }
      assert list[..|list|] == list;
      ok := true;
    }

    /** Moves the directories `gone` to the archive, in any order. */
    method ArchiveAll(gone: set<string>) returns (ok: bool)
      requires archived == map[]
      modifies this`agents, this`archived, this`allowed
      ensures ok ==> agents == old(agents) - gone
      ensures ok ==> archived == map n | n in gone && n in old(agents) :: old(agents)[n]
    {
      ghost var start := agents;
      var rest := gone;
      while rest != {}
        invariant rest <= gone && agents == start - (gone - rest)
        invariant archived == map n | n in gone - rest && n in start :: start[n]
        decreases rest
      {
        var n :| n in rest;
        ok := Attempt();
        if !ok { return; }
        if n in agents { archived, agents := archived[n := agents[n]], agents - {n}; }
        rest := rest - {n};
      }
      ok := true;
    }

    /** The part of a save that may leave the disk half written. */
    method WriteAll(newConfig: string, newExtensions: string, list: seq<Agent>) returns (ok: bool)
      requires archived == map[]
      modifies this`config, this`extensions, this`agents, this`archived, this`allowed
      ensures ok ==> config == Some(newConfig) && extensions == Some(newExtensions)
      ensures ok ==> Some((agents, archived)) == Updated(old(agents), list)
    {
      ok := Attempt();
      if !ok { return; }
      config := Some(newConfig);
      ok := Attempt();
      if !ok { return; }
      extensions := Some(newExtensions);
      var gone := Folders(agents) - Originals(list);
      ok := PlaceAgents(list);
      if !ok { return; }
      ok := ArchiveAll(gone);
    }

    /** Puts the two texts and the agents back. */
    method RollBack(oldConfig: Option<string>, oldExtensions: Option<string>, operations: nat) returns (ok: bool)
      requires backup.Some?
      modifies this`config, this`extensions, this`agents, this`allowed
      ensures ok ==> Value() == Disk(oldConfig, oldExtensions, backup.value)
      ensures operations >= 4 ==> ok
    {
      allowed := operations;
      if allowed == 0 { return false; }
      allowed, config := allowed - 1, oldConfig;
      if allowed == 0 { return false; }
      allowed, extensions := allowed - 1, oldExtensions;
      if allowed == 0 { return false; }
      allowed, agents := allowed - 1, map[];
      if allowed == 0 { return false; }
      allowed, agents := allowed - 1, backup.value;
      ok := true;
    }

    /** `_save_locked`. After the backup, `allowed` operations of the save and `forRollback`
        operations of the rollback succeed. */
    method Save(doc: Document, forRollback: nat) returns (r: Outcome)
      requires archived == map[]
      modifies this
      ensures !(Current(old(Value()), doc) && doc.build(old(config), old(extensions)).Some? && Acceptable(doc.rules, doc.agents)
                && Unobstructed(old(agents), Stripped(doc.agents)))
              <==> r == Refused
      ensures r == Refused ==> Value() == old(Value()) && backup == old(backup) && archived == map[]
      ensures r == Saved ==> Candidate(old(Value()), doc) == Some((Value(), archived))
      ensures r == RolledBack ==> Value() == Restored(old(Value()))
      ensures r != Refused ==> backup == Some(old(agents))
      ensures r == RollbackFailed ==> forRollback < 4
    {
      if config != doc.configRevision || extensions != doc.extensionsRevision { return Refused; }
      var texts := doc.build(config, extensions);
      if texts == None { return Refused; }
      var list := ValidatedAgents(doc.rules, doc.agents);
      if list == None { return Refused; }
      var free := PreCheck(agents, list.value);
      if !free { return Refused; }
      backup := Some(agents);
      var oldConfig, oldExtensions := ReadText(config), ReadText(extensions);
      var ok := WriteAll(texts.value.0, texts.value.1, list.value);
      if ok { return Saved; }
      ok := RollBack(oldConfig, oldExtensions, forRollback);
      r := if ok then RolledBack else RollbackFailed;
    }
  }

  // ---- what a rollback means ----

  /** A rollback gives back the same text, and the same bytes exactly if there was no carriage return. */
  lemma RolledBackText(d: Disk)
    ensures ReadText(Restored(d).config) == ReadText(d.config) && ReadText(Restored(d).extensions) == ReadText(d.extensions)
    ensures Restored(d) == d <==> (d.config.Some? ==> '\r' !in d.config.value) && (d.extensions.Some? ==> '\r' !in d.extensions.value)
  {
    if d.config.Some? { UniversalIsPlain(d.config.value); UniversalIsPlain(Universal(d.config.value)); }
    if d.extensions.Some? { UniversalIsPlain(d.extensions.value); UniversalIsPlain(Universal(d.extensions.value)); }
  }

  /** A line that ends in a carriage return comes back without it. */
  lemma CarriageReturnIsLost()
    ensures Restored(Disk(Some("a\r\nb"), None, map[])) == Disk(Some("a\nb"), None, map[])
  {
    var s, rest := "a\r\nb", "\r\nb";
    assert s[0] == 'a' && s[1..] == rest && rest[0] == '\r' && rest[1] == '\n' && rest[2..] == "b" && "b"[1..] == "";
    assert Universal("b") == ['b'] + "" == "b";
    assert Universal(rest) == "\n" + "b" == "\nb";
    assert Universal(s) == ['a'] + "\nb" == "a\nb";
  }

  /** A save that succeeds updates the agents exactly if and only if directories that agents share
      are first moved away and then named again; nothing else can go wrong. */
  lemma SavedIsExact(d: Disk, doc: Document, after: Disk, archived: Tree)
    requires Candidate(d, doc) == Some((after, archived)) && Acceptable(doc.rules, doc.agents)
    requires Unobstructed(d.agents, Stripped(doc.agents))
    ensures UpdatedExactly(d.agents, Stripped(doc.agents), after.agents, archived) <==> Compatible(d.agents, Stripped(doc.agents))
  {
    AcceptedNamesDiffer(doc.rules, doc.agents);
    UpdatesExactly(d.agents, Stripped(doc.agents));
  }
}
