/** The per-process guards of `ClientManager` (app/dependencies.py): running threads with
    their counts, archive reservations and deletions. */
module ThreadGuards {
  type ThreadId = string

  datatype Guards = Guards(
    running: set<ThreadId>, counts: map<ThreadId, nat>, archive: set<ThreadId>, deleting: set<ThreadId>)

  const NO_GUARDS := Guards({}, map[], {}, {})

  function Count(g: Guards, t: ThreadId): nat { if t in g.counts then g.counts[t] else 0 }

  predicate MayRun(g: Guards, t: ThreadId) { t !in g.deleting && t !in g.archive }

  predicate MayArchive(g: Guards, t: ThreadId) { t !in g.running && t !in g.deleting && t !in g.archive }

  predicate MayDelete(g: Guards, t: ThreadId) { t !in g.running && t !in g.deleting }

  function MarkRunning(g: Guards, t: ThreadId): Guards {
    if MayRun(g, t) then g.(counts := g.counts[t := Count(g, t) + 1], running := g.running + {t}) else g
  }

  function MarkDone(g: Guards, t: ThreadId): Guards {
    if Count(g, t) > 1 then g.(counts := g.counts[t := Count(g, t) - 1])
    else g.(counts := g.counts - {t}, running := g.running - {t})
  }

  function ReserveArchive(g: Guards, t: ThreadId): Guards {
    if MayArchive(g, t) then g.(archive := g.archive + {t}, running := g.running + {t}) else g
  }

  function ReleaseArchive(g: Guards, t: ThreadId): Guards {
    g.(archive := g.archive - {t}, running := if Count(g, t) == 0 then g.running - {t} else g.running)
  }

  function BeginDelete(g: Guards, t: ThreadId): Guards {
    if MayDelete(g, t) then g.(deleting := g.deleting + {t}) else g
  }

  function EndDelete(g: Guards, t: ThreadId): Guards { g.(deleting := g.deleting - {t}) }

  /** Runs, an archive and a deletion exclude each other on a thread; several runs may overlap;
      `running` is exactly what the counts and the reservations say. */
  ghost predicate Consistent(g: Guards) {
    && (forall t :: t in g.counts ==> g.counts[t] > 0)
    && g.running == g.counts.Keys + g.archive
    && g.counts.Keys !! g.archive && g.counts.Keys !! g.deleting && g.archive !! g.deleting
  }

  lemma KeepsMarks(g: Guards, t: ThreadId)
    requires Consistent(g)
    ensures Consistent(MarkRunning(g, t)) && (Count(g, t) > 0 ==> Consistent(MarkDone(g, t)))
  {}

  lemma KeepsReservations(g: Guards, t: ThreadId)
    requires Consistent(g)
    ensures Consistent(ReserveArchive(g, t)) && (t in g.archive ==> Consistent(ReleaseArchive(g, t)))
  {}

  /** Every change keeps the guards consistent, as long as only what was marked or reserved is
      given back. */
  lemma Keeps(g: Guards, t: ThreadId)
    requires Consistent(g)
    ensures Consistent(MarkRunning(g, t)) && Consistent(ReserveArchive(g, t))
    ensures Consistent(BeginDelete(g, t)) && Consistent(EndDelete(g, t))
    ensures Count(g, t) > 0 ==> Consistent(MarkDone(g, t))
    ensures t in g.archive ==> Consistent(ReleaseArchive(g, t))
  {
    KeepsMarks(g, t);
    KeepsReservations(g, t);
  }

  class ThreadGuardSet {
    var runningThreads: set<ThreadId>
    var runningThreadCounts: map<ThreadId, nat>
    var artifactArchiveThreads: set<ThreadId>
    var deletingThreads: set<ThreadId>

    ghost function Contents(): Guards reads this {
      Guards(runningThreads, runningThreadCounts, artifactArchiveThreads, deletingThreads)
    }

    constructor ()
      ensures Contents() == NO_GUARDS && Consistent(Contents())
    {
      runningThreads, runningThreadCounts, artifactArchiveThreads, deletingThreads := {}, map[], {}, {};
    }

    method MarkThreadRunning(t: ThreadId) returns (marked: bool)
      modifies this
      ensures Contents() == MarkRunning(old(Contents()), t) && (marked <==> MayRun(old(Contents()), t))
      ensures old(Consistent(Contents())) ==> Consistent(Contents())
    {
      if t in deletingThreads || t in artifactArchiveThreads { return false; }
      var count := if t in runningThreadCounts then runningThreadCounts[t] else 0;
      runningThreadCounts := runningThreadCounts[t := count + 1];
      runningThreads := runningThreads + {t};
      marked := true;
    }

    method MarkThreadDone(t: ThreadId)
      modifies this
      ensures Contents() == MarkDone(old(Contents()), t)
      ensures old(Consistent(Contents()) && Count(Contents(), t) > 0) ==> Consistent(Contents())
    {
      var count := if t in runningThreadCounts then runningThreadCounts[t] else 0;
      if count > 1 {
        runningThreadCounts := runningThreadCounts[t := count - 1];
      } else {
        runningThreadCounts := runningThreadCounts - {t};
        runningThreads := runningThreads - {t};
      }
    }

    method TryReserveArtifactArchive(t: ThreadId) returns (reserved: bool)
      modifies this
      ensures Contents() == ReserveArchive(old(Contents()), t) && (reserved <==> MayArchive(old(Contents()), t))
      ensures old(Consistent(Contents())) ==> Consistent(Contents())
    {
      if t in runningThreads || t in deletingThreads || t in artifactArchiveThreads { return false; }
      artifactArchiveThreads := artifactArchiveThreads + {t};
      runningThreads := runningThreads + {t};
      reserved := true;
    }

    method ReleaseArtifactArchive(t: ThreadId)
      modifies this
      ensures Contents() == ReleaseArchive(old(Contents()), t)
      ensures old(Consistent(Contents()) && t in artifactArchiveThreads) ==> Consistent(Contents())
    {
      artifactArchiveThreads := artifactArchiveThreads - {t};
      if t !in runningThreadCounts || runningThreadCounts[t] == 0 {
        runningThreads := runningThreads - {t};
      }
    }

    /** The state transition at the start of `delete_thread_completely`. */
    method TryBeginDelete(t: ThreadId) returns (admitted: bool)
      modifies this
      ensures Contents() == BeginDelete(old(Contents()), t) && (admitted <==> MayDelete(old(Contents()), t))
      ensures old(Consistent(Contents())) ==> Consistent(Contents())
    {
      if t in runningThreads || t in deletingThreads { return false; }
      deletingThreads := deletingThreads + {t};
      admitted := true;
    }

    /** Its `finally`. */
    method FinishDelete(t: ThreadId)
      modifies this
      ensures Contents() == EndDelete(old(Contents()), t)
      ensures old(Consistent(Contents())) ==> Consistent(Contents())
    {
      deletingThreads := deletingThreads - {t};
    }
  }
}
