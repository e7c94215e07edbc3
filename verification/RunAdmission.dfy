/** Foreground runs against deletions: several processes, each with its own guards
    (app/dependencies.py), over the shared cleanup database. */
module RunAdmission {
  import opened Text
  import P = CleanupProtocol
  import G = ThreadGuards

  datatype Phase = Admitted | Active | Ended

  /** A run of `start_client_stream_run`: its thread was touched at instant `since`. */
  datatype Run = Run(process: nat, thread: P.ThreadId, since: int, phase: Phase)

  datatype System = System(world: P.World, guards: map<nat, G.Guards>, runs: map<nat, Run>)

  /** A start whose touch is accepted may still be rejected, or find that its run exists, before
      anything is marked. */
  datatype Event =
    | Store(step: P.Step)
    | StartRun(run: nat, process: nat, thread: P.ThreadId, stamp: int)
    | RejectRun(run: nat)
    | MarkRun(run: nat)
    | EndRun(run: nat)
    | ReserveArchive(process: nat, thread: P.ThreadId)
    | ReleaseArchive(process: nat, thread: P.ThreadId)
    | BeginDelete(process: nat, thread: P.ThreadId)
    | EndDelete(process: nat, thread: P.ThreadId)

  function GuardsOf(s: System, p: nat): G.Guards { if p in s.guards then s.guards[p] else G.NO_GUARDS }

  /** Each successful mark, reservation and deletion start is undone once. */
  predicate Enabled(s: System, e: Event) {
    match e
    case Store(step) => P.Enabled(s.world, step)
    case StartRun(r, _, _, _) => r !in s.runs
    case RejectRun(r) => r in s.runs && s.runs[r].phase == Admitted
    case MarkRun(r) => r in s.runs && s.runs[r].phase == Admitted
    case EndRun(r) => r in s.runs && s.runs[r].phase == Active
    case ReleaseArchive(p, t) => t in GuardsOf(s, p).archive
    case EndDelete(p, t) => t in GuardsOf(s, p).deleting
    case _ => true
  }

  /** The database transaction an event carries; the others leave the database alone. */
  function StoreStep(s: System, e: Event): P.Step {
    match e
    case Store(step) => step
    case StartRun(_, _, t, stamp) => P.TouchStep(t, stamp)
    case _ => P.Tick(s.world.clock)
  }

  function SetGuards(s: System, p: nat, g: G.Guards): System { s.(guards := s.guards[p := g]) }

  function SetPhase(s: System, r: nat, phase: Phase): System
    requires r in s.runs
  {
    s.(runs := s.runs[r := s.runs[r].(phase := phase)])
  }

  function Apply(s: System, e: Event): System
    requires Enabled(s, e)
  {
    var s1 := s.(world := P.Apply(s.world, StoreStep(s, e)));
    match e
    case Store(_) => s1
    case StartRun(r, p, t, _) =>
      // a refused touch becomes ConflictError: no run
      if P.TouchRefused(s.world.db, t, s.world.clock) then s1
      else s1.(runs := s1.runs[r := Run(p, t, s.world.clock, Admitted)])
    case RejectRun(r) => SetPhase(s1, r, Ended)
    case MarkRun(r) =>
      var p, t := s.runs[r].process, s.runs[r].thread;
      SetGuards(SetPhase(s1, r, if G.MayRun(GuardsOf(s, p), t) then Active else Ended),
                p, G.MarkRunning(GuardsOf(s, p), t))
    case EndRun(r) =>
      var p, t := s.runs[r].process, s.runs[r].thread;
      SetGuards(SetPhase(s1, r, Ended), p, G.MarkDone(GuardsOf(s, p), t))
    case ReserveArchive(p, t) => SetGuards(s1, p, G.ReserveArchive(GuardsOf(s, p), t))
    case ReleaseArchive(p, t) => SetGuards(s1, p, G.ReleaseArchive(GuardsOf(s, p), t))
    case BeginDelete(p, t) => SetGuards(s1, p, G.BeginDelete(GuardsOf(s, p), t))
    case EndDelete(p, t) => SetGuards(s1, p, G.EndDelete(GuardsOf(s, p), t))
  }

  predicate StepAt(ss: seq<System>, es: seq<Event>, i: nat)
    requires i < |es| && |ss| == |es| + 1
  {
    Enabled(ss[i], es[i]) && ss[i + 1] == Apply(ss[i], es[i])
  }

  ghost predicate IsRun(ss: seq<System>, es: seq<Event>) {
    && |ss| == |es| + 1
    && forall i: nat :: i < |es| ==> StepAt(ss, es, i)
  }

  // ---- within one process ----

  function ActiveOn(s: System, p: nat, t: P.ThreadId): set<nat> {
    set r | r in s.runs && s.runs[r].phase == Active && s.runs[r].process == p && s.runs[r].thread == t
  }

  predicate GuardAgrees(s: System, p: nat, t: P.ThreadId) {
    G.Count(GuardsOf(s, p), t) == |ActiveOn(s, p, t)|
  }

  /** In every process the guards exclude each other, and each count is the number of runs
      now active there on that thread. */
  ghost predicate GuardsSound(s: System) {
    && (forall p :: G.Consistent(GuardsOf(s, p)))
    && (forall p, t :: GuardAgrees(s, p, t))
  }

  lemma ActiveAfter(s: System, e: Event, p: nat, t: P.ThreadId)
    requires Enabled(s, e)
    ensures var now, after := ActiveOn(s, p, t), ActiveOn(Apply(s, e), p, t);
            match e
            case MarkRun(r) =>
              after == if s.runs[r].process == p && s.runs[r].thread == t && G.MayRun(GuardsOf(s, p), t)
                       then now + {r} else now
            case EndRun(r) => after == if s.runs[r].process == p && s.runs[r].thread == t then now - {r} else now
            case _ => after == now
  {}

  lemma CountAfter(s: System, e: Event, p: nat, t: P.ThreadId)
    requires Enabled(s, e)
    ensures var g, g' := GuardsOf(s, p), GuardsOf(Apply(s, e), p);
            match e
            case MarkRun(r) => g' == if s.runs[r].process == p then G.MarkRunning(g, s.runs[r].thread) else g
            case EndRun(r) => g' == if s.runs[r].process == p then G.MarkDone(g, s.runs[r].thread) else g
            case _ => g'.counts == g.counts
  {}

  lemma CountStep(s: System, e: Event, p: nat, t: P.ThreadId)
    requires Enabled(s, e) && GuardAgrees(s, p, t)
    ensures GuardAgrees(Apply(s, e), p, t)
  {
    ActiveAfter(s, e, p, t);
    CountAfter(s, e, p, t);
    var now := ActiveOn(s, p, t);
    match e
    case MarkRun(r) => assert r !in now;
    case EndRun(r) =>
      if s.runs[r].process == p && s.runs[r].thread == t { assert r in now && |now - {r}| == |now| - 1; }
    case _ =>
  }

  lemma GuardsAfter(s: System, e: Event, p: nat)
    requires Enabled(s, e)
    ensures var g, g' := GuardsOf(s, p), GuardsOf(Apply(s, e), p);
            match e
            case Store(_) => g' == g
            case StartRun(_, _, _, _) => g' == g
            case RejectRun(_) => g' == g
            case MarkRun(r) => g' == if s.runs[r].process == p then G.MarkRunning(g, s.runs[r].thread) else g
            case EndRun(r) => g' == if s.runs[r].process == p then G.MarkDone(g, s.runs[r].thread) else g
            case ReserveArchive(q, t) => g' == if q == p then G.ReserveArchive(g, t) else g
            case ReleaseArchive(q, t) => g' == if q == p then G.ReleaseArchive(g, t) else g
            case BeginDelete(q, t) => g' == if q == p then G.BeginDelete(g, t) else g
            case EndDelete(q, t) => g' == if q == p then G.EndDelete(g, t) else g
  {}

  lemma CountedRun(s: System, r: nat)
    requires r in s.runs && s.runs[r].phase == Active && GuardAgrees(s, s.runs[r].process, s.runs[r].thread)
    ensures G.Count(GuardsOf(s, s.runs[r].process), s.runs[r].thread) > 0
  {
    assert r in ActiveOn(s, s.runs[r].process, s.runs[r].thread);
  }

  lemma ConsistentStep(s: System, e: Event, p: nat)
    requires Enabled(s, e) && G.Consistent(GuardsOf(s, p))
    requires forall t :: GuardAgrees(s, p, t)
    ensures G.Consistent(GuardsOf(Apply(s, e), p))
  {
    GuardsAfter(s, e, p);
    match e
    case Store(_) =>
    case StartRun(_, _, _, _) =>
    case RejectRun(_) =>
    case MarkRun(r) => G.Keeps(GuardsOf(s, p), s.runs[r].thread);
    case EndRun(r) =>
      G.Keeps(GuardsOf(s, p), s.runs[r].thread);
      if s.runs[r].process == p { CountedRun(s, r); }
    case ReserveArchive(_, t) => G.Keeps(GuardsOf(s, p), t);
    case ReleaseArchive(_, t) => G.Keeps(GuardsOf(s, p), t);
    case BeginDelete(_, t) => G.Keeps(GuardsOf(s, p), t);
    case EndDelete(_, t) => G.Keeps(GuardsOf(s, p), t);
  }

  lemma GuardsStep(s: System, e: Event)
    requires Enabled(s, e) && GuardsSound(s)
    ensures GuardsSound(Apply(s, e))
  {
    forall p, t ensures GuardAgrees(Apply(s, e), p, t) {
      assert GuardAgrees(s, p, t);
      CountStep(s, e, p, t);
    }
    forall p ensures G.Consistent(GuardsOf(Apply(s, e), p)) {
      forall t ensures GuardAgrees(s, p, t) {}
      ConsistentStep(s, e, p);
    }
  }

  lemma {:induction false} GuardsStaySound(ss: seq<System>, es: seq<Event>, n: nat)
    requires IsRun(ss, es) && GuardsSound(ss[0]) && n < |ss|
    ensures GuardsSound(ss[n])
    decreases n
  {
    if n > 0 {
      GuardsStaySound(ss, es, n - 1);
      assert StepAt(ss, es, n - 1);
      GuardsStep(ss[n - 1], es[n - 1]);
    }
  }

  /** No run is ever active in a process that is deleting or archiving its thread. */
  lemma RunsExcludeDeletionInProcess(ss: seq<System>, es: seq<Event>, n: nat, r: nat)
    requires IsRun(ss, es) && ss[0].guards == map[] && ss[0].runs == map[] && n < |ss|
    requires r in ss[n].runs && ss[n].runs[r].phase == Active
    ensures ss[n].runs[r].thread !in GuardsOf(ss[n], ss[n].runs[r].process).deleting
    ensures ss[n].runs[r].thread !in GuardsOf(ss[n], ss[n].runs[r].process).archive
    ensures ss[n].runs[r].thread in GuardsOf(ss[n], ss[n].runs[r].process).running
  {
    forall p, t ensures GuardAgrees(ss[0], p, t) {
      assert ActiveOn(ss[0], p, t) == {};
    }
    GuardsStaySound(ss, es, n);
    var p, t := ss[n].runs[r].process, ss[n].runs[r].thread;
    assert G.Consistent(GuardsOf(ss[n], p)) && GuardAgrees(ss[n], p, t);
    assert r in ActiveOn(ss[n], p, t);
  }

  // ---- across processes ----

  ghost function Worlds(ss: seq<System>): seq<P.World> {
    seq(|ss|, i requires 0 <= i < |ss| => ss[i].world)
  }

  ghost function StoreSteps(ss: seq<System>, es: seq<Event>): seq<P.Step>
    requires |ss| == |es| + 1
  {
    seq(|es|, i requires 0 <= i < |es| => StoreStep(ss[i], es[i]))
  }

  /** The database sees a run of the cleanup protocol. */
  lemma StoreRun(ss: seq<System>, es: seq<Event>)
    requires IsRun(ss, es)
    ensures P.IsRun(Worlds(ss), StoreSteps(ss, es))
  {
    var ws, steps := Worlds(ss), StoreSteps(ss, es);
    forall i: nat | i < |steps| ensures P.StepAt(ws, steps, i) {
      assert StepAt(ss, es, i);
    }
  }

  predicate Unfinished(s: System, r: nat, t: P.ThreadId) {
    r in s.runs && s.runs[r].thread == t && s.runs[r].phase != Ended
  }

  /** The index never dates a thread more than `lag` before the touch of an unfinished run,
      unless the row is protected or gone. */
  ghost predicate IndexCoversRuns(s: System, t: P.ThreadId, lag: nat) {
    && (forall r :: Unfinished(s, r, t) ==> s.runs[r].since <= s.world.clock)
    && (t in s.world.db.rows && !s.world.db.rows[t].prot ==>
          forall r :: Unfinished(s, r, t) ==> s.world.db.rows[t].lastActivity >= s.runs[r].since - lag)
  }

  /** A touch is stamped at most `lag` before it commits, and a backfilled row is not dated
      more than `lag` before the touch of a run that is still unfinished. */
  ghost predicate Timely(s: System, e: Event, t: P.ThreadId, lag: nat) {
    match StoreStep(s, e)
    case TouchStep(x, stamp) => x == t ==> stamp >= s.world.clock - lag
    case BackfillStep(found, _) =>
      t in found && t !in s.world.db.rows && found[t].Some? ==>
        forall r :: Unfinished(s, r, t) ==> found[t].value >= s.runs[r].since - lag
    case _ => true
  }

  lemma IndexStep(s: System, e: Event, t: P.ThreadId, lag: nat)
    requires Enabled(s, e) && t != "" && IndexCoversRuns(s, t, lag) && Timely(s, e, t, lag)
    ensures IndexCoversRuns(Apply(s, e), t, lag)
  {
    var s' := Apply(s, e);
    forall r | Unfinished(s', r, t)
      ensures s'.runs[r].since <= s'.world.clock
      ensures t in s'.world.db.rows && !s'.world.db.rows[t].prot ==>
                s'.world.db.rows[t].lastActivity >= s'.runs[r].since - lag
    {
      if !(e.StartRun? && e.run == r) { assert Unfinished(s, r, t); }
    }
  }

  lemma {:induction false} IndexStaysCovering(ss: seq<System>, es: seq<Event>, t: P.ThreadId, lag: nat, n: nat)
    requires IsRun(ss, es) && t != "" && n < |ss| && ss[0].runs == map[]
    requires forall i: nat :: i < n ==> Timely(ss[i], es[i], t, lag)
    ensures IndexCoversRuns(ss[n], t, lag)
    decreases n
  {
    if n > 0 {
      IndexStaysCovering(ss, es, t, lag, n - 1);
      assert StepAt(ss, es, n - 1);
      assert Timely(ss[n - 1], es[n - 1], t, lag);
      IndexStep(ss[n - 1], es[n - 1], t, lag);
    }
  }

  /** A successful claim means no unfinished run touched the thread within the inactivity
      period (less `lag`). */
  lemma ClaimFindsNoRecentRun(s: System, t: P.ThreadId, job: P.Job, reading: int, lag: nat, r: nat)
    requires IndexCoversRuns(s, t, lag) && P.Claimable(s.world.db, t, job, reading)
    requires job.startedAt <= reading <= s.world.clock && Unfinished(s, r, t)
    ensures s.world.clock - s.runs[r].since > job.inactiveFor - lag
  {}

  /** While cleanup deletes a thread's data no run of any process is under way on it: neither
      one admitted before the claim nor one started during the deletion. The deletion spans
      states c + 1 to e (claim, lease and claim renewed on time, the row not yet forgotten);
      every run still unfinished when the claim was made started less than the inactivity
      period (less the stamping lag) before. */
  lemma {:induction false} NoRunDuringCleanupDeletion(
    ss: seq<System>, es: seq<Event>, a: nat, c: nat, e: nat, t: P.ThreadId, job: P.Job, lag: nat, i: nat, r: nat)
    requires IsRun(ss, es) && ss[0].runs == map[] && t != ""
    requires P.Deleting(Worlds(ss), StoreSteps(ss, es), a, c, e, t, job)
    requires forall k: nat :: k < c ==> Timely(ss[k], es[k], t, lag)
    requires forall q :: Unfinished(ss[c], q, t) ==> ss[c].world.clock - ss[c].runs[q].since <= job.inactiveFor - lag
    requires c <= i <= e
    ensures !Unfinished(ss[i], r, t)
    decreases i
  {
    var ws, steps := Worlds(ss), StoreSteps(ss, es);
    StoreRun(ss, es);
    if i == c {
      IndexStaysCovering(ss, es, t, lag, c);
      assert P.StepAt(ws, steps, c);
    } else {
      NoRunDuringCleanupDeletion(ss, es, a, c, e, t, job, lag, i - 1, r);
      assert StepAt(ss, es, i - 1);
      if i - 1 > c {
        P.ClaimStands(ws, steps, a, c, e, t, job, i - 1);
      } else {
        assert steps[c].ClaimStep?;
      }
    }
  }

  /** A run start against a standing claim is a conflict: it leaves the system as it was. */
  lemma StandingClaimMeansConflict(s: System, r: nat, p: nat, t: P.ThreadId, stamp: int)
    requires r !in s.runs
    ensures t != "" && P.TouchRefused(s.world.db, t, s.world.clock) ==> Apply(s, StartRun(r, p, t, stamp)) == s
    ensures !P.TouchRefused(s.world.db, t, s.world.clock) ==>
              r in Apply(s, StartRun(r, p, t, stamp)).runs
  {}

  /** During a cleanup deletion of its thread, a run start is admitted if and only if someone has
      forgotten the row; otherwise it is a conflict and leaves the system as it was. */
  lemma RunAdmittedExactly(
    ss: seq<System>, es: seq<Event>, a: nat, c: nat, e: nat, t: P.ThreadId, job: P.Job, i: nat, r: nat)
    requires IsRun(ss, es) && P.Tending(Worlds(ss), StoreSteps(ss, es), a, c, e, t, job)
    requires c < i <= e && i < |es| && t != "" && P.NotReclaimed(Worlds(ss), StoreSteps(ss, es), c, i, t)
    requires es[i].StartRun? && es[i].run == r && es[i].thread == t
    ensures r in ss[i + 1].runs <==> P.Forgotten(StoreSteps(ss, es), c, i, t)
    ensures !P.Forgotten(StoreSteps(ss, es), c, i, t) ==> ss[i + 1] == ss[i]
  {
    assert StepAt(ss, es, i);
    P.TouchAcceptedExactly(Worlds(ss), StoreSteps(ss, es), a, c, e, t, job, i);
    StandingClaimMeansConflict(ss[i], r, es[i].process, t, es[i].stamp);
  }

  /** Without the proviso on forgotten rows the statement is false: a manual deletion of the
      same thread in another process forgets the claimed row, and a run of that process
      becomes active while the first process is still deleting. */
  lemma ManualDeletionLetsRunIn(job: P.Job, clock: int)
    ensures exists s: System, es: seq<Event>, ss: seq<System> ::
              && IsRun(ss, es) && ss[0] == s && P.Holds(s.world.db, "t", job) && P.Owns(s.world.db, job)
              && s.world.clock == clock
              && (forall i :: 0 <= i < |ss| ==> "t" in GuardsOf(ss[i], 0).deleting)
              && 7 in ss[|ss| - 1].runs && ss[|ss| - 1].runs[7] == Run(1, "t", clock, Active)
  {
    var row := P.Row(job.Cutoff() - 1, false, Some(job), Some(clock + P.THREAD_CLAIM));
    var db := P.Db(map["t" := row], Some(P.Lease(job, clock + P.JOB_LEASE)), map[]);
    var s0 := System(P.World(clock, db), map[0 := G.NO_GUARDS.(deleting := {"t"})], map[]);
    var es := [Store(P.ForgetStep("t")), StartRun(7, 1, "t", clock), MarkRun(7)];
    var s1 := Apply(s0, es[0]);
    var s2 := Apply(s1, es[1]);
    var s3 := Apply(s2, es[2]);
    var ss := [s0, s1, s2, s3];
    assert IsRun(ss, es) by {
      assert StepAt(ss, es, 0) && StepAt(ss, es, 1) && StepAt(ss, es, 2);
    }
    assert s3.runs[7] == Run(1, "t", clock, Active);
    assert ss[|ss| - 1] == s3;
  }
}
