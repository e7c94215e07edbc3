/** The inactive-thread cleanup protocol (app/thread_cleanup.py): what each database
    transaction does, and what every interleaving of transactions by any number of
    workers and foreground callers keeps.

    Times are instants in microseconds; `Timestamps.TextDecidesTime` justifies
    comparing instants where the SQL compares texts. */
module CleanupProtocol {
  import opened Text

  type ThreadId = string

  const JOB_LEASE: int := 600_000_000

  const THREAD_CLAIM: int := 600_000_000

  /** A cleanup job: a fresh identifier, the instant `start_run` began and the inactivity
      period in force, which fix the cutoff for the whole job. */
  datatype Job = Job(id: nat, startedAt: int, inactiveFor: int) {
    function Cutoff(): int { startedAt - inactiveFor }
  }

  /** A row of `thread_activity`. */
  datatype Row = Row(lastActivity: int, prot: bool, claimedBy: Option<Job>, claimExpires: Option<int>)

  datatype Lease = Lease(owner: Job, expires: int)

  datatype Status = Pending | Running | Finished(outcome: string) | Abandoned

  /** A row of `thread_cleanup_runs`. */
  datatype RunRecord =
    RunRecord(status: Status, current: Option<ThreadId>, scanned: nat, deleted: nat, skipped: nat, failed: nat)

  datatype Db = Db(rows: map<ThreadId, Row>, lease: Option<Lease>, runs: map<Job, RunRecord>)

  // ---- transactions ----

  /** A touch is refused while the thread is claimed and the claim has not expired. */
  predicate TouchRefused(db: Db, t: ThreadId, now: int) {
    && t in db.rows && db.rows[t].claimedBy.Some?
    && (db.rows[t].claimExpires.None? || db.rows[t].claimExpires.value > now)
  }

  function Touched(db: Db, t: ThreadId, stamp: int): Row {
    if t in db.rows
    then var row := db.rows[t];
         Row(if stamp > row.lastActivity then stamp else row.lastActivity, row.prot, None, None)
    else Row(stamp, false, None, None)
  }

  function Touch(db: Db, t: ThreadId, stamp: int, now: int): Db {
    if t == "" || TouchRefused(db, t, now) then db else db.(rows := db.rows[t := Touched(db, t, stamp)])
  }

  function Forget(db: Db, t: ThreadId): Db { db.(rows := db.rows - {t}) }

  /** `INSERT OR IGNORE` of one backfill batch; a checkpoint whose time cannot be decoded
      is indexed as protected, dated `now`. */
  function Backfill(db: Db, found: map<ThreadId, Option<int>>, now: int): Db {
    db.(rows := (map t | t in found ::
                   match found[t] case None => Row(now, true, None, None) case Some(at) => Row(at, false, None, None))
                + db.rows)
  }

  predicate Unclaimed(row: Row, now: int) {
    row.claimedBy.None? || row.claimExpires.None? || row.claimExpires.value <= now
  }

  predicate Claimable(db: Db, t: ThreadId, job: Job, now: int) {
    && t in db.rows && !db.rows[t].prot && db.rows[t].lastActivity < job.Cutoff()
    && Unclaimed(db.rows[t], now)
  }

  function SetClaim(db: Db, t: ThreadId, job: Job, now: int): Db
    requires t in db.rows
  {
    db.(rows := db.rows[t := db.rows[t].(claimedBy := Some(job), claimExpires := Some(now + THREAD_CLAIM))])
  }

  function ClaimThread(db: Db, t: ThreadId, job: Job, now: int): Db {
    if Claimable(db, t, job, now) then SetClaim(db, t, job, now) else db
  }

  predicate Holds(db: Db, t: ThreadId, job: Job) { t in db.rows && db.rows[t].claimedBy == Some(job) }

  function RenewClaim(db: Db, t: ThreadId, job: Job, now: int): Db {
    if Holds(db, t, job) then SetClaim(db, t, job, now) else db
  }

  function ReleaseClaim(db: Db, t: ThreadId, job: Job): Db {
    if Holds(db, t, job)
    then db.(rows := db.rows[t := db.rows[t].(claimedBy := None, claimExpires := None)])
    else db
  }

  predicate Owns(db: Db, job: Job) { db.lease.Some? && db.lease.value.owner == job }

  predicate LeaseFree(db: Db, now: int) { db.lease.None? || db.lease.value.expires <= now }

  /** The claims a takeover removes: all those of the previous owner, expired or not, and
      every expired claim. */
  predicate ClearedBy(row: Row, previous: Option<Job>, now: int) {
    || (row.claimedBy.Some? && row.claimedBy == previous)
    || (row.claimedBy.Some? && row.claimExpires.Some? && row.claimExpires.value <= now)
  }

  function Acquire(db: Db, job: Job, now: int): Db {
    if !LeaseFree(db, now) then db else
    var previous := if db.lease.Some? then Some(db.lease.value.owner) else None;
    Db(map t | t in db.rows :: if ClearedBy(db.rows[t], previous, now)
                               then db.rows[t].(claimedBy := None, claimExpires := None) else db.rows[t],
       Some(Lease(job, now + JOB_LEASE)),
       if previous.Some? && previous.value in db.runs
          && db.runs[previous.value].status in {Pending, Running}
       then db.runs[previous.value := db.runs[previous.value].(status := Abandoned, current := None)]
       else db.runs)
  }

  function RenewLease(db: Db, job: Job, now: int): Db {
    if Owns(db, job) then db.(lease := Some(Lease(job, now + JOB_LEASE))) else db
  }

  function ReleaseLease(db: Db, job: Job): Db {
    if Owns(db, job) then db.(lease := None) else db
  }

  function InsertRun(db: Db, job: Job, record: RunRecord): Db {
    if job in db.runs then db else db.(runs := db.runs[job := record])
  }

  function UpdateRun(db: Db, job: Job, record: RunRecord): Db {
    if job in db.runs && db.runs[job].status != Abandoned then db.(runs := db.runs[job := record]) else db
  }

  // ---- interleavings ----

  /** One atomic step of any worker or caller. A `reading` is a clock value taken before the
      transaction got the write lock, so it may be older than the clock when it commits. */
  datatype Step =
    | Tick(to: int)
    | TouchStep(t: ThreadId, stamp: int)
    | ForgetStep(t: ThreadId)
    | BackfillStep(found: map<ThreadId, Option<int>>, reading: int)
    | ClaimStep(t: ThreadId, job: Job, reading: int)
    | RenewClaimStep(t: ThreadId, job: Job, reading: int)
    | ReleaseClaimStep(t: ThreadId, job: Job)
    | AcquireStep(job: Job, reading: int)
    | RenewLeaseStep(job: Job, reading: int)
    | ReleaseLeaseStep(job: Job)
    | InsertRunStep(job: Job, record: RunRecord)
    | UpdateRunStep(job: Job, record: RunRecord)

  datatype World = World(clock: int, db: Db)

  predicate Enabled(w: World, s: Step) {
    match s
    case Tick(to) => to >= w.clock
    case BackfillStep(_, r) => r <= w.clock
    case ClaimStep(_, j, r) => r <= w.clock && j.startedAt <= r
    case RenewClaimStep(_, _, r) => r <= w.clock
    case AcquireStep(_, r) => r <= w.clock
    case RenewLeaseStep(_, r) => r <= w.clock
    case _ => true
  }

  function Apply(w: World, s: Step): World {
    match s
    case Tick(to) => w.(clock := to)
    case TouchStep(t, stamp) => w.(db := Touch(w.db, t, stamp, w.clock))
    case ForgetStep(t) => w.(db := Forget(w.db, t))
    case BackfillStep(found, r) => w.(db := Backfill(w.db, found, r))
    case ClaimStep(t, j, r) => w.(db := ClaimThread(w.db, t, j, r))
    case RenewClaimStep(t, j, r) => w.(db := RenewClaim(w.db, t, j, r))
    case ReleaseClaimStep(t, j) => w.(db := ReleaseClaim(w.db, t, j))
    case AcquireStep(j, r) => w.(db := Acquire(w.db, j, r))
    case RenewLeaseStep(j, r) => w.(db := RenewLease(w.db, j, r))
    case ReleaseLeaseStep(j) => w.(db := ReleaseLease(w.db, j))
    case InsertRunStep(j, record) => w.(db := InsertRun(w.db, j, record))
    case UpdateRunStep(j, record) => w.(db := UpdateRun(w.db, j, record))
  }

  predicate StepAt(ws: seq<World>, steps: seq<Step>, i: nat)
    requires i < |steps| && |ws| == |steps| + 1
  {
    Enabled(ws[i], steps[i]) && ws[i + 1] == Apply(ws[i], steps[i])
  }

  /** `ws` are the successive states of a run of `steps`. */
  ghost predicate IsRun(ws: seq<World>, steps: seq<Step>) {
    && |ws| == |steps| + 1
    && forall i: nat :: i < |steps| ==> StepAt(ws, steps, i)
  }

  // ---- claims rest only on inactive, unprotected rows ----

  predicate RowSound(row: Row) {
    && (row.claimedBy.Some? <==> row.claimExpires.Some?)
    && (row.claimedBy.Some? ==> !row.prot && row.lastActivity < row.claimedBy.value.Cutoff())
  }

  ghost predicate Sound(db: Db) { forall t :: t in db.rows ==> RowSound(db.rows[t]) }

  lemma {:induction false} ClaimedRowsAreInactive(ws: seq<World>, steps: seq<Step>, n: nat)
    requires IsRun(ws, steps) && Sound(ws[0].db) && n < |ws|
    ensures Sound(ws[n].db)
    decreases n
  {
    if n > 0 {
      ClaimedRowsAreInactive(ws, steps, n - 1);
      assert StepAt(ws, steps, n - 1);
    }
  }

  /** Exactly an unexpired claim refuses a touch; an accepted one leaves the thread indexed,
      unclaimed, as protected as before and never less recent; other rows are untouched. */
  lemma TouchOutcome(db: Db, t: ThreadId, stamp: int, now: int)
    requires Sound(db) && t != ""
    ensures var after := Touch(db, t, stamp, now);
            var claimed := t in db.rows && db.rows[t].claimedBy.Some? && db.rows[t].claimExpires.value > now;
            && (claimed ==> after == db)
            && (!claimed ==>
                  && t in after.rows && after.rows[t].claimedBy == None && after.rows[t].lastActivity >= stamp
                  && (t in db.rows ==> after.rows[t].prot == db.rows[t].prot
                                       && after.rows[t].lastActivity >= db.rows[t].lastActivity))
            && after.rows - {t} == db.rows - {t} && after.lease == db.lease && after.runs == db.runs
  {
    assert t in db.rows ==> RowSound(db.rows[t]);
  }

  /** A thread whose age could not be read is never cleaned up: once backfilled as protected, its
      row stays protected and unclaimed until someone forgets it. */
  lemma {:induction false} UndatedIsNeverClaimed(ws: seq<World>, steps: seq<Step>, t: ThreadId, a: nat, b: nat)
    requires IsRun(ws, steps) && Sound(ws[0].db) && a < b <= |steps|
    requires steps[a].BackfillStep? && t in steps[a].found && steps[a].found[t] == None && t !in ws[a].db.rows
    requires forall i :: a < i < b ==> steps[i] != ForgetStep(t)
    ensures t in ws[b].db.rows && ws[b].db.rows[t].prot && ws[b].db.rows[t].claimedBy == None
    decreases b
  {
    assert StepAt(ws, steps, b - 1);
    if a + 1 < b {
      UndatedIsNeverClaimed(ws, steps, t, a, b - 1);
      ClaimedRowsAreInactive(ws, steps, b - 1);
    }
  }

  // ---- the lease ----

  /** Whoever acts, an unexpired lease leaves its owner only by its own release. */
  lemma UnexpiredLeaseIsKept(w: World, s: Step)
    requires Enabled(w, s)
    requires w.db.lease.Some? && w.clock < w.db.lease.value.expires
    requires s != ReleaseLeaseStep(w.db.lease.value.owner)
    ensures Owns(Apply(w, s).db, w.db.lease.value.owner)
  {}

  /** The reading behind the lease's expiry: the last renewal by `job` before state `i`, or
      the acquisition at step `a`. */
  function LeaseReading(steps: seq<Step>, a: nat, i: nat, job: Job): int
    requires a < i <= |steps| && steps[a].AcquireStep?
    decreases i
  {
    if i == a + 1 then steps[a].reading
    else if steps[i - 1].RenewLeaseStep? && steps[i - 1].job == job then steps[i - 1].reading
    else LeaseReading(steps, a, i - 1, job)
  }

  /** `job` acquires the lease at step `a`, does not release it before state `e`, and always
      renews before `JOB_LEASE` has passed since the reading of its last renewal. */
  ghost predicate LeaseRenewedOnTime(ws: seq<World>, steps: seq<Step>, a: nat, e: nat, job: Job) {
    && IsRun(ws, steps) && a < e <= |steps|
    && steps[a].AcquireStep? && steps[a].job == job && LeaseFree(ws[a].db, steps[a].reading)
    && (forall i :: a < i < e ==> steps[i] != ReleaseLeaseStep(job))
    && (forall i :: a < i <= e ==> ws[i].clock < LeaseReading(steps, a, i, job) + JOB_LEASE)
  }

  /** One step under an unexpired lease: it stays, and only its owner's renewal moves it. */
  lemma LeaseAfterStep(w: World, s: Step, job: Job, reading: int)
    requires Enabled(w, s) && s != ReleaseLeaseStep(job)
    requires w.db.lease == Some(Lease(job, reading + JOB_LEASE)) && w.clock < reading + JOB_LEASE
    ensures Apply(w, s).db.lease ==
              Some(Lease(job, (if s.RenewLeaseStep? && s.job == job then s.reading else reading) + JOB_LEASE))
  {}

  /** A job that renews on time is not displaced before it releases. */
  lemma {:induction false} LeaseIsHeld(ws: seq<World>, steps: seq<Step>, a: nat, e: nat, job: Job, i: nat)
    requires LeaseRenewedOnTime(ws, steps, a, e, job) && a < i <= e
    ensures ws[i].db.lease == Some(Lease(job, LeaseReading(steps, a, i, job) + JOB_LEASE))
    ensures ws[i].clock < LeaseReading(steps, a, i, job) + JOB_LEASE
    decreases i
  {
    assert StepAt(ws, steps, i - 1);
    if i > a + 1 {
      LeaseIsHeld(ws, steps, a, e, job, i - 1);
      LeaseAfterStep(ws[i - 1], steps[i - 1], job, LeaseReading(steps, a, i - 1, job));
    }
  }

  lemma {:induction false} AcquiredBefore(ws: seq<World>, steps: seq<Step>, job: Job, a: nat) returns (k: nat)
    requires IsRun(ws, steps) && a < |ws| && !Owns(ws[0].db, job) && Owns(ws[a].db, job)
    ensures k < a && steps[k].AcquireStep? && steps[k].job == job
    decreases a
  {
    assert StepAt(ws, steps, a - 1);
    if Owns(ws[a - 1].db, job) {
      k := AcquiredBefore(ws, steps, job, a - 1);
    } else {
      k := a - 1;
    }
  }

  lemma {:induction false} StaysLost(ws: seq<World>, steps: seq<Step>, job: Job, k: nat, b: nat, c: nat)
    requires IsRun(ws, steps) && k < b <= c < |ws| && !Owns(ws[b].db, job)
    requires steps[k].AcquireStep? && steps[k].job == job
    requires forall i, k :: 0 <= i < k < |steps| && steps[i].AcquireStep? && steps[i].job == job
                            ==> !(steps[k].AcquireStep? && steps[k].job == job)
    ensures !Owns(ws[c].db, job)
    decreases c
  {
    if b < c {
      StaysLost(ws, steps, job, k, b, c - 1);
      assert StepAt(ws, steps, c - 1);
      assert !(steps[c - 1].AcquireStep? && steps[c - 1].job == job);
    }
  }

  /** `start_run` tries to acquire once per job identifier. Once lost or released, the lease
      never comes back to the job: its ownership is one contiguous interval. */
  lemma {:induction false} OwnershipIsOneInterval(ws: seq<World>, steps: seq<Step>, job: Job, a: nat, b: nat, c: nat)
    requires IsRun(ws, steps) && a <= b <= c < |ws|
    requires forall i, k :: 0 <= i < k < |steps| && steps[i].AcquireStep? && steps[i].job == job
                            ==> !(steps[k].AcquireStep? && steps[k].job == job)
    requires !Owns(ws[0].db, job) && Owns(ws[a].db, job) && !Owns(ws[b].db, job)
    ensures !Owns(ws[c].db, job)
  {
    var k := AcquiredBefore(ws, steps, job, a);
    StaysLost(ws, steps, job, k, b, c);
  }

  /** What a job that does not own the lease sends about it changes nothing. */
  lemma LostLeaseIsPowerless(db: Db, job: Job, now: int)
    requires !Owns(db, job)
    ensures RenewLease(db, job, now) == db && ReleaseLease(db, job) == db
  {}

  /** Once a job has lost or released its lease, all its later renewals and releases change nothing,
      however the run goes on. */
  lemma LostLeaseStaysPowerless(ws: seq<World>, steps: seq<Step>, job: Job, a: nat, b: nat, i: nat)
    requires IsRun(ws, steps) && a <= b <= i < |steps|
    requires forall i, k :: 0 <= i < k < |steps| && steps[i].AcquireStep? && steps[i].job == job
                            ==> !(steps[k].AcquireStep? && steps[k].job == job)
    requires !Owns(ws[0].db, job) && Owns(ws[a].db, job) && !Owns(ws[b].db, job)
    requires steps[i] == ReleaseLeaseStep(job) || (steps[i].RenewLeaseStep? && steps[i].job == job)
    ensures ws[i + 1] == ws[i]
  {
    OwnershipIsOneInterval(ws, steps, job, a, b, i);
    assert StepAt(ws, steps, i);
    LostLeaseIsPowerless(ws[i].db, job, if steps[i].RenewLeaseStep? then steps[i].reading else 0);
  }

  /** A successful takeover leaves no claim of the previous owner and no expired claim, keeps
      every other claim, and marks the previous owner's open run record abandoned. */
  lemma TakeoverClearsPreviousOwner(db: Db, job: Job, now: int)
    requires Sound(db) && db.lease.Some? && LeaseFree(db, now)
    ensures var after := Acquire(db, job, now); var previous := db.lease.value.owner;
            && Owns(after, job) && after.rows.Keys == db.rows.Keys
            && (forall t :: t in after.rows ==> after.rows[t].claimedBy != Some(previous))
            && (forall t :: t in after.rows && after.rows[t].claimedBy.Some? ==>
                  after.rows[t] == db.rows[t] && after.rows[t].claimExpires.value > now)
            && (forall t :: (t in db.rows && db.rows[t].claimedBy.Some? && db.rows[t].claimedBy.value != previous
                             && db.rows[t].claimExpires.value > now) ==> after.rows[t] == db.rows[t])
            && (previous in db.runs && db.runs[previous].status in {Pending, Running} ==>
                  after.runs[previous].status == Abandoned)
  {
    forall t | t in db.rows ensures RowSound(db.rows[t]) {}
  }

  /** An abandoned run record is final: the worker that lost its lease cannot overwrite it. */
  lemma {:induction false} AbandonedIsFinal(ws: seq<World>, steps: seq<Step>, job: Job, a: nat, b: nat)
    requires IsRun(ws, steps) && a <= b < |ws|
    requires job in ws[a].db.runs && ws[a].db.runs[job].status == Abandoned
    ensures job in ws[b].db.runs && ws[b].db.runs[job] == ws[a].db.runs[job]
    decreases b
  {
    if a < b {
      AbandonedIsFinal(ws, steps, job, a, b - 1);
      assert StepAt(ws, steps, b - 1);
    }
  }

  // ---- who holds claims ----

  ghost predicate OnlyOwnerClaims(db: Db) {
    forall t :: t in db.rows && db.rows[t].claimedBy.Some? ==> Owns(db, db.rows[t].claimedBy.value)
  }

  predicate SomeClaim(db: Db) { exists t :: t in db.rows && db.rows[t].claimedBy.Some? }

  /** A job claims without owning the lease, or gives the lease back while it holds claims. */
  predicate Breaks(w: World, s: Step) {
    || (s.ClaimStep? && !Owns(w.db, s.job) && Claimable(w.db, s.t, s.job, s.reading))
    || (s.ReleaseLeaseStep? && Owns(w.db, s.job) && SomeClaim(w.db))
  }

  /** Exactly those two steps end the state in which only the lease owner holds claims. */
  lemma OwnerClaimsStep(w: World, s: Step)
    requires Enabled(w, s) && OnlyOwnerClaims(w.db)
    ensures OnlyOwnerClaims(Apply(w, s).db) <==> !Breaks(w, s)
  {
    var after := Apply(w, s).db;
    if s.ClaimStep? && Claimable(w.db, s.t, s.job, s.reading) {
      assert after.rows[s.t].claimedBy == Some(s.job) && (Owns(after, s.job) <==> Owns(w.db, s.job));
    } else if s.ReleaseLeaseStep? && Owns(w.db, s.job) && SomeClaim(w.db) {
      var t :| t in w.db.rows && w.db.rows[t].claimedBy.Some?;
      assert t in after.rows && after.rows[t].claimedBy.Some?;
    }
  }

  /** Over a whole run: only the lease owner ever holds claims if and only if no job claims without
      owning the lease and none gives it back while it holds claims. */
  lemma {:induction false} OnlyOwnerClaimsExactly(ws: seq<World>, steps: seq<Step>, n: nat)
    requires IsRun(ws, steps) && OnlyOwnerClaims(ws[0].db) && n < |ws|
    ensures (forall i :: 0 <= i <= n ==> OnlyOwnerClaims(ws[i].db)) <==> forall i :: 0 <= i < n ==> !Breaks(ws[i], steps[i])
    decreases n
  {
    if n > 0 {
      OnlyOwnerClaimsExactly(ws, steps, n - 1);
      assert StepAt(ws, steps, n - 1);
      if OnlyOwnerClaims(ws[n - 1].db) { OwnerClaimsStep(ws[n - 1], steps[n - 1]); }
    }
  }

  /** "Only the lease owner holds claims" is not kept: after a takeover, the displaced job
      still claims, because claiming does not look at the lease. */
  lemma DisplacedJobStillClaims()
    ensures exists db: Db, t: ThreadId, j: Job, k: Job, now: int ::
              && j != k && Sound(db) && Owns(db, j) && LeaseFree(db, now)
              && Owns(Acquire(db, k, now), k)
              && Holds(ClaimThread(Acquire(db, k, now), t, j, now), t, j)
  {
    var j, k := Job(0, 1_000, 100), Job(1, 1_000, 100);
    var db := Db(map["t" := Row(0, false, None, None)], Some(Lease(j, 1_000)), map[]);
    assert Sound(db);
    assert LeaseFree(db, 1_000);
    var taken := Acquire(db, k, 1_000);
    assert taken.rows["t"] == Row(0, false, None, None);
    assert Claimable(taken, "t", j, 1_000);
    assert Holds(ClaimThread(taken, "t", j, 1_000), "t", j);
  }

  // ---- the claim during a deletion ----

  function ClaimReading(steps: seq<Step>, c: nat, i: nat, t: ThreadId, job: Job): int
    requires c < i <= |steps| && steps[c].ClaimStep?
    decreases i
  {
    if i == c + 1 then steps[c].reading
    else if steps[i - 1].RenewClaimStep? && steps[i - 1].t == t && steps[i - 1].job == job then steps[i - 1].reading
    else ClaimReading(steps, c, i - 1, t, job)
  }

  /** `job` claims `t` at step `c` while holding the lease since step `a`; up to state `e` it
      renews lease and claim on time and releases neither. */
  ghost predicate Tending(ws: seq<World>, steps: seq<Step>, a: nat, c: nat, e: nat, t: ThreadId, job: Job) {
    && LeaseRenewedOnTime(ws, steps, a, e, job) && a < c < e
    && steps[c].ClaimStep? && steps[c].t == t && steps[c].job == job && Claimable(ws[c].db, t, job, steps[c].reading)
    && (forall i :: c < i < e ==> steps[i] != ReleaseClaimStep(t, job))
    && (forall i :: c < i <= e ==> ws[i].clock < ClaimReading(steps, c, i, t, job) + THREAD_CLAIM)
  }

  predicate Forgotten(steps: seq<Step>, c: nat, e: nat, t: ThreadId)
    requires e <= |steps|
  {
    exists i :: c < i < e && steps[i] == ForgetStep(t)
  }

  /** The same, and nobody removes the row. */
  ghost predicate Deleting(ws: seq<World>, steps: seq<Step>, a: nat, c: nat, e: nat, t: ThreadId, job: Job) {
    Tending(ws, steps, a, c, e, t, job) && !Forgotten(steps, c, e, t)
  }

  /** One step under an unexpired claim and an unexpired lease of the same job. */
  lemma ClaimAfterStep(w: World, s: Step, t: ThreadId, job: Job, reading: int)
    requires Enabled(w, s) && s != ReleaseClaimStep(t, job) && s != ForgetStep(t)
    requires Owns(w.db, job) && w.clock < w.db.lease.value.expires
    requires Holds(w.db, t, job) && w.db.rows[t].claimExpires == Some(reading + THREAD_CLAIM)
    requires w.clock < reading + THREAD_CLAIM
    ensures var after := Apply(w, s).db;
            && Holds(after, t, job)
            && after.rows[t].claimExpires ==
                 Some((if s.RenewClaimStep? && s.t == t && s.job == job then s.reading else reading) + THREAD_CLAIM)
  {}

  /** Throughout such a deletion the claim stands, so every touch of the thread is refused. */
  lemma {:induction false} ClaimStands(
    ws: seq<World>, steps: seq<Step>, a: nat, c: nat, e: nat, t: ThreadId, job: Job, i: nat)
    requires Deleting(ws, steps, a, c, e, t, job) && c < i <= e
    ensures Holds(ws[i].db, t, job)
    ensures ws[i].db.rows[t].claimExpires == Some(ClaimReading(steps, c, i, t, job) + THREAD_CLAIM)
    ensures ws[i].clock < ClaimReading(steps, c, i, t, job) + THREAD_CLAIM
    ensures TouchRefused(ws[i].db, t, ws[i].clock)
    decreases i
  {
    assert StepAt(ws, steps, i - 1);
    if i > c + 1 {
      ClaimStands(ws, steps, a, c, e, t, job, i - 1);
      LeaseIsHeld(ws, steps, a, e, job, i - 1);
      ClaimAfterStep(ws[i - 1], steps[i - 1], t, job, ClaimReading(steps, c, i - 1, t, job));
    }
  }

  /** Nobody claims the thread anew after its row was forgotten. */
  ghost predicate NotReclaimed(ws: seq<World>, steps: seq<Step>, c: nat, e: nat, t: ThreadId)
    requires e <= |steps| <= |ws|
  {
    forall k, m :: c < k < m < e && steps[k] == ForgetStep(t) && steps[m].ClaimStep? && steps[m].t == t ==>
      !Claimable(ws[m].db, t, steps[m].job, steps[m].reading)
  }

  predicate Free(db: Db, t: ThreadId) { t in db.rows ==> db.rows[t].claimedBy == None }

  lemma FreeAfterStep(w: World, s: Step, t: ThreadId)
    requires Enabled(w, s) && Free(w.db, t)
    requires s.ClaimStep? && s.t == t ==> !Claimable(w.db, t, s.job, s.reading)
    ensures Free(Apply(w, s).db, t)
  {}

  lemma {:induction false} FreeAfterForget(ws: seq<World>, steps: seq<Step>, c: nat, k: nat, i: nat, t: ThreadId)
    requires IsRun(ws, steps) && c < k < i <= |steps| && steps[k] == ForgetStep(t) && NotReclaimed(ws, steps, c, i, t)
    ensures Free(ws[i].db, t)
    decreases i
  {
    assert StepAt(ws, steps, i - 1);
    if k < i - 1 {
      FreeAfterForget(ws, steps, c, k, i - 1, t);
      FreeAfterStep(ws[i - 1], steps[i - 1], t);
    }
  }

  /** The excluded step is the only one that matters: during the deletion a touch is accepted if
      and only if someone has forgotten the row. */
  lemma TouchAcceptedExactly(ws: seq<World>, steps: seq<Step>, a: nat, c: nat, e: nat, t: ThreadId, job: Job, i: nat)
    requires Tending(ws, steps, a, c, e, t, job) && c < i <= e && NotReclaimed(ws, steps, c, i, t)
    ensures TouchRefused(ws[i].db, t, ws[i].clock) <==> !Forgotten(steps, c, i, t)
  {
    if Forgotten(steps, c, i, t) {
      var k :| c < k < i && steps[k] == ForgetStep(t);
      FreeAfterForget(ws, steps, c, k, i, t);
    } else {
      assert Deleting(ws, steps, a, c, i, t, job);
      ClaimStands(ws, steps, a, c, i, t, job, i);
    }
  }
}
