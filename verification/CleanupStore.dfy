/** The database access methods of `ThreadCleanupService`, one transaction each. Every method
    is proved to perform the transaction that the protocol reasons about. */
module CleanupStore {
  import opened Text
  import P = CleanupProtocol

  /** `thread_cleanup_meta`: whether the backfill is complete, and else how far it has come. */
  datatype Meta = Meta(complete: bool, cursor: P.ThreadId)

  /** Threads with a checkpoint behind the cursor that have no row. */
  function Pending(checkpoints: map<P.ThreadId, Option<int>>, rows: map<P.ThreadId, P.Row>, cursor: P.ThreadId): set<P.ThreadId> {
    set t | t in checkpoints && t !in rows && Less(cursor, t)
  }

  /** All checkpointed threads up to the cursor have a row; all of them once the backfill is complete. */
  ghost predicate Covered(checkpoints: map<P.ThreadId, Option<int>>, rows: map<P.ThreadId, P.Row>, meta: Meta) {
    forall t :: t in checkpoints && (meta.complete || !Less(meta.cursor, t)) ==> t in rows
  }

  /** The first `n` threads of `pending`, at least one. */
  ghost predicate IsBatch(batch: set<P.ThreadId>, pending: set<P.ThreadId>, n: nat) {
    && batch <= pending
    && (|batch| == (if n == 0 then 1 else n) || batch == pending)
    && |batch| <= (if n == 0 then 1 else n)
    && forall x, y :: x in batch && y in pending - batch ==> Less(x, y)
  }

  ghost predicate IsLast(t: P.ThreadId, batch: set<P.ThreadId>) { t in batch && forall x :: x in batch ==> x == t || Less(x, t) }

  method FirstOf(s: set<P.ThreadId>) returns (first: P.ThreadId)
    requires s != {}
    ensures first in s && forall x :: x in s ==> x == first || Less(first, x)
  {
    first :| first in s;
    var rest := s - {first};
    while rest != {}
      invariant rest <= s && first in s - rest
      invariant forall x :: x in s - rest ==> x == first || Less(first, x)
      decreases rest
    {
      var t :| t in rest;
      LessTotal(first, t);
      if Less(t, first) {
        forall x | x in s - rest ensures x == t || Less(t, x) { if x != first { LessTransitive(t, first, x); } }
        first := t;
      }
      rest := rest - {t};
    }
  }

  /** The first `n` threads (at least one), in the order of their identifiers, and the last of them. */
  method TakeFirst(pending: set<P.ThreadId>, n: nat) returns (batch: set<P.ThreadId>, last: P.ThreadId)
    requires pending != {}
    ensures IsBatch(batch, pending, n) && IsLast(last, batch)
  {
    var most := if n == 0 then 1 else n;
    last := FirstOf(pending);
    batch := {last};
    while batch != pending && |batch| < most
      invariant batch <= pending && |batch| <= most && IsLast(last, batch)
      invariant forall x, y :: x in batch && y in pending - batch ==> Less(x, y)
      decreases most - |batch|
    {
      var t := FirstOf(pending - batch);
      batch, last := batch + {t}, t;
    }
  }

  lemma BatchCovers(
    checkpoints: map<P.ThreadId, Option<int>>, before: map<P.ThreadId, P.Row>, after: map<P.ThreadId, P.Row>, meta: Meta,
    batch: set<P.ThreadId>, n: nat, last: P.ThreadId)
    requires !meta.complete && IsBatch(batch, Pending(checkpoints, before, meta.cursor), n) && IsLast(last, batch)
    requires before.Keys + batch <= after.Keys
    ensures Covered(checkpoints, before, meta) ==> Covered(checkpoints, after, Meta(false, last))
  {
    if Covered(checkpoints, before, meta) {
      forall t | t in checkpoints && !Less(last, t) ensures t in after {
        if Less(meta.cursor, t) && t !in before { assert t in Pending(checkpoints, before, meta.cursor); }
      }
    }
  }

  class ThreadCleanupStore {
    var rows: map<P.ThreadId, P.Row>
    var lease: Option<P.Lease>
    var runs: map<P.Job, P.RunRecord>

    ghost function Contents(): P.Db reads this { P.Db(rows, lease, runs) }

    constructor ()
      ensures Contents() == P.Db(map[], None, map[])
    {
      rows, lease, runs := map[], None, map[];
    }

    /** `refused` stands for ThreadCleanupInProgressError. */
    method TouchThread(t: P.ThreadId, stamp: int, now: int) returns (refused: bool)
      modifies this
      ensures Contents() == P.Touch(old(Contents()), t, stamp, now)
      ensures refused <==> t != "" && P.TouchRefused(old(Contents()), t, now)
    {
      refused := false;
      if t == "" { return; }
      if t in rows {
        var existing := rows[t];
        if existing.claimedBy.Some? {
          if existing.claimExpires.None? || existing.claimExpires.value > now {
            refused := true;
            return;
          }
        }
        var latest := existing.lastActivity;
        if stamp > latest { latest := stamp; }
        rows := rows[t := existing.(lastActivity := latest, claimedBy := None, claimExpires := None)];
      } else {
        rows := rows[t := P.Row(stamp, false, None, None)];
      }
    }

    method ForgetThread(t: P.ThreadId)
      modifies this
      ensures Contents() == P.Forget(old(Contents()), t)
    {
      rows := rows - {t};
    }

    /** `backfill_activity_sync`: indexes the next `limit` threads behind the cursor that have a
        checkpoint and no row, in the order of their identifiers, and moves the cursor on; when there
        are none, the backfill is complete. `checkpoints` maps each thread to the time of its last
        checkpoint, if that could be decoded. */
    method BackfillActivity(meta: Meta, checkpoints: map<P.ThreadId, Option<int>>, limit: nat, now: int)
      returns (next: Meta, count: nat)
      modifies this
      ensures meta.complete ==> next == meta && count == 0 && Contents() == old(Contents())
      ensures !meta.complete && Pending(checkpoints, old(rows), meta.cursor) == {} ==>
                next == Meta(true, "") && count == 0 && Contents() == old(Contents())
      ensures !meta.complete && Pending(checkpoints, old(rows), meta.cursor) != {} ==>
                && !next.complete && count > 0
                && exists batch :: IsBatch(batch, Pending(checkpoints, old(rows), meta.cursor), limit) && |batch| == count
                     && IsLast(next.cursor, batch)
                     && Contents() == P.Backfill(old(Contents()), map t | t in batch && t in checkpoints :: checkpoints[t], now)
      // no thread is passed over
      ensures Covered(checkpoints, old(rows), meta) ==> Covered(checkpoints, rows, next)
    {
      next, count := meta, 0;
      if meta.complete { return; }
      var pending := Pending(checkpoints, rows, meta.cursor);
      if pending == {} {
        assert forall t :: t in checkpoints && t !in rows && Less(meta.cursor, t) ==> t in pending;
        next := Meta(true, "");
        return;
      }
      var batch, last := TakeFirst(pending, limit);
      next, count := Meta(false, last), |batch|;
      InsertBatch(map t | t in batch && t in checkpoints :: checkpoints[t], now);
      BatchCovers(checkpoints, old(rows), rows, meta, batch, limit, last);
    }

    /** `INSERT OR IGNORE` of the threads found. */
    method InsertBatch(found: map<P.ThreadId, Option<int>>, now: int)
      modifies this
      ensures Contents() == P.Backfill(old(Contents()), found, now)
    {
      var todo := found.Keys;
      ghost var before := rows;
      while todo != {}
        invariant todo <= found.Keys
        invariant rows.Keys == before.Keys + (found.Keys - todo)
        invariant forall t :: t in rows ==>
          rows[t] == if t in before then before[t]
                     else if found[t].None? then P.Row(now, true, None, None)
                     else P.Row(found[t].value, false, None, None)
        invariant lease == old(lease) && runs == old(runs)
        decreases todo
      {
        var t :| t in todo;
        if t !in rows {
          match found[t]
          case None => rows := rows[t := P.Row(now, true, None, None)];
          case Some(at) => rows := rows[t := P.Row(at, false, None, None)];
        }
        todo := todo - {t};
      }
      assert rows == P.Backfill(old(Contents()), found, now).rows;
    }

    method ClaimThread(t: P.ThreadId, job: P.Job, now: int) returns (claimed: bool)
      modifies this
      ensures Contents() == P.ClaimThread(old(Contents()), t, job, now)
      ensures claimed <==> P.Claimable(old(Contents()), t, job, now)
    {
      claimed := false;
      if t in rows {
        var row := rows[t];
        if !row.prot && row.lastActivity < job.Cutoff()
           && (row.claimedBy.None? || row.claimExpires.None? || row.claimExpires.value <= now) {
          rows := rows[t := row.(claimedBy := Some(job), claimExpires := Some(now + P.THREAD_CLAIM))];
          claimed := true;
        }
      }
    }

    method RenewThreadClaim(t: P.ThreadId, job: P.Job, now: int) returns (renewed: bool)
      modifies this
      ensures Contents() == P.RenewClaim(old(Contents()), t, job, now)
      ensures renewed <==> P.Holds(old(Contents()), t, job)
    {
      renewed := t in rows && rows[t].claimedBy == Some(job);
      if renewed {
        rows := rows[t := rows[t].(claimExpires := Some(now + P.THREAD_CLAIM))];
      }
    }

    method ReleaseThreadClaim(t: P.ThreadId, job: P.Job)
      modifies this
      ensures Contents() == P.ReleaseClaim(old(Contents()), t, job)
    {
      if t in rows && rows[t].claimedBy == Some(job) {
        rows := rows[t := rows[t].(claimedBy := None, claimExpires := None)];
      }
    }

    /** On success `owner` is the owner displaced, if any; otherwise the current one. */
    method AcquireJobLease(job: P.Job, now: int) returns (acquired: bool, owner: Option<P.Job>)
      modifies this
      ensures Contents() == P.Acquire(old(Contents()), job, now)
      ensures acquired <==> P.LeaseFree(old(Contents()), now)
      ensures owner == if old(lease).None? then None else Some(old(lease).value.owner)
    {
      owner := if lease.None? then None else Some(lease.value.owner);
      if lease.Some? && lease.value.expires > now {
        return false, owner;
      }
      if owner.Some? {
        var previous := owner.value;
        if previous in runs && runs[previous].status in {P.Pending, P.Running} {
          runs := runs[previous := runs[previous].(status := P.Abandoned, current := None)];
        }
        rows := map t | t in rows ::
          if rows[t].claimedBy == Some(previous)
          then rows[t].(claimedBy := None, claimExpires := None) else rows[t];
      }
      lease := Some(P.Lease(job, now + P.JOB_LEASE));
      rows := map t | t in rows ::
        if rows[t].claimedBy.Some? && rows[t].claimExpires.Some? && rows[t].claimExpires.value <= now
        then rows[t].(claimedBy := None, claimExpires := None) else rows[t];
      assert rows == P.Acquire(old(Contents()), job, now).rows;
      acquired := true;
    }

    method RenewJobLease(job: P.Job, now: int) returns (renewed: bool)
      modifies this
      ensures Contents() == P.RenewLease(old(Contents()), job, now)
      ensures renewed <==> P.Owns(old(Contents()), job)
    {
      renewed := lease.Some? && lease.value.owner == job;
      if renewed { lease := Some(P.Lease(job, now + P.JOB_LEASE)); }
    }

    method ReleaseJobLease(job: P.Job)
      modifies this
      ensures Contents() == P.ReleaseLease(old(Contents()), job)
    {
      if lease.Some? && lease.value.owner == job { lease := None; }
    }

    method UpdateRun(job: P.Job, record: P.RunRecord)
      modifies this
      ensures Contents() == P.UpdateRun(old(Contents()), job, record)
    {
      if job in runs && runs[job].status != P.Abandoned { runs := runs[job := record]; }
    }
  }
}
