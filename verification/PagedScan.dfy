/** The keyset-paged loop of `_execute_run` (app/thread_cleanup.py) against a simple scan of
    the eligible rows in order. */
module PagedScan {
  import opened Text
  import P = CleanupProtocol
  import opened CleanupStore

  /** The sort key of a candidate: `ORDER BY last_activity_at, thread_id`. */
  datatype Key = Key(last: int, id: P.ThreadId)

  predicate KeyLess(a: Key, b: Key) { a.last < b.last || (a.last == b.last && Less(a.id, b.id)) }

  lemma KeyOrder(a: Key, b: Key, c: Key)
    ensures !KeyLess(a, a)
    ensures KeyLess(a, b) || a == b || KeyLess(b, a)
    ensures KeyLess(a, b) && KeyLess(b, c) ==> KeyLess(a, c)
  {
    LessIrreflexive(a.id);
    LessTotal(a.id, b.id);
    if Less(a.id, b.id) && Less(b.id, c.id) { LessTransitive(a.id, b.id, c.id); }
  }

  ghost predicate Sorted(s: seq<Key>) { forall i, j :: 0 <= i < j < |s| ==> KeyLess(s[i], s[j]) }

  ghost function Keys(s: seq<Key>): set<Key> { set k | k in s }

  ghost predicate IsLeast(k: Key, s: set<Key>) { k in s && forall x :: x in s ==> x == k || KeyLess(k, x) }

  lemma {:induction false} LeastExists(s: set<Key>) returns (k: Key)
    requires s != {}
    ensures IsLeast(k, s)
    decreases |s|
  {
    var x :| x in s;
    k := x;
    var rest := s - {x};
    if rest != {} {
      var y := LeastExists(rest);
      KeyOrder(x, y, y);
      if KeyLess(x, y) {
        forall z | z in s ensures z == x || KeyLess(x, z) {
          if z != x { assert z in rest; KeyOrder(x, y, z); }
        }
      } else {
        k := y;
        forall z | z in s ensures z == y || KeyLess(y, z) {
          if z != x { assert z in rest; }
        }
      }
    } else {
      assert s == {x};
    }
  }

  lemma LeastExistsHere(s: set<Key>)
    requires s != {}
    ensures exists k :: IsLeast(k, s)
  {
    var k := LeastExists(s);
  }

  /** The rows a query orders, in order. */
  ghost function Order(s: set<Key>): (r: seq<Key>)
    ensures |r| == |s|
    decreases |s|
  {
    if s == {} then [] else
    LeastExistsHere(s);
    var k :| IsLeast(k, s);
    [k] + Order(s - {k})
  }

  lemma SortedCons(k: Key, rest: seq<Key>)
    requires Sorted(rest) && forall x :: x in Keys(rest) ==> KeyLess(k, x)
    ensures Sorted([k] + rest) && Keys([k] + rest) == {k} + Keys(rest)
  {
    var r := [k] + rest;
    forall i, j | 0 <= i < j < |r| ensures KeyLess(r[i], r[j]) {
      assert r[j] == rest[j - 1] && r[j] in Keys(rest);
      if i > 0 { assert r[i] == rest[i - 1]; }
    }
    forall x | x in {k} + Keys(rest) ensures x in Keys(r) {
      if x != k { assert x in rest && x in r; } else { assert r[0] == x; }
    }
  }

  lemma {:induction false} OrderIsSorted(s: set<Key>)
    ensures Sorted(Order(s)) && Keys(Order(s)) == s
    decreases |s|
  {
    if s != {} {
      LeastExistsHere(s);
      var k :| IsLeast(k, s) && Order(s) == [k] + Order(s - {k});
      OrderIsSorted(s - {k});
      SortedCons(k, Order(s - {k}));
    }
  }

  /** There is only one way to list a set in strict order. */
  lemma {:induction false} SortedUnique(a: seq<Key>, b: seq<Key>)
    requires Sorted(a) && Sorted(b) && Keys(a) == Keys(b)
    ensures a == b
  {
    if b != [] { assert b[0] in Keys(b); }
    if a == [] {
    } else {
      assert a[0] in Keys(b) && b != [];
      assert b[0] in Keys(a);
      KeyOrder(a[0], b[0], a[0]);
      KeyOrder(a[0], a[0], a[0]);
      assert a[0] == b[0];
      forall x | x in Keys(a[1..]) ensures x in Keys(b[1..]) { assert x in Keys(a) && KeyLess(a[0], x); }
      forall x | x in Keys(b[1..]) ensures x in Keys(a[1..]) { assert x in Keys(b) && KeyLess(b[0], x); }
      SortedUnique(a[1..], b[1..]);
      assert a == [a[0]] + a[1..] && b == [b[0]] + b[1..];
    }
  }

  lemma OrderFirst(s: set<Key>, least: Key)
    requires IsLeast(least, s)
    ensures Order(s) == [least] + Order(s - {least})
  {
    LeastExistsHere(s);
    var k :| IsLeast(k, s) && Order(s) == [k] + Order(s - {k});
    KeyOrder(k, least, k);
    KeyOrder(k, k, k);
  }

  // ---- the candidate query ----

  predicate EligibleRow(row: P.Row, cutoff: int, now: int) {
    !row.prot && row.lastActivity < cutoff && P.Unclaimed(row, now)
  }

  predicate Beyond(k: Key, after: Option<Key>) { after.None? || KeyLess(after.value, k) }

  ghost function Eligible(rows: map<P.ThreadId, P.Row>, cutoff: int, now: int, after: Option<Key>): set<Key> {
    set t | t in rows && EligibleRow(rows[t], cutoff, now) && Beyond(Key(rows[t].lastActivity, t), after)
      :: Key(rows[t].lastActivity, t)
  }

  /** `WHERE ... ORDER BY last_activity_at, thread_id LIMIT n`. */
  ghost function CandidatePage(
    rows: map<P.ThreadId, P.Row>, cutoff: int, now: int, n: nat, after: Option<Key>): seq<Key>
  {
    var all := Order(Eligible(rows, cutoff, now, after));
    if n <= |all| then all[..n] else all
  }

  lemma Moved(page: seq<Key>, k: Key, rest: seq<Key>)
    ensures page + ([k] + rest) == (page + [k]) + rest
  {}

  method LeastOf(s: set<Key>) returns (least: Key)
    requires s != {}
    ensures IsLeast(least, s)
  {
    least :| least in s;
    var rest := s - {least};
    while rest != {}
      invariant rest <= s && least in s && least !in rest
      invariant forall x :: x in s - rest ==> x == least || KeyLess(least, x)
      decreases rest
    {
      var k :| k in rest;
      KeyOrder(least, k, k);
      if KeyLess(k, least) {
        forall x | x in s - rest ensures x == k || KeyLess(k, x) { KeyOrder(k, least, x); }
        least := k;
      }
      rest := rest - {k};
    }
  }

  /** The first `n` of a set of rows, in order. */
  method FirstOf(s: set<Key>, n: nat) returns (page: seq<Key>)
    ensures page == if n <= |Order(s)| then Order(s)[..n] else Order(s)
  {
    var rest := s;
    page := [];
    while rest != {} && |page| < n
      invariant |page| <= n && page + Order(rest) == Order(s)
      decreases n - |page|
    {
      var least := LeastOf(rest);
      OrderFirst(rest, least);
      Moved(page, least, Order(rest - {least}));
      page, rest := page + [least], rest - {least};
    }
    if |page| == n { assert Order(s)[..n] == page; } else { assert Order(s) == page; }
  }

  /** Selects and orders one page, as the database does for `_candidate_rows_sync`. */
  method CandidateRows(rows: map<P.ThreadId, P.Row>, cutoff: int, now: int, n: nat, after: Option<Key>)
    returns (page: seq<Key>)
    ensures page == CandidatePage(rows, cutoff, now, n, after)
  {
    var rest := set t | t in rows && EligibleRow(rows[t], cutoff, now) && Beyond(Key(rows[t].lastActivity, t), after)
                  :: Key(rows[t].lastActivity, t);
    page := FirstOf(rest, n);
  }

  // ---- the simple scan ----

  /** What deleting a thread would come to: it is running or scheduled, its deletion succeeds,
      or its deletion fails. */
  datatype Verdict = Busy | Deletable | Undeletable

  datatype Counters = Counters(scanned: nat, deleted: nat, skipped: nat, failed: nat)

  /** Rows that use up the limit: deletions, or in a dry run every row not busy. */
  predicate Works(verdict: P.ThreadId -> Verdict, dry: bool, k: Key) {
    if dry then verdict(k.id) != Busy else verdict(k.id) == Deletable
  }

  /** How many rows of `all` a simple scan visits before `limit` of them have counted. */
  function ScanLength(all: seq<Key>, verdict: P.ThreadId -> Verdict, dry: bool, limit: nat): (n: nat)
    ensures n <= |all|
  {
    if all == [] || limit == 0 then 0
    else 1 + ScanLength(all[1..], verdict, dry, if Works(verdict, dry, all[0]) then limit - 1 else limit)
  }

  function Worked(s: seq<Key>, verdict: P.ThreadId -> Verdict, dry: bool): (n: nat)
    ensures n <= |s|
  {
    if s == [] then 0
    else Worked(s[..|s| - 1], verdict, dry) + (if Works(verdict, dry, s[|s| - 1]) then 1 else 0)
  }

  function Having(s: seq<Key>, verdict: P.ThreadId -> Verdict, v: Verdict): (n: nat)
    ensures n <= |s|
  {
    if s == [] then 0 else Having(s[..|s| - 1], verdict, v) + (if verdict(s[|s| - 1].id) == v then 1 else 0)
  }

  /** A row after its thread was visited; None once deleted. */
  function RowAfter(row: P.Row, v: Verdict, dry: bool): Option<P.Row> {
    if v == Busy || dry then Some(row)
    else if v == Deletable then None
    else Some(row.(claimedBy := None, claimExpires := None))
  }

  /** `rows` is `before` after the threads of `visited`, and only those, were processed. */
  ghost predicate Processed(
    before: map<P.ThreadId, P.Row>, rows: map<P.ThreadId, P.Row>, visited: seq<Key>,
    verdict: P.ThreadId -> Verdict, dry: bool)
  {
    && rows.Keys <= before.Keys
    && forall t :: t in before ==>
         (if t in rows then Some(rows[t]) else None)
         == if Key(before[t].lastActivity, t) in visited then RowAfter(before[t], verdict(t), dry) else Some(before[t])
  }

  /** An order of rows to scan: it holds all rows that are eligible from the start, and only rows that
      are by `finish`, when claims of others may have expired. */
  ghost predicate Plan(before: map<P.ThreadId, P.Row>, cutoff: int, start: int, finish: int, all: seq<Key>) {
    Sorted(all) && Eligible(before, cutoff, start, None) <= Keys(all) <= Eligible(before, cutoff, finish, None)
  }

  ghost function CursorOf(all: seq<Key>, v: nat): Option<Key>
    requires v <= |all|
  {
    if v == 0 then None else Some(all[v - 1])
  }

  lemma EligibleLater(rows: map<P.ThreadId, P.Row>, cutoff: int, start: int, finish: int)
    requires start <= finish
    ensures Eligible(rows, cutoff, start, None) <= Eligible(rows, cutoff, finish, None)
  {
    forall k | k in Eligible(rows, cutoff, start, None) ensures k in Eligible(rows, cutoff, finish, None) {
      assert k.id in rows && EligibleRow(rows[k.id], cutoff, finish);
    }
  }

  lemma FirstPlan(before: map<P.ThreadId, P.Row>, cutoff: int, start: int, finish: int)
    requires start <= finish
    ensures Plan(before, cutoff, start, finish, Order(Eligible(before, cutoff, start, None)))
  {
    OrderIsSorted(Eligible(before, cutoff, start, None));
    EligibleLater(before, cutoff, start, finish);
  }

  /** If no claim expires during the scan, there is only one plan: the eligible rows in order. */
  lemma PlanIsFixed(before: map<P.ThreadId, P.Row>, cutoff: int, start: int, finish: int, all: seq<Key>)
    requires Plan(before, cutoff, start, finish, all)
    requires forall t :: t in before && P.Unclaimed(before[t], finish) ==> P.Unclaimed(before[t], start)
    ensures all == Order(Eligible(before, cutoff, start, None))
  {
    var e := Eligible(before, cutoff, start, None);
    forall k | k in Keys(all) ensures k in e {
      assert k.id in before && EligibleRow(before[k.id], cutoff, start) && k == Key(before[k.id].lastActivity, k.id);
    }
    OrderIsSorted(e);
    SortedUnique(all, Order(e));
  }

  lemma {:induction false} SubsetIsSmaller(a: set<Key>, b: set<Key>)
    requires a <= b
    ensures |a| <= |b|
    decreases |a|
  {
    if a != {} {
      var k :| k in a;
      SubsetIsSmaller(a - {k}, b - {k});
    }
  }

  /** A plan is no longer than the rows there are. */
  lemma PlanIsBounded(before: map<P.ThreadId, P.Row>, cutoff: int, start: int, finish: int, all: seq<Key>)
    requires Plan(before, cutoff, start, finish, all)
    ensures |all| <= |Eligible(before, cutoff, finish, None)|
  {
    OrderIsSorted(Keys(all));
    SortedUnique(all, Order(Keys(all)));
    SubsetIsSmaller(Keys(all), Eligible(before, cutoff, finish, None));
  }

  /** Rows behind the cursor come after the visited ones. */
  lemma PlanIsSorted(all: seq<Key>, v: nat, rest: seq<Key>)
    requires Sorted(all) && v <= |all| && Sorted(rest)
    requires forall k :: k in Keys(rest) ==> Beyond(k, CursorOf(all, v))
    ensures Sorted(all[..v] + rest)
  {
    var plan := all[..v] + rest;
    forall i, j | 0 <= i < j < |plan| ensures KeyLess(plan[i], plan[j]) {
      if i < v <= j {
        assert plan[j] in Keys(rest);
        if i < v - 1 { KeyOrder(all[i], all[v - 1], plan[j]); }
      }
    }
  }

  lemma InPrefix(all: seq<Key>, v: nat, i: nat)
    requires i < |all| && v <= |all|
    ensures i < v ==> all[i] in all[..v]
  {
    assert i < v ==> all[..v][i] == all[i];
  }

  /** An eligible row that was not visited is still found. */
  lemma StillCandidate(
    before: map<P.ThreadId, P.Row>, rows: map<P.ThreadId, P.Row>, all: seq<Key>, v: nat,
    verdict: P.ThreadId -> Verdict, dry: bool, cutoff: int, start: int, now: int, k: Key)
    requires Sorted(all) && Eligible(before, cutoff, start, None) <= Keys(all) && v <= |all| && start <= now
    requires Processed(before, rows, all[..v], verdict, dry)
    requires k in Eligible(before, cutoff, start, None) && k !in all[..v]
    ensures k in Eligible(rows, cutoff, now, CursorOf(all, v))
  {
    assert k in Keys(all);
    var i :| 0 <= i < |all| && all[i] == k;
    InPrefix(all, v, i);
    if v > 0 { assert KeyLess(all[v - 1], all[i]); }
    assert k == Key(before[k.id].lastActivity, k.id);
  }

  /** Whatever a query finds behind the cursor has not been visited: its row is as it was. */
  lemma NewCandidate(
    before: map<P.ThreadId, P.Row>, rows: map<P.ThreadId, P.Row>, all: seq<Key>, v: nat,
    verdict: P.ThreadId -> Verdict, dry: bool, cutoff: int, now: int, k: Key)
    requires Sorted(all) && v <= |all| && Processed(before, rows, all[..v], verdict, dry)
    requires k in Eligible(rows, cutoff, now, CursorOf(all, v))
    ensures k !in all[..v] && k.id in before && rows[k.id] == before[k.id] && k in Eligible(before, cutoff, now, None)
  {
    if k in all[..v] {
      var i :| 0 <= i < v && all[..v][i] == k;
      if i < v - 1 { assert KeyLess(all[i], all[v - 1]); }
      KeyOrder(k, all[v - 1], k);
      KeyOrder(k, k, k);
    }
    assert k.id in rows && rows[k.id].lastActivity == k.last;
    assert k.id in before && before[k.id].lastActivity == k.last;
    assert k == Key(before[k.id].lastActivity, k.id);
  }

  /** After the first `v` rows of a plan, a query at `now` that starts behind the last visited row
      finds how the plan goes on: all planned rows still to come, and those whose claims have
      expired since. */
  lemma PageContinues(
    before: map<P.ThreadId, P.Row>, rows: map<P.ThreadId, P.Row>, all: seq<Key>, v: nat,
    verdict: P.ThreadId -> Verdict, dry: bool, cutoff: int, start: int, finish: int, now: int)
    requires Plan(before, cutoff, start, finish, all) && v <= |all| && start <= now <= finish
    requires Processed(before, rows, all[..v], verdict, dry)
    ensures var rest := Order(Eligible(rows, cutoff, now, CursorOf(all, v)));
            && Plan(before, cutoff, start, finish, all[..v] + rest)
            && forall k :: k in Keys(rest) ==> k.id in before && EligibleRow(before[k.id], cutoff, now)
  {
    var e := Eligible(rows, cutoff, now, CursorOf(all, v));
    OrderIsSorted(e);
    var plan := all[..v] + Order(e);
    forall k | k in e ensures k !in all[..v] && k in Eligible(before, cutoff, now, None) {
      NewCandidate(before, rows, all, v, verdict, dry, cutoff, now, k);
    }
    PlanIsSorted(all, v, Order(e));
    EligibleLater(before, cutoff, now, finish);
    forall k | k in Keys(plan) ensures k in Eligible(before, cutoff, finish, None) {
      if k in all[..v] { assert k in Keys(all); } else { assert k in Keys(Order(e)); }
    }
    forall k | k in Eligible(before, cutoff, start, None) ensures k in Keys(plan) {
      if k !in all[..v] { StillCandidate(before, rows, all, v, verdict, dry, cutoff, start, now, k); }
    }
  }

  /** A row of the plan behind the visited ones is as it was. */
  lemma NotVisited(
    before: map<P.ThreadId, P.Row>, rows: map<P.ThreadId, P.Row>, all: seq<Key>, v: nat,
    verdict: P.ThreadId -> Verdict, dry: bool, cutoff: int, start: int, finish: int)
    requires Plan(before, cutoff, start, finish, all) && v < |all|
    requires Processed(before, rows, all[..v], verdict, dry)
    ensures all[v] !in all[..v]
    ensures var t := all[v].id;
            t in before && t in rows && rows[t] == before[t] && all[v] == Key(before[t].lastActivity, t)
  {
    var k := all[v];
    assert k in Keys(all);
    if k in all[..v] {
      var j :| 0 <= j < v && all[..v][j] == k;
      assert KeyLess(all[j], all[v]);
      KeyOrder(k, k, k);
    }
  }

  // ---- the paged loop ----

  /** Processes one candidate, found at `found`: a busy thread is skipped, a dry run only counts;
      otherwise the row is claimed, the thread deleted, and the row forgotten or released. */
  method ProcessCandidate(store: ThreadCleanupStore, job: P.Job, found: int, dry: bool, t: P.ThreadId, v: Verdict)
    returns (skipped: bool)
    requires t in store.rows && EligibleRow(store.rows[t], job.Cutoff(), found)
    modifies store
    ensures store.lease == old(store.lease) && store.runs == old(store.runs)
    ensures store.rows == var after := RowAfter(old(store.rows)[t], v, dry);
                          if after.None? then old(store.rows) - {t} else old(store.rows)[t := after.value]
    ensures skipped <==> dry || v == Busy
  {
    if v == Busy || dry { return true; }
    var now: int := *;
    if now < found { now := found; }
    ghost var claimable := P.Claimable(store.Contents(), t, job, now);
    var claimed := store.ClaimThread(t, job, now);
    assert claimed;
    if v == Deletable {
      store.ForgetThread(t);
    } else {
      store.ReleaseThreadClaim(t, job);
    }
    skipped := false;
  }

  /** What a run over the plan `all` comes to: it visits its rows in order, each once, as far as the
      simple scan does (or less, when stopped); it changes those rows and no others; and its
      counters say what happened to them. */
  ghost predicate RefinesScan(
    before: map<P.ThreadId, P.Row>, after: map<P.ThreadId, P.Row>, limit: nat, dry: bool, verdict: P.ThreadId -> Verdict,
    all: seq<Key>, visited: seq<Key>, status: Counters, exhausted: bool, stopped: bool)
  {
    && visited <= all
    && (!stopped ==> visited == all[..ScanLength(all, verdict, dry, limit)])
    && Processed(before, after, visited, verdict, dry)
    && Worked(visited, verdict, dry) <= limit
    && status.deleted == (if dry then 0 else Having(visited, verdict, Deletable))
    && status.failed == (if dry then 0 else Having(visited, verdict, Undeletable))
    && status.deleted + status.skipped + status.failed == |visited| <= status.scanned
    && (exhausted ==> visited == all && status.scanned == |visited|)
  }

  /** The counters after v rows of the scan; `work` counts against the limit. */
  ghost predicate Progress(
    all: seq<Key>, v: nat, verdict: P.ThreadId -> Verdict, dry: bool, limit: nat, c: Counters, work: nat)
  {
    && v <= |all| && work == Worked(all[..v], verdict, dry) <= limit
    && v + ScanLength(all[v..], verdict, dry, limit - work) == ScanLength(all, verdict, dry, limit)
    && c.deleted == (if dry then 0 else Having(all[..v], verdict, Deletable))
    && c.failed == (if dry then 0 else Having(all[..v], verdict, Undeletable))
    && c.deleted + c.skipped + c.failed == v
  }

  lemma ProgressStart(all: seq<Key>, verdict: P.ThreadId -> Verdict, dry: bool, limit: nat, before: map<P.ThreadId, P.Row>)
    ensures Progress(all, 0, verdict, dry, limit, Counters(0, 0, 0, 0), 0)
    ensures Processed(before, before, all[..0], verdict, dry)
  {
    assert all[0..] == all;
  }

  lemma ProgressEnd(
    before: map<P.ThreadId, P.Row>, after: map<P.ThreadId, P.Row>, limit: nat, dry: bool,
    verdict: P.ThreadId -> Verdict, all: seq<Key>, v: nat, status: Counters, work: nat, exhausted: bool, stopped: bool)
    requires v <= status.scanned && Progress(all, v, verdict, dry, limit, status, work)
    requires Processed(before, after, all[..v], verdict, dry)
    requires exhausted ==> v == |all| && status.scanned == v
    requires work == limit || exhausted || stopped
    ensures RefinesScan(before, after, limit, dry, verdict, all, all[..v], status, exhausted, stopped)
  {
    if !stopped {
      assert exhausted ==> all[v..] == [];
      assert ScanLength(all[v..], verdict, dry, limit - work) == 0;
      assert ScanLength(all, verdict, dry, limit) == v;
    }
    if exhausted { assert all[..v] == all; }
    assert |all[..v]| == v && all[..v] <= all;
  }

  /** Where a scan over the plan `all` stands after `v` rows. */
  ghost predicate Standing(
    before: map<P.ThreadId, P.Row>, rows: map<P.ThreadId, P.Row>, cutoff: int, start: int, finish: int,
    verdict: P.ThreadId -> Verdict, dry: bool, limit: nat, all: seq<Key>, v: nat, status: Counters, work: nat)
  {
    && Plan(before, cutoff, start, finish, all) && Progress(all, v, verdict, dry, limit, status, work)
    && Processed(before, rows, all[..v], verdict, dry)
  }

  /** A page of the plan, whose rows were eligible when it was found. */
  ghost predicate PageOf(before: map<P.ThreadId, P.Row>, cutoff: int, found: int, all: seq<Key>, v: nat, page: seq<Key>) {
    && v + |page| <= |all|
    && forall i :: 0 <= i < |page| ==>
         page[i] == all[v + i] && page[i].id in before && EligibleRow(before[page[i].id], cutoff, found)
  }

  lemma PlanGoesOn(all: seq<Key>, v: nat, rest: seq<Key>, n: nat)
    requires v <= |all|
    ensures var plan, page := all[..v] + rest, if n <= |rest| then rest[..n] else rest;
            && plan[..v] == all[..v] && CursorOf(plan, v) == CursorOf(all, v)
            && v + |page| == (if v + n <= |plan| then v + n else |plan|)
            && forall i :: 0 <= i < |page| ==> page[i] == plan[v + i]
  {}

  lemma RestIsFound(before: map<P.ThreadId, P.Row>, cutoff: int, now: int, all: seq<Key>, v: nat, rest: seq<Key>, n: nat)
    requires v <= |all| && forall k :: k in Keys(rest) ==> k.id in before && EligibleRow(before[k.id], cutoff, now)
    ensures PageOf(before, cutoff, now, all[..v] + rest, v, if n <= |rest| then rest[..n] else rest)
  {
    var page := if n <= |rest| then rest[..n] else rest;
    PlanGoesOn(all, v, rest, n);
    forall i | 0 <= i < |page| ensures page[i] in Keys(rest) { assert page[i] == rest[i]; }
  }

  lemma OneMoreRow(all: seq<Key>, v: nat, verdict: P.ThreadId -> Verdict, dry: bool)
    requires v < |all|
    ensures Worked(all[..v + 1], verdict, dry) == Worked(all[..v], verdict, dry) + if Works(verdict, dry, all[v]) then 1 else 0
    ensures forall what :: Having(all[..v + 1], verdict, what) ==
                             Having(all[..v], verdict, what) + if verdict(all[v].id) == what then 1 else 0
  {
    assert all[..v + 1][..v] == all[..v] && all[..v + 1][v] == all[v];
  }

  lemma {:induction false} ScanSplits(all: seq<Key>, v: nat, verdict: P.ThreadId -> Verdict, dry: bool, limit: nat)
    requires v <= |all| && Worked(all[..v], verdict, dry) < limit
    ensures ScanLength(all, verdict, dry, limit) == v + ScanLength(all[v..], verdict, dry, limit - Worked(all[..v], verdict, dry))
  {
    if v == 0 {
      assert all[0..] == all;
    } else {
      OneMoreRow(all, v - 1, verdict, dry);
      ScanSplits(all, v - 1, verdict, dry, limit);
      assert all[v - 1..][1..] == all[v..];
    }
  }

  /** Where the scan stands does not depend on how the plan goes on. */
  lemma ProgressGoesOn(
    all: seq<Key>, plan: seq<Key>, v: nat, verdict: P.ThreadId -> Verdict, dry: bool, limit: nat, c: Counters, work: nat)
    requires Progress(all, v, verdict, dry, limit, c, work) && work < limit
    requires v <= |plan| && plan[..v] == all[..v]
    ensures Progress(plan, v, verdict, dry, limit, c, work)
  {
    ScanSplits(plan, v, verdict, dry, limit);
  }

  lemma PageFound(
    before: map<P.ThreadId, P.Row>, rows: map<P.ThreadId, P.Row>, cutoff: int, start: int, finish: int,
    verdict: P.ThreadId -> Verdict, dry: bool, limit: nat, all: seq<Key>, v: nat, status: Counters, work: nat,
    now: int, n: nat)
    returns (plan: seq<Key>)
    requires Standing(before, rows, cutoff, start, finish, verdict, dry, limit, all, v, status, work)
    requires start <= now <= finish && work < limit
    ensures Standing(before, rows, cutoff, start, finish, verdict, dry, limit, plan, v, status, work)
    ensures CursorOf(plan, v) == CursorOf(all, v)
    ensures var page := CandidatePage(rows, cutoff, now, n, CursorOf(all, v));
            PageOf(before, cutoff, now, plan, v, page) && v + |page| == if v + n <= |plan| then v + n else |plan|
  {
    var rest := Order(Eligible(rows, cutoff, now, CursorOf(all, v)));
    PageContinues(before, rows, all, v, verdict, dry, cutoff, start, finish, now);
    plan := all[..v] + rest;
    PlanGoesOn(all, v, rest, n);
    ProgressGoesOn(all, plan, v, verdict, dry, limit, status, work);
    RestIsFound(before, cutoff, now, all, v, rest, n);
  }

  /** One query of the scan: the next rows of a plan, at most a page of them. */
  method NextPage(
    store: ThreadCleanupStore, job: P.Job, start: int, finish: int, limit: nat, dry: bool, verdict: P.ThreadId -> Verdict,
    pageSize: nat, cursor: Option<Key>, ghost before: map<P.ThreadId, P.Row>, ghost all: seq<Key>, ghost v: nat,
    ghost status: Counters, ghost work: nat)
    returns (page: seq<Key>, found: int, ghost plan: seq<Key>)
    requires start <= finish && work < limit
    requires Standing(before, store.rows, job.Cutoff(), start, finish, verdict, dry, limit, all, v, status, work)
    requires cursor == CursorOf(all, v)
    ensures Standing(before, store.rows, job.Cutoff(), start, finish, verdict, dry, limit, plan, v, status, work)
    ensures v + |page| == (if v + pageSize <= |plan| then v + pageSize else |plan|)
    ensures PageOf(before, job.Cutoff(), found, plan, v, page) && CursorOf(plan, v) == cursor
  {
    found := *;
    if found < start || found > finish { found := start; }
    page := CandidateRows(store.rows, job.Cutoff(), found, pageSize, cursor);
    plan := PageFound(before, store.rows, job.Cutoff(), start, finish, verdict, dry, limit, all, v, status, work, found, pageSize);
  }

  /** What one more row adds to the counters. */
  function Counted(c: Counters, verdict: P.ThreadId -> Verdict, dry: bool, k: Key): Counters {
    if verdict(k.id) == Busy || dry then c.(skipped := c.skipped + 1)
    else if verdict(k.id) == Deletable then c.(deleted := c.deleted + 1)
    else c.(failed := c.failed + 1)
  }

  method Count(status0: Counters, work0: nat, verdict: P.ThreadId -> Verdict, dry: bool, k: Key, skip: bool)
    returns (status: Counters, work: nat)
    requires skip <==> dry || verdict(k.id) == Busy
    ensures status == Counted(status0, verdict, dry, k)
    ensures work == if Works(verdict, dry, k) then work0 + 1 else work0
  {
    status, work := status0, work0;
    if skip {
      status := status.(skipped := status.skipped + 1);
      if verdict(k.id) != Busy { work := work + 1; }
    } else if verdict(k.id) == Deletable {
      status, work := status.(deleted := status.deleted + 1), work + 1;
    } else {
      status := status.(failed := status.failed + 1);
    }
  }

  lemma ProgressStep(
    all: seq<Key>, v: nat, verdict: P.ThreadId -> Verdict, dry: bool, limit: nat, c: Counters, work: nat)
    requires Progress(all, v, verdict, dry, limit, c, work) && v < |all| && work < limit
    ensures Progress(all, v + 1, verdict, dry, limit, Counted(c, verdict, dry, all[v]),
                     if Works(verdict, dry, all[v]) then work + 1 else work)
  {
    OneMoreRow(all, v, verdict, dry);
    assert all[v..][1..] == all[v + 1..];
    assert ScanLength(all[v..], verdict, dry, limit - work) ==
      1 + ScanLength(all[v + 1..], verdict, dry, if Works(verdict, dry, all[v]) then limit - work - 1 else limit - work);
  }

  /** Processing the next row of the scan extends the prefix. */
  lemma NextRow(
    before: map<P.ThreadId, P.Row>, rows: map<P.ThreadId, P.Row>, rows': map<P.ThreadId, P.Row>, all: seq<Key>, v: nat,
    verdict: P.ThreadId -> Verdict, dry: bool, cutoff: int, start: int, finish: int)
    requires Plan(before, cutoff, start, finish, all) && v < |all|
    requires Processed(before, rows, all[..v], verdict, dry)
    requires all[v].id in before
    requires rows' == var after := RowAfter(before[all[v].id], verdict(all[v].id), dry);
                      if after.None? then rows - {all[v].id} else rows[all[v].id := after.value]
    ensures Processed(before, rows', all[..v + 1], verdict, dry)
  {
    NotVisited(before, rows, all, v, verdict, dry, cutoff, start, finish);
    assert all[..v + 1] == all[..v] + [all[v]];
  }

  /** The loop body: the next row of the scan. */
  method ProcessOne(
    store: ThreadCleanupStore, job: P.Job, ghost start: int, ghost finish: int, found: int, limit: nat, dry: bool,
    verdict: P.ThreadId -> Verdict, k: Key, ghost before: map<P.ThreadId, P.Row>, ghost all: seq<Key>, ghost v: nat,
    ghost next: nat, status0: Counters, work0: nat)
    returns (status: Counters, work: nat)
    requires Standing(before, store.rows, job.Cutoff(), start, finish, verdict, dry, limit, all, v, status0, work0)
    requires v < |all| && next == v + 1 && k == all[v] && work0 < limit
    requires k.id in before && EligibleRow(before[k.id], job.Cutoff(), found)
    modifies store
    ensures store.lease == old(store.lease) && store.runs == old(store.runs)
    ensures status.scanned == status0.scanned
    ensures Standing(before, store.rows, job.Cutoff(), start, finish, verdict, dry, limit, all, next, status, work)
  {
    NotVisited(before, store.rows, all, v, verdict, dry, job.Cutoff(), start, finish);
    ghost var rows := store.rows;
    var skip := ProcessCandidate(store, job, found, dry, k.id, verdict(k.id));
    NextRow(before, rows, store.rows, all, v, verdict, dry, job.Cutoff(), start, finish);
    ProgressStep(all, v, verdict, dry, limit, status0, work0);
    status, work := Count(status0, work0, verdict, dry, k, skip);
  }

  /** The loop over one page. */
  method ProcessPage(
    store: ThreadCleanupStore, job: P.Job, ghost start: int, ghost finish: int, found: int, limit: nat, dry: bool,
    verdict: P.ThreadId -> Verdict, page: seq<Key>, ghost before: map<P.ThreadId, P.Row>, ghost all: seq<Key>,
    ghost first: nat, status0: Counters, work0: nat)
    returns (ghost v: nat, status: Counters, work: nat, stopped: bool)
    requires PageOf(before, job.Cutoff(), found, all, first, page) && page != [] && work0 < limit
    requires Standing(before, store.rows, job.Cutoff(), start, finish, verdict, dry, limit, all, first, status0, work0)
    modifies store
    ensures store.lease == old(store.lease) && store.runs == old(store.runs)
    ensures first <= v <= first + |page| && (work < limit && !stopped ==> v == first + |page|)
    ensures !stopped ==> v > first
    ensures status.scanned == status0.scanned
    ensures Standing(before, store.rows, job.Cutoff(), start, finish, verdict, dry, limit, all, v, status, work)
  {
    v, status, work, stopped := first, status0, work0, false;
    var i := 0;
    while i < |page| && work < limit && !stopped
      invariant 0 <= i <= |page| && v == first + i
      invariant !stopped && work >= limit ==> i > 0
      invariant status.scanned == status0.scanned
      invariant Standing(before, store.rows, job.Cutoff(), start, finish, verdict, dry, limit, all, v, status, work)
      invariant store.lease == old(store.lease) && store.runs == old(store.runs)
      decreases |page| - i, !stopped
    {
      stopped := *;
      if !stopped {
        assert page[i] == all[v];
        ghost var next := v + 1;
        status, work :=
          ProcessOne(store, job, start, finish, found, limit, dry, verdict, page[i], before, all, v, next, status, work);
        i, v := i + 1, next;
      }
    }
  }

  /** One round of the loop: query a page, move the cursor to its end and process it. */
  method ScanPage(
    store: ThreadCleanupStore, job: P.Job, start: int, finish: int, pageSize: nat, limit: nat, dry: bool,
    verdict: P.ThreadId -> Verdict, cursor0: Option<Key>,
    ghost before: map<P.ThreadId, P.Row>, ghost all0: seq<Key>, ghost first: nat, status0: Counters, work0: nat)
    returns (ghost all: seq<Key>, ghost v: nat, status: Counters, work: nat, cursor: Option<Key>, exhausted: bool, stopped: bool)
    requires pageSize > 0 && start <= finish && work0 < limit && status0.scanned == first
    requires Standing(before, store.rows, job.Cutoff(), start, finish, verdict, dry, limit, all0, first, status0, work0)
    requires cursor0 == CursorOf(all0, first)
    modifies store
    ensures store.lease == old(store.lease) && store.runs == old(store.runs)
    ensures Standing(before, store.rows, job.Cutoff(), start, finish, verdict, dry, limit, all, v, status, work)
    ensures v <= status.scanned && (work < limit && !stopped ==> status.scanned == v && cursor == CursorOf(all, v))
    ensures exhausted ==> v == |all| && status.scanned == v && !stopped
    ensures first <= v && (exhausted || stopped || v > first)
  {
    v, status, work, cursor, exhausted, stopped := first, status0, work0, cursor0, false, false;
    var page, found;
    page, found, all :=
      NextPage(store, job, start, finish, limit, dry, verdict, pageSize, cursor, before, all0, v, status, work);
    if page == [] {
      exhausted := true;
      return;
    }
    cursor := Some(page[|page| - 1]);
    status := status.(scanned := status.scanned + |page|);
    v, status, work, stopped :=
      ProcessPage(store, job, start, finish, found, limit, dry, verdict, page, before, all, v, status, work);
  }

  /** `_execute_run` after its start-up, on a database nobody else changes; claims that others hold
      may expire. It may be stopped before any page and any candidate (shutdown, lost lease or
      new activity). All clock readings lie between `start` and `finish`. */
  method ExecuteRun(
    store: ThreadCleanupStore, job: P.Job, start: int, finish: int, pageSize: nat, limit: nat, dry: bool,
    verdict: P.ThreadId -> Verdict)
    returns (ghost all: seq<Key>, ghost visited: seq<Key>, status: Counters, exhausted: bool, stopped: bool)
    requires pageSize > 0 && limit > 0 && start <= finish
    modifies store
    ensures store.lease == old(store.lease) && store.runs == old(store.runs)
    ensures Plan(old(store.rows), job.Cutoff(), start, finish, all)
    ensures RefinesScan(old(store.rows), store.rows, limit, dry, verdict, all, visited, status, exhausted, stopped)
  {
    ghost var before := store.rows;
    all := Order(Eligible(before, job.Cutoff(), start, None));
    FirstPlan(before, job.Cutoff(), start, finish);
    ProgressStart(all, verdict, dry, limit, before);
    ghost var v := 0;  // visited rows
    ghost var most := |Eligible(before, job.Cutoff(), finish, None)|;
    var work: nat := 0;
    status := Counters(0, 0, 0, 0);
    var cursor: Option<Key> := None;
    exhausted, stopped := false, false;
    while work < limit && !exhausted && !stopped
      invariant Standing(before, store.rows, job.Cutoff(), start, finish, verdict, dry, limit, all, v, status, work)
      invariant store.lease == old(store.lease) && store.runs == old(store.runs)
      invariant v <= status.scanned && (work < limit && !stopped ==> status.scanned == v && cursor == CursorOf(all, v))
      invariant exhausted ==> v == |all| && status.scanned == v
      invariant v <= most
      decreases most - v, !exhausted, !stopped
    {
      stopped := *;
      if !stopped {
        all, v, status, work, cursor, exhausted, stopped :=
          ScanPage(store, job, start, finish, pageSize, limit, dry, verdict, cursor, before, all, v, status, work);
        PlanIsBounded(before, job.Cutoff(), start, finish, all);
      }
    }
    visited := all[..v];
    ProgressEnd(before, store.rows, limit, dry, verdict, all, v, status, work, exhausted, stopped);
  }
}
