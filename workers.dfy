/**
 * The queue workers: the per-channel processors that hand a job to the
 * executor, the status-check sweep over a batch of active plans, the
 * "failed" listener that marks a record failed, and the setup of the one
 * recurring status-check job.
 */
module Workers {
  import opened Wrappers
  import opened Models
  import opened Strategy
  import opened Store
  import opened Dispatch
  import opened Persist
  import opened Reschedule
  import opened Cancel
  import opened CreditCheck
  import opened Notifications

  // ---------------------------------------------------------------------
  // Per-channel processors
  // ---------------------------------------------------------------------

  /**
   * The processor of each channel queue: sendNotification on the job's
   * record id, its result or error passed on. A job without a record id
   * looks up no record and fails as a missing record.
   */
  function ProcessOutcome(db: Db, job: Job, v: Variant, tc: TimeConstraints, now: int, withinLimit: bool,
                          delivery: Delivery, rf: RescheduleFaults): (Db, Result<SendResult, SendError>)
    requires WellFormedHours(tc)
  {
    match job.data
    case NotificationJob(id, _, _, _) => SendOutcome(db, id, v, tc, now, withinLimit, delivery, rf)
    case StatusCheckJob(_) => (db, Err(MissingRecord))
  }

  /**
   * The jobs the planner and the test scheduler queue for a record are
   * processed as a send of exactly that record.
   */
  lemma ProcessDispatched(db: Db, id: nat, r: Record, queuedAt: int, v: Variant, tc: TimeConstraints, now: int,
                          withinLimit: bool, delivery: Delivery, rf: RescheduleFaults)
    requires WellFormedHours(tc)
    ensures ProcessOutcome(db, NotificationJobFor(id, r, queuedAt), v, tc, now, withinLimit, delivery, rf) ==
            SendOutcome(db, id, v, tc, now, withinLimit, delivery, rf)
    ensures ProcessOutcome(db, TestJobFor(id, r, queuedAt), v, tc, now, withinLimit, delivery, rf) ==
            SendOutcome(db, id, v, tc, now, withinLimit, delivery, rf)
  {
  }

  /** A job without a record id changes nothing and fails. */
  lemma ProcessWithoutRecord(db: Db, job: Job, v: Variant, tc: TimeConstraints, now: int, withinLimit: bool,
                             delivery: Delivery, rf: RescheduleFaults)
    requires WellFormedHours(tc) && job.data.StatusCheckJob?
    ensures ProcessOutcome(db, job, v, tc, now, withinLimit, delivery, rf) == (db, Err(MissingRecord))
  {
  }

  /** smsQueue / emailQueue / pushQueue / aiCallQueue .process: the same for every channel. */
  method ProcessNotificationJob(st: Store, job: Job, v: Variant, tc: TimeConstraints, now: int, withinLimit: bool,
                                delivery: Delivery, rf: RescheduleFaults)
    returns (res: Result<SendResult, SendError>)
    requires WellFormedHours(tc)
    modifies st
    ensures (st.Snap(), res) == ProcessOutcome(old(st.Snap()), job, v, tc, now, withinLimit, delivery, rf)
  {
    if job.data.StatusCheckJob? {
      return Err(MissingRecord);
    }
    res := SendNotification(st, job.data.recordId, v, tc, now, withinLimit, delivery, rf);
  }

  // ---------------------------------------------------------------------
  // The status-check sweep: which plans are due
  // ---------------------------------------------------------------------

  /** An active plan not checked within the last interval. */
  predicate Due(plans: map<nat, Plan>, id: nat, now: int, sc: StatusCheckConfig) {
    id in plans && plans[id].status == Active && plans[id].lastCheckDate < now - sc.checkInterval
  }

  /** The due plan ids below n, ascending. */
  function DueIds(plans: map<nat, Plan>, now: int, sc: StatusCheckConfig, n: nat): (ids: seq<nat>)
    ensures forall k :: 0 <= k < |ids| ==> ids[k] < n && Due(plans, ids[k], now, sc)
    ensures forall id: nat :: id < n && Due(plans, id, now, sc) ==> id in ids
    ensures forall i, j :: 0 <= i < j < |ids| ==> ids[i] < ids[j]
  {
    if n == 0 then []
    else DueIds(plans, now, sc, n - 1) + (if Due(plans, n - 1, now, sc) then [n - 1] else [])
  }

  function LastCheck(plans: map<nat, Plan>, id: nat): int {
    if id in plans then plans[id].lastCheckDate else 0
  }

  /** Ascending lastCheckDate; plans checked at the same moment are taken in id order. */
  predicate CheckedBefore(plans: map<nat, Plan>, a: nat, b: nat) {
    LastCheck(plans, a) < LastCheck(plans, b) || (LastCheck(plans, a) == LastCheck(plans, b) && a < b)
  }

  predicate SortedByCheck(plans: map<nat, Plan>, s: seq<nat>) {
    forall i, j :: 0 <= i < j < |s| ==> CheckedBefore(plans, s[i], s[j])
  }

  function InsertByCheck(plans: map<nat, Plan>, id: nat, t: seq<nat>): seq<nat> {
    if t == [] then [id]
    else if CheckedBefore(plans, t[0], id) then [t[0]] + InsertByCheck(plans, id, t[1..])
    else [id] + t
  }

  function SortByCheck(plans: map<nat, Plan>, s: seq<nat>): seq<nat>
    decreases |s|
  {
    if |s| == 0 then [] else InsertByCheck(plans, s[|s| - 1], SortByCheck(plans, s[..|s| - 1]))
  }

  /** .limit(BATCH_SIZE): a limit of 0 means no limit. */
  function Limit(s: seq<nat>, batchSize: nat): (r: seq<nat>)
    ensures batchSize == 0 || batchSize >= |s| ==> r == s
    ensures 0 < batchSize < |s| ==> r == s[..batchSize]
  {
    if batchSize == 0 || batchSize >= |s| then s else s[..batchSize]
  }

  /** The plans the sweep loads, in the order it checks them. */
  function SelectBatch(db: Db, now: int, sc: StatusCheckConfig): seq<nat> {
    Limit(SortByCheck(db.plans, DueIds(db.plans, now, sc, db.nextId)), sc.batchSize)
  }

  lemma {:induction false} InsertByCheckPerm(plans: map<nat, Plan>, id: nat, t: seq<nat>)
    ensures multiset(InsertByCheck(plans, id, t)) == multiset(t) + multiset{id}
    decreases |t|
  {
    if t != [] && CheckedBefore(plans, t[0], id) {
      InsertByCheckPerm(plans, id, t[1..]);
      assert t == [t[0]] + t[1..];
    }
  }

  lemma ConsSortedByCheck(plans: map<nat, Plan>, a: nat, r: seq<nat>)
    requires SortedByCheck(plans, r) && forall i :: 0 <= i < |r| ==> CheckedBefore(plans, a, r[i])
    ensures SortedByCheck(plans, [a] + r)
  {
    forall i, j | 0 <= i < j < |[a] + r|
      ensures CheckedBefore(plans, ([a] + r)[i], ([a] + r)[j])
    {
      assert ([a] + r)[j] == r[j - 1];
      if i > 0 {
        assert ([a] + r)[i] == r[i - 1];
      }
    }
  }

  lemma {:induction false} InsertByCheckSorted(plans: map<nat, Plan>, id: nat, t: seq<nat>)
    requires SortedByCheck(plans, t) && id !in t
    ensures SortedByCheck(plans, InsertByCheck(plans, id, t))
    decreases |t|
  {
    if t == [] {
    } else if CheckedBefore(plans, t[0], id) {
      var tail := t[1..];
      assert SortedByCheck(plans, tail) by {
        forall i, j | 0 <= i < j < |tail|
          ensures CheckedBefore(plans, tail[i], tail[j])
        {
          assert tail[i] == t[i + 1] && tail[j] == t[j + 1];
        }
      }
      assert id !in tail;
      InsertByCheckSorted(plans, id, tail);
      InsertByCheckPerm(plans, id, tail);
      var r := InsertByCheck(plans, id, tail);
      forall i | 0 <= i < |r|
        ensures CheckedBefore(plans, t[0], r[i])
      {
        assert r[i] in multiset(r);
        if r[i] != id {
          var k :| 0 <= k < |tail| && tail[k] == r[i];
          assert t[k + 1] == r[i];
        }
      }
      ConsSortedByCheck(plans, t[0], r);
    } else {
      assert id != t[0];
      forall i | 0 <= i < |t|
        ensures CheckedBefore(plans, id, t[i])
      {
        if i > 0 {
          assert CheckedBefore(plans, t[0], t[i]);
        }
      }
      ConsSortedByCheck(plans, id, t);
    }
  }

  /** The sort orders the ids by check time and keeps exactly the ids it was given. */
  lemma {:induction false} SortByCheckSpec(plans: map<nat, Plan>, s: seq<nat>)
    requires forall i, j :: 0 <= i < j < |s| ==> s[i] != s[j]
    ensures SortedByCheck(plans, SortByCheck(plans, s))
    ensures multiset(SortByCheck(plans, s)) == multiset(s)
    decreases |s|
  {
    if |s| > 0 {
      var init := s[..|s| - 1];
      var last := s[|s| - 1];
      assert s == init + [last];
      SortByCheckSpec(plans, init);
      assert forall k :: 0 <= k < |init| ==> init[k] == s[k] && s[k] != last;
      assert last !in multiset(init);
      assert last !in multiset(SortByCheck(plans, init));
      InsertByCheckSorted(plans, last, SortByCheck(plans, init));
      InsertByCheckPerm(plans, last, SortByCheck(plans, init));
    }
  }

  /** The due plans in check order: each due plan exactly once. */
  lemma SortedDueSpec(db: Db, now: int, sc: StatusCheckConfig)
    requires WellFormed(db)
    ensures var sorted := SortByCheck(db.plans, DueIds(db.plans, now, sc, db.nextId));
            SortedByCheck(db.plans, sorted) &&
            |sorted| == |DueIds(db.plans, now, sc, db.nextId)| &&
            (forall k :: 0 <= k < |sorted| ==> Due(db.plans, sorted[k], now, sc)) &&
            (forall id: nat :: Due(db.plans, id, now, sc) ==> id in sorted)
  {
    var due := DueIds(db.plans, now, sc, db.nextId);
    var sorted := SortByCheck(db.plans, due);
    SortByCheckSpec(db.plans, due);
    assert |multiset(sorted)| == |multiset(due)|;
    forall k | 0 <= k < |sorted|
      ensures Due(db.plans, sorted[k], now, sc)
    {
      assert sorted[k] in multiset(due);
    }
    forall id: nat | Due(db.plans, id, now, sc)
      ensures id in sorted
    {
      assert id < db.nextId;
      assert id in multiset(due);
    }
  }

  /** A position inside a prefix holds an element of the prefix. */
  lemma PrefixHolds(b: seq<nat>, s: seq<nat>, m: int)
    requires |b| <= |s| && forall k :: 0 <= k < |b| ==> b[k] == s[k]
    requires 0 <= m < |s|
    ensures m < |b| ==> s[m] in b
  {
    if m < |b| {
      assert b[m] == s[m];
    }
  }

  /** The limit keeps a prefix of a sorted list, and whatever it drops comes after everything it keeps. */
  lemma LimitSorted(plans: map<nat, Plan>, s: seq<nat>, n: nat)
    requires SortedByCheck(plans, s)
    ensures SortedByCheck(plans, Limit(s, n))
    ensures forall k :: 0 <= k < |Limit(s, n)| ==> Limit(s, n)[k] == s[k]
    ensures forall m :: 0 <= m < |s| && s[m] !in Limit(s, n) ==>
              0 < n && forall k :: 0 <= k < |Limit(s, n)| ==> CheckedBefore(plans, Limit(s, n)[k], s[m])
  {
    var b := Limit(s, n);
    forall m | 0 <= m < |s| && s[m] !in b
      ensures 0 < n && forall k :: 0 <= k < |b| ==> CheckedBefore(plans, b[k], s[m])
    {
      PrefixHolds(b, s, m);
    }
  }

  /**
   * What the sweep loads: only due plans (active, not checked within the
   * interval), each once, in ascending check time; all due plans when the
   * batch size is 0 or not reached, otherwise exactly batch-size many; and
   * a due plan left out was checked no earlier than every plan taken.
   */
  lemma SelectBatchSpec(db: Db, now: int, sc: StatusCheckConfig)
    requires WellFormed(db)
    ensures var b := SelectBatch(db, now, sc);
            (forall k :: 0 <= k < |b| ==> Due(db.plans, b[k], now, sc)) && SortedByCheck(db.plans, b)
    ensures var due := DueIds(db.plans, now, sc, db.nextId);
            |SelectBatch(db, now, sc)| == (if sc.batchSize == 0 || sc.batchSize >= |due| then |due| else sc.batchSize)
    ensures var b := SelectBatch(db, now, sc);
            forall id: nat :: Due(db.plans, id, now, sc) && id !in b ==>
              0 < sc.batchSize && forall k :: 0 <= k < |b| ==> CheckedBefore(db.plans, b[k], id)
  {
    var sorted := SortByCheck(db.plans, DueIds(db.plans, now, sc, db.nextId));
    SortedDueSpec(db, now, sc);
    LimitSorted(db.plans, sorted, sc.batchSize);
    var b := SelectBatch(db, now, sc);
    forall id: nat | Due(db.plans, id, now, sc) && id !in b
      ensures 0 < sc.batchSize && forall k :: 0 <= k < |b| ==> CheckedBefore(db.plans, b[k], id)
    {
      var m :| 0 <= m < |sorted| && sorted[m] == id;
    }
  }

  // ---------------------------------------------------------------------
  // The status-check sweep: the loop over the loaded plans
  // ---------------------------------------------------------------------

  /** One entry of the sweep's results: the check's answer, or the credit and the error message. */
  datatype SweepItem = Checked(report: StatusReport) | CheckError(creditId: string, message: string)

  datatype SweepResult = SweepResult(checked: nat, results: seq<SweepItem>)

  function CreditOf(plans: map<nat, Plan>, id: nat): string {
    if id in plans then plans[id].creditId else ""
  }

  /** The try block around one checkCreditStatus call. */
  function SweepStep(db: Db, creditId: string, v: Variant, fetch: string -> Result<CreditStatus, string>, now: int, cf: CancelFaults)
    : (Db, SweepItem)
  {
    var (db', r) := CheckOutcome(db, creditId, v, fetch(creditId), now, cf);
    match r
    case Ok(report) => (db', Checked(report))
    case Err(e) => (db', CheckError(creditId, e))
  }

  /** The for-of loop over the loaded plans' credit ids, one result pushed per plan. */
  function SweepRun(db: Db, credits: seq<string>, v: Variant, fetch: string -> Result<CreditStatus, string>, now: int, cf: CancelFaults)
    : (Db, seq<SweepItem>)
    decreases |credits|
  {
    if |credits| == 0 then (db, [])
    else
      var prev := SweepRun(db, credits[..|credits| - 1], v, fetch, now, cf);
      var step := SweepStep(prev.0, credits[|credits| - 1], v, fetch, now, cf);
      (step.0, prev.1 + [step.1])
  }

  /** The credit ids of the loaded plans, read before the loop starts. */
  function BatchCredits(db: Db, ids: seq<nat>): (cs: seq<string>)
    ensures |cs| == |ids| && forall k :: 0 <= k < |ids| ==> cs[k] == CreditOf(db.plans, ids[k])
  {
    seq(|ids|, k requires 0 <= k < |ids| => CreditOf(db.plans, ids[k]))
  }

  /** statusCheckQueue.process: load the batch, check each plan's credit, count the plans. */
  function SweepOutcome(db: Db, v: Variant, fetch: string -> Result<CreditStatus, string>, now: int, sc: StatusCheckConfig,
                        cf: CancelFaults): (Db, SweepResult)
  {
    var ids := SelectBatch(db, now, sc);
    var (db', items) := SweepRun(db, BatchCredits(db, ids), v, fetch, now, cf);
    (db', SweepResult(|ids|, items))
  }

  /**
   * One result per plan, in order: the k-th is an error entry for the k-th
   * credit exactly when its status could not be fetched, and otherwise the
   * check's report for that credit with the fetched status. The store stays
   * well formed and no plan is added or dropped.
   */
  lemma {:induction false} SweepRunAligned(db: Db, credits: seq<string>, v: Variant, fetch: string -> Result<CreditStatus, string>,
                                           now: int, cf: CancelFaults)
    requires WellFormed(db)
    ensures var (db', items) := SweepRun(db, credits, v, fetch, now, cf);
            WellFormed(db') && db'.plans.Keys == db.plans.Keys && db'.nextId == db.nextId &&
            |items| == |credits| &&
            forall k :: 0 <= k < |credits| ==>
              (items[k].CheckError? <==> fetch(credits[k]).Err?) &&
              (items[k].CheckError? ==> items[k] == CheckError(credits[k], fetch(credits[k]).error)) &&
              (items[k].Checked? ==> items[k].report.creditId == credits[k] &&
                                     items[k].report.status == fetch(credits[k]).value)
    decreases |credits|
  {
    if |credits| > 0 {
      var init := credits[..|credits| - 1];
      var c := credits[|credits| - 1];
      SweepRunAligned(db, init, v, fetch, now, cf);
      var prev := SweepRun(db, init, v, fetch, now, cf);
      CheckKeepsWellFormed(prev.0, c, v, fetch(c), now, cf);
      var items := SweepRun(db, credits, v, fetch, now, cf).1;
      forall k | 0 <= k < |credits|
        ensures (items[k].CheckError? <==> fetch(credits[k]).Err?) &&
                (items[k].CheckError? ==> items[k] == CheckError(credits[k], fetch(credits[k]).error)) &&
                (items[k].Checked? ==> items[k].report.creditId == credits[k] &&
                                       items[k].report.status == fetch(credits[k]).value)
      {
        if k < |init| {
          assert items[k] == prev.1[k] && credits[k] == init[k];
        }
      }
    }
  }

  /** While no fetched status is terminal, the sweep changes no record and no queue. */
  lemma {:induction false} SweepRunNonTerminal(db: Db, credits: seq<string>, v: Variant, fetch: string -> Result<CreditStatus, string>,
                                               now: int, cf: CancelFaults)
    requires WellFormed(db)
    requires forall k :: 0 <= k < |credits| ==> !(fetch(credits[k]).Ok? && IsTerminal(fetch(credits[k]).value))
    ensures var db' := SweepRun(db, credits, v, fetch, now, cf).0;
            db'.records == db.records && db'.queues == db.queues
    decreases |credits|
  {
    if |credits| > 0 {
      var init := credits[..|credits| - 1];
      var c := credits[|credits| - 1];
      assert forall k :: 0 <= k < |init| ==> init[k] == credits[k];
      SweepRunNonTerminal(db, init, v, fetch, now, cf);
      SweepRunAligned(db, init, v, fetch, now, cf);
      var prev := SweepRun(db, init, v, fetch, now, cf);
      if fetch(c).Ok? {
        if exists id: nat :: PlanOf(prev.0.plans, c, id) {
          CheckWithPlan(prev.0, c, v, fetch(c).value, now, cf);
        } else {
          CheckWithoutPlan(prev.0, c, v, fetch(c), now, cf);
        }
      }
    }
  }

  /**
   * The sweep's answer: checked is the number of plans loaded, with one
   * result per loaded plan, in load order, each about that plan's credit.
   */
  lemma SweepSpec(db: Db, v: Variant, fetch: string -> Result<CreditStatus, string>, now: int, sc: StatusCheckConfig, cf: CancelFaults)
    requires WellFormed(db)
    ensures var ids := SelectBatch(db, now, sc);
            var (db', res) := SweepOutcome(db, v, fetch, now, sc, cf);
            WellFormed(db') && res.checked == |ids| && |res.results| == |ids| &&
            forall k :: 0 <= k < |ids| ==>
              ids[k] in db.plans &&
              var c := db.plans[ids[k]].creditId;
              (res.results[k].CheckError? <==> fetch(c).Err?) &&
              (res.results[k].CheckError? ==> res.results[k] == CheckError(c, fetch(c).error)) &&
              (res.results[k].Checked? ==> res.results[k].report.creditId == c)
  {
    var ids := SelectBatch(db, now, sc);
    SelectBatchSpec(db, now, sc);
    SweepRunAligned(db, BatchCredits(db, ids), v, fetch, now, cf);
  }

  /** One pass through the loop body: the check, or the error entry when it throws. */
  method SweepOne(st: Store, creditId: string, v: Variant, fetch: string -> Result<CreditStatus, string>, now: int, cf: CancelFaults)
    returns (item: SweepItem)
    modifies st
    ensures (st.Snap(), item) == SweepStep(old(st.Snap()), creditId, v, fetch, now, cf)
  {
    var r := CheckCreditStatus(st, creditId, v, fetch(creditId), now, cf);
    match r
    case Ok(report) => item := Checked(report);
    case Err(e) => item := CheckError(creditId, e);
  }

  /** statusCheckQueue.process on the store. */
  method StatusCheckSweep(st: Store, v: Variant, fetch: string -> Result<CreditStatus, string>, now: int, sc: StatusCheckConfig,
                          cf: CancelFaults)
    returns (res: SweepResult)
    modifies st
    ensures (st.Snap(), res) == SweepOutcome(old(st.Snap()), v, fetch, now, sc, cf)
  {
    ghost var db0 := st.Snap();
    var ids := SelectBatch(st.Snap(), now, sc);
    var credits := BatchCredits(st.Snap(), ids);
    var results: seq<SweepItem> := [];
    var i := 0;
    while i < |credits|
      invariant 0 <= i <= |credits|
      invariant (st.Snap(), results) == SweepRun(db0, credits[..i], v, fetch, now, cf)
    {
      assert credits[..i + 1][..i] == credits[..i];
      var item := SweepOne(st, credits[i], v, fetch, now, cf);
      results := results + [item];
      i := i + 1;
    }
    assert credits[..|credits|] == credits;
    res := SweepResult(|ids|, results);
  }

  // ---------------------------------------------------------------------
  // The "failed" listener
  // ---------------------------------------------------------------------

  /** The metadata the listener writes, replacing whatever was there. */
  function FailedMetadata(message: string, now: int, attemptsMade: nat): map<string, MetaValue> {
    map["error" := Text(message), "failedAt" := Time(now), "attempts" := Number(attemptsMade)]
  }

  /**
   * queue.on("failed"): a job with a record id marks that record failed
   * with fresh metadata; a missing record or a failing update (which is
   * only logged) leaves the store as it is.
   */
  function FailedOutcome(db: Db, job: Job, message: string, now: int, attemptsMade: nat, updateFails: bool): Db {
    match job.data
    case StatusCheckJob(_) => db
    case NotificationJob(id, _, _, _) =>
      if id in db.records && !updateFails then
        db.(records := db.records[id := db.records[id].(status := Failed, metadata := FailedMetadata(message, now, attemptsMade))])
      else db
  }

  /**
   * After the listener, the job's record is failed and its metadata holds
   * exactly the error, the failure time and the attempt count; every other
   * field and every other record is unchanged; jobs without a record id
   * change nothing.
   */
  lemma FailedListenerSpec(db: Db, job: Job, message: string, now: int, attemptsMade: nat)
    ensures var db' := FailedOutcome(db, job, message, now, attemptsMade, false);
            db'.plans == db.plans && db'.queues == db.queues && db'.records.Keys == db.records.Keys &&
            (forall k :: k in db.records && (job.data.StatusCheckJob? || k != job.data.recordId) ==>
               db'.records[k] == db.records[k]) &&
            (job.data.NotificationJob? && job.data.recordId in db.records ==>
               var r := db'.records[job.data.recordId];
               r.status == Failed && r.metadata.Keys == {"error", "failedAt", "attempts"} &&
               r.metadata["error"] == Text(message) && r.metadata["failedAt"] == Time(now) &&
               r.metadata["attempts"] == Number(attemptsMade) &&
               r.(status := db.records[job.data.recordId].status, metadata := db.records[job.data.recordId].metadata) ==
                 db.records[job.data.recordId])
  {
  }

  /** The listener's update on the store. */
  method OnJobFailed(st: Store, job: Job, message: string, now: int, attemptsMade: nat, updateFails: bool)
    modifies st
    ensures st.Snap() == FailedOutcome(old(st.Snap()), job, message, now, attemptsMade, updateFails)
  {
    if job.data.NotificationJob? && job.data.recordId in st.records && !updateFails {
      var id := job.data.recordId;
      st.PutRecord(id, st.records[id].(status := Failed, metadata := FailedMetadata(message, now, attemptsMade)));
    }
  }

  // ---------------------------------------------------------------------
  // setupRecurringChecks
  // ---------------------------------------------------------------------

  /** removeRepeatableByKey: every repeatable job with that key goes. */
  function RemoveRepeatable(rs: seq<Repeatable>, key: string): (r: seq<Repeatable>)
    ensures forall x :: x in r <==> x in rs && x.key != key
  {
    if rs == [] then []
    else (if rs[0].key != key then [rs[0]] else []) + RemoveRepeatable(rs[1..], key)
  }

  lemma EmptyOrHead(s: seq<Repeatable>)
    ensures s == [] || s[0] in s
  {
  }

  /** rs holds exactly the listed jobs whose key differs from the keys of the first i listed. */
  ghost predicate Cleared(rs: seq<Repeatable>, listed: seq<Repeatable>, i: nat)
    requires i <= |listed|
  {
    forall x :: x in rs <==> x in listed && forall j :: 0 <= j < i ==> x.key != listed[j].key
  }

  /** Removing the next listed key clears one more. */
  lemma ClearedStep(rs: seq<Repeatable>, listed: seq<Repeatable>, i: nat)
    requires i < |listed| && Cleared(rs, listed, i)
    ensures Cleared(RemoveRepeatable(rs, listed[i].key), listed, i + 1)
  {
  }

  /** Once every listed key is removed, nothing is left. */
  lemma ClearedAll(rs: seq<Repeatable>, listed: seq<Repeatable>)
    requires Cleared(rs, listed, |listed|)
    ensures rs == []
  {
    EmptyOrHead(rs);
  }

  /**
   * setupRecurringChecks: every repeatable job listed at the start is
   * removed by its key, then the one recurring check is added, repeating
   * every check interval and removed on completion. key is the key the
   * queue derives for it. Nothing else in the store changes.
   */
  method SetupRecurringChecks(st: Store, sc: StatusCheckConfig, key: string)
    modifies st
    ensures st.Snap() == old(st.Snap()).(repeatables := [Repeatable(key, sc.checkInterval, true)])
  {
    ghost var db0 := st.Snap();
    var listed := st.repeatables;
    var i := 0;
    while i < |listed|
      invariant 0 <= i <= |listed|
      invariant st.Snap() == db0.(repeatables := st.repeatables)
      invariant Cleared(st.repeatables, listed, i)
    {
      ClearedStep(st.repeatables, listed, i);
      st.SetRepeatables(RemoveRepeatable(st.repeatables, listed[i].key));
      i := i + 1;
    }
    ClearedAll(st.repeatables, listed);
    st.SetRepeatables(st.repeatables + [Repeatable(key, sc.checkInterval, true)]);
  }
}
