/**
 * Cancelling the scheduled notifications of a credit: every record of the
 * credit still scheduled is found first; then, one by one, its queued job
 * is removed and its status set to cancelled. A failure of one record is
 * reported in its result entry and does not stop the others.
 */
module Cancel {
  import opened Wrappers
  import opened Models
  import opened Store

  /** A record the cancellation query finds: of that credit and still scheduled. */
  predicate Matches(records: map<nat, Record>, creditId: string, id: nat) {
    id in records && records[id].creditId == creditId && records[id].status == Scheduled
  }

  /** The records the query returns, among the ids below n, in ascending id order. */
  function MatchedIds(records: map<nat, Record>, creditId: string, n: nat): (ids: seq<nat>)
    ensures forall k :: 0 <= k < |ids| ==> ids[k] < n && Matches(records, creditId, ids[k])
    ensures forall id: nat :: id < n && Matches(records, creditId, id) ==> id in ids
    ensures forall i, j :: 0 <= i < j < |ids| ==> ids[i] < ids[j]
  {
    if n == 0 then []
    else MatchedIds(records, creditId, n - 1) + (if Matches(records, creditId, n - 1) then [n - 1] else [])
  }

  /** When nothing matches, the query returns no record. */
  lemma {:induction false} MatchedIdsNone(records: map<nat, Record>, creditId: string, n: nat)
    requires forall id: nat :: !Matches(records, creditId, id)
    ensures MatchedIds(records, creditId, n) == []
  {
    if n > 0 {
      MatchedIdsNone(records, creditId, n - 1);
    }
  }

  datatype CancelFaults = CancelFaults(removeFails: set<nat>, writeFails: set<nat>)

  datatype CancelEntry = CancelEntry(recordId: nat, success: bool)

  datatype CancelResult = CancelResult(totalCancelled: nat, totalFailed: nat, details: seq<CancelEntry>)

  /** The status write that ends a successful cancellation. */
  function MarkCancelled(db: Db, id: nat, writeFails: bool): (Db, CancelEntry)
    requires id in db.records
  {
    if writeFails then (db, CancelEntry(id, false))
    else (db.(records := db.records[id := db.records[id].(status := Cancelled)]), CancelEntry(id, true))
  }

  /**
   * One iteration of the loop: remove the job if there is one, then write
   * the status. As written, the debug line after a successful removal
   * names an undefined variable, which throws into the failure branch.
   * An id without a record has nothing to cancel and counts as a success;
   * the loop never meets one, since MatchedIds lists stored records only.
   */
  function CancelStep(db: Db, id: nat, v: Variant, removeFails: bool, writeFails: bool): (Db, CancelEntry)
  {
    if id !in db.records then (db, CancelEntry(id, true))
    else
      var r := db.records[id];
      if !HasJob(r) then MarkCancelled(db, id, writeFails)
      else if removeFails then (db, CancelEntry(id, false))
      else
        var q := db.queues.Get(r.channel);
        if r.jobId.value !in q then MarkCancelled(db, id, writeFails)
        else
          var db1 := db.(queues := db.queues.Set(r.channel, q - {r.jobId.value}));
          if v == AsWritten then (db1, CancelEntry(id, false))
          else MarkCancelled(db1, id, writeFails)
  }

  /** The loop over the matched ids, in order. */
  function CancelRun(db: Db, ids: seq<nat>, v: Variant, f: CancelFaults): (Db, seq<CancelEntry>)
    decreases |ids|
  {
    if |ids| == 0 then (db, [])
    else
      var prev := CancelRun(db, ids[..|ids| - 1], v, f);
      var id := ids[|ids| - 1];
      var step := CancelStep(prev.0, id, v, id in f.removeFails, id in f.writeFails);
      (step.0, prev.1 + [step.1])
  }

  /** The number of successful entries. */
  function CountSuccess(ds: seq<CancelEntry>): nat
    decreases |ds|
  {
    if |ds| == 0 then 0 else CountSuccess(ds[..|ds| - 1]) + (if ds[|ds| - 1].success then 1 else 0)
  }

  /** The number of failed entries. */
  function CountFailure(ds: seq<CancelEntry>): nat
    decreases |ds|
  {
    if |ds| == 0 then 0 else CountFailure(ds[..|ds| - 1]) + (if ds[|ds| - 1].success then 0 else 1)
  }

  /** cancelScheduledNotifications as a value: query, loop, totals. */
  function CancelOutcome(db: Db, creditId: string, v: Variant, f: CancelFaults): (Db, CancelResult)
  {
    var ids := MatchedIds(db.records, creditId, db.nextId);
    var run := CancelRun(db, ids, v, f);
    (run.0, CancelResult(CountSuccess(run.1), CountFailure(run.1), run.1))
  }

  /** Every entry is counted once: cancelled plus failed is the number of entries. */
  lemma {:induction false} CountsAddUp(ds: seq<CancelEntry>)
    ensures CountSuccess(ds) + CountFailure(ds) == |ds|
    ensures CountFailure(ds) == 0 <==> forall k :: 0 <= k < |ds| ==> ds[k].success
    decreases |ds|
  {
    if |ds| > 0 {
      var init := ds[..|ds| - 1];
      CountsAddUp(init);
      assert forall k :: 0 <= k < |init| ==> init[k] == ds[k];
    }
  }

  /** The jobs of b are jobs of a, unchanged: queues only lose jobs. */
  predicate QueuesShrink(a: Queues, b: Queues) {
    forall c, k :: k in b.Get(c) ==> k in a.Get(c) && b.Get(c)[k] == a.Get(c)[k]
  }

  /** What one iteration never does: add or drop a record, add a job, touch plans, repeatables or ids. */
  lemma CancelStepFrame(db: Db, id: nat, v: Variant, rf: bool, wf: bool)
    ensures var (db', e) := CancelStep(db, id, v, rf, wf);
            e.recordId == id && db'.records.Keys == db.records.Keys && QueuesShrink(db.queues, db'.queues) &&
            db'.plans == db.plans && db'.repeatables == db.repeatables && db'.nextId == db.nextId
  {
  }

  /** What one iteration does: at most the status of its own record changes, at most its own job goes. */
  lemma CancelStepEffect(db: Db, id: nat, v: Variant, rf: bool, wf: bool)
    requires id in db.records
    ensures var (db', e) := CancelStep(db, id, v, rf, wf);
            var r := db.records[id];
            (forall k :: k in db.records && k != id ==> k in db'.records && db'.records[k] == db.records[k]) &&
            id in db'.records && db'.records[id] == (if e.success then r.(status := Cancelled) else r) &&
            (forall c, k :: k in db.queues.Get(c) && k !in db'.queues.Get(c) ==> HasJob(r) && k == r.jobId.value) &&
            (HasJob(r) && !rf ==> r.jobId.value !in db'.queues.Get(r.channel))
    ensures var (db', e) := CancelStep(db, id, v, rf, wf);
            var r := db.records[id];
            e.success <==> !wf && !(HasJob(r) && rf) &&
                           (v == Corrected || !HasJob(r) || r.jobId.value !in db.queues.Get(r.channel))
  {
  }

  /** The loop never adds or drops a record or a job and leaves plans, repeatables and ids alone; one entry per id, in order. */
  lemma {:induction false} CancelRunFrame(db: Db, ids: seq<nat>, v: Variant, f: CancelFaults)
    ensures var (db', ds) := CancelRun(db, ids, v, f);
            |ds| == |ids| && (forall k :: 0 <= k < |ds| ==> ds[k].recordId == ids[k]) &&
            db'.records.Keys == db.records.Keys && QueuesShrink(db.queues, db'.queues) &&
            db'.plans == db.plans && db'.repeatables == db.repeatables && db'.nextId == db.nextId
    decreases |ids|
  {
    if |ids| > 0 {
      var init := ids[..|ids| - 1];
      var id := ids[|ids| - 1];
      CancelRunFrame(db, init, v, f);
      var prev := CancelRun(db, init, v, f);
      CancelStepFrame(prev.0, id, v, id in f.removeFails, id in f.writeFails);
    }
  }

  /** The loop leaves every record it is not given exactly as it was. */
  lemma {:induction false} CancelRunOthers(db: Db, ids: seq<nat>, v: Variant, f: CancelFaults)
    requires forall k :: 0 <= k < |ids| ==> ids[k] in db.records
    ensures var db' := CancelRun(db, ids, v, f).0;
            forall id :: id in db.records && id !in ids ==> id in db'.records && db'.records[id] == db.records[id]
    decreases |ids|
  {
    if |ids| > 0 {
      var init := ids[..|ids| - 1];
      var id := ids[|ids| - 1];
      assert forall k :: 0 <= k < |init| ==> init[k] == ids[k];
      CancelRunOthers(db, init, v, f);
      CancelRunFrame(db, init, v, f);
      var prev := CancelRun(db, init, v, f);
      CancelStepEffect(prev.0, id, v, id in f.removeFails, id in f.writeFails);
      forall j | j in db.records && j !in ids
        ensures j !in init && j != id
      {
      }
    }
  }

  /** The loop over distinct ids: a record's status becomes cancelled exactly when its entry succeeds, and nothing else about any record changes. */
  lemma {:induction false} CancelRunRecords(db: Db, ids: seq<nat>, v: Variant, f: CancelFaults)
    requires forall k :: 0 <= k < |ids| ==> ids[k] in db.records
    requires forall i, j :: 0 <= i < j < |ids| ==> ids[i] < ids[j]
    ensures var (db', ds) := CancelRun(db, ids, v, f);
            |ds| == |ids| &&
            (forall id :: id in db.records && id !in ids ==> id in db'.records && db'.records[id] == db.records[id]) &&
            (forall k :: 0 <= k < |ids| ==>
               ids[k] in db'.records &&
               db'.records[ids[k]] == (if ds[k].success then db.records[ids[k]].(status := Cancelled) else db.records[ids[k]]))
    decreases |ids|
  {
    CancelRunFrame(db, ids, v, f);
    CancelRunOthers(db, ids, v, f);
    if |ids| > 0 {
      var init := ids[..|ids| - 1];
      var id := ids[|ids| - 1];
      assert forall k :: 0 <= k < |init| ==> init[k] == ids[k];
      CancelRunRecords(db, init, v, f);
      CancelRunFrame(db, init, v, f);
      var prev := CancelRun(db, init, v, f);
      assert id !in init;
      var step := CancelStep(prev.0, id, v, id in f.removeFails, id in f.writeFails);
      CancelStepEffect(prev.0, id, v, id in f.removeFails, id in f.writeFails);
      var out := CancelRun(db, ids, v, f);
      assert out == (step.0, prev.1 + [step.1]);
      forall k | 0 <= k < |ids|
        ensures ids[k] in out.0.records &&
                out.0.records[ids[k]] == (if out.1[k].success then db.records[ids[k]].(status := Cancelled) else db.records[ids[k]])
      {
        if k < |init| {
          assert ids[k] == init[k] && ids[k] != id;
          assert out.1[k] == prev.1[k];
        } else {
          assert ids[k] == id && out.1[k] == step.1;
        }
      }
    }
  }

  /** The loop over distinct ids removes only the matched records' own jobs, and each record whose removal did not fail has lost its job. */
  lemma {:induction false} CancelRunJobs(db: Db, ids: seq<nat>, v: Variant, f: CancelFaults)
    requires forall k :: 0 <= k < |ids| ==> ids[k] in db.records
    requires forall i, j :: 0 <= i < j < |ids| ==> ids[i] < ids[j]
    ensures var (db', ds) := CancelRun(db, ids, v, f);
            (forall c, j :: j in db.queues.Get(c) && j !in db'.queues.Get(c) ==>
               exists k :: 0 <= k < |ids| && HasJob(db.records[ids[k]]) && db.records[ids[k]].jobId.value == j) &&
            (forall k :: 0 <= k < |ids| && HasJob(db.records[ids[k]]) && ids[k] !in f.removeFails ==>
               db.records[ids[k]].jobId.value !in db'.queues.Get(db.records[ids[k]].channel))
    decreases |ids|
  {
    if |ids| > 0 {
      var init := ids[..|ids| - 1];
      var id := ids[|ids| - 1];
      assert forall k :: 0 <= k < |init| ==> init[k] == ids[k];
      CancelRunJobs(db, init, v, f);
      CancelRunRecords(db, init, v, f);
      var prev := CancelRun(db, init, v, f);
      assert id !in init;
      CancelStepEffect(prev.0, id, v, id in f.removeFails, id in f.writeFails);
      CancelStepFrame(prev.0, id, v, id in f.removeFails, id in f.writeFails);
      var out := CancelRun(db, ids, v, f);
      forall c, j | j in db.queues.Get(c) && j !in out.0.queues.Get(c)
        ensures exists k :: 0 <= k < |ids| && HasJob(db.records[ids[k]]) && db.records[ids[k]].jobId.value == j
      {
        if j in prev.0.queues.Get(c) {
          assert HasJob(db.records[ids[|ids| - 1]]) && db.records[ids[|ids| - 1]].jobId.value == j;
        } else {
          var k :| 0 <= k < |init| && HasJob(db.records[init[k]]) && db.records[init[k]].jobId.value == j;
          assert ids[k] == init[k];
        }
      }
      forall k | 0 <= k < |ids| && HasJob(db.records[ids[k]]) && ids[k] !in f.removeFails
        ensures db.records[ids[k]].jobId.value !in out.0.queues.Get(db.records[ids[k]].channel)
      {
        if k < |init| {
          assert ids[k] == init[k];
        }
      }
    }
  }

  /** Entry k fails exactly when the status write of ids[k] or the removal of its job fails. */
  predicate CorrectEntries(db: Db, ids: seq<nat>, f: CancelFaults, ds: seq<CancelEntry>) {
    |ds| == |ids| &&
    forall k :: 0 <= k < |ds| ==>
      ids[k] in db.records &&
      (ds[k].success <==> ids[k] !in f.writeFails && !(HasJob(db.records[ids[k]]) && ids[k] in f.removeFails))
  }

  /** One more corrected step on a record not touched before. */
  lemma CorrectEntriesStep(db: Db, ids: seq<nat>, f: CancelFaults, prev: (Db, seq<CancelEntry>))
    requires |ids| > 0 && CorrectEntries(db, ids[..|ids| - 1], f, prev.1)
    requires ids[|ids| - 1] in db.records && ids[|ids| - 1] in prev.0.records
    requires prev.0.records[ids[|ids| - 1]] == db.records[ids[|ids| - 1]]
    ensures var id := ids[|ids| - 1];
            CorrectEntries(db, ids, f, prev.1 + [CancelStep(prev.0, id, Corrected, id in f.removeFails, id in f.writeFails).1])
  {
    var id := ids[|ids| - 1];
    var init := ids[..|ids| - 1];
    assert ids == init + [id];
    CancelStepEffect(prev.0, id, Corrected, id in f.removeFails, id in f.writeFails);
  }

  /** In the corrected loop over distinct ids, an entry fails exactly when its own status write or job removal fails. */
  lemma {:induction false} CancelRunCorrected(db: Db, ids: seq<nat>, f: CancelFaults)
    requires forall k :: 0 <= k < |ids| ==> ids[k] in db.records
    requires forall i, j :: 0 <= i < j < |ids| ==> ids[i] < ids[j]
    ensures CorrectEntries(db, ids, f, CancelRun(db, ids, Corrected, f).1)
    decreases |ids|
  {
    if |ids| > 0 {
      var init := ids[..|ids| - 1];
      var id := ids[|ids| - 1];
      assert forall k :: 0 <= k < |init| ==> init[k] == ids[k];
      CancelRunCorrected(db, init, f);
      CancelRunOthers(db, init, Corrected, f);
      assert id !in init;
      CorrectEntriesStep(db, ids, f, CancelRun(db, init, Corrected, f));
    }
  }

  /** The records cancellation matches are exactly the scheduled records of that credit, and each matched record exists. */
  lemma MatchedAreRecords(db: Db, creditId: string)
    requires WellFormed(db)
    ensures var ids := MatchedIds(db.records, creditId, db.nextId);
            (forall k :: 0 <= k < |ids| ==> ids[k] in db.records) &&
            forall id :: Matches(db.records, creditId, id) <==> id in ids
  {
  }

  /** cancelScheduledNotifications: one entry per matched record, in order, and the totals add up to the number matched. */
  lemma CancelOutcomeTotals(db: Db, creditId: string, v: Variant, f: CancelFaults)
    ensures var ids := MatchedIds(db.records, creditId, db.nextId);
            var res := CancelOutcome(db, creditId, v, f).1;
            res.totalCancelled + res.totalFailed == |ids| && |res.details| == |ids| &&
            (forall k :: 0 <= k < |ids| ==> res.details[k].recordId == ids[k])
  {
    var ids := MatchedIds(db.records, creditId, db.nextId);
    CancelRunFrame(db, ids, v, f);
    CountsAddUp(CancelOutcome(db, creditId, v, f).1.details);
  }

  /**
   * cancelScheduledNotifications touches only the credit's scheduled
   * records, and only by marking them cancelled; queues only lose jobs; the
   * store stays well formed.
   */
  lemma CancelOutcomeRecords(db: Db, creditId: string, v: Variant, f: CancelFaults)
    requires WellFormed(db)
    ensures var ids := MatchedIds(db.records, creditId, db.nextId);
            var (db', res) := CancelOutcome(db, creditId, v, f);
            |res.details| == |ids| &&
            (forall id :: id in db.records && !Matches(db.records, creditId, id) ==> id in db'.records && db'.records[id] == db.records[id]) &&
            (forall k :: 0 <= k < |ids| ==>
               ids[k] in db'.records &&
               db'.records[ids[k]] == (if res.details[k].success then db.records[ids[k]].(status := Cancelled) else db.records[ids[k]])) &&
            QueuesShrink(db.queues, db'.queues) && db'.plans == db.plans && WellFormed(db')
  {
    var ids := MatchedIds(db.records, creditId, db.nextId);
    var run := CancelRun(db, ids, v, f);
    assert CancelOutcome(db, creditId, v, f) == (run.0, CancelResult(CountSuccess(run.1), CountFailure(run.1), run.1));
    MatchedAreRecords(db, creditId);
    CancelRunFrame(db, ids, v, f);
    CancelRunRecords(db, ids, v, f);
    ShrinkKeepsWellFormed(db, run.0);
  }

  /** A store whose records keep their ids, whose plans and ids stay and whose queues only lose jobs stays well formed. */
  lemma ShrinkKeepsWellFormed(db: Db, db': Db)
    requires WellFormed(db)
    requires db'.records.Keys == db.records.Keys && db'.plans == db.plans && db'.nextId == db.nextId
    requires QueuesShrink(db.queues, db'.queues)
    ensures WellFormed(db')
  {
    forall c
      ensures KeyedById(db'.queues.Get(c))
    {
      assert KeyedById(db.queues.Get(c));
    }
  }

  /** The re-match argument for one id, over the loop's effect on the records. */
  lemma RematchOne(r0: map<nat, Record>, r1: map<nat, Record>, ids: seq<nat>, ds: seq<CancelEntry>, creditId: string, id: nat)
    requires |ds| == |ids|
    requires forall i, j :: 0 <= i < j < |ids| ==> ids[i] < ids[j]
    requires forall k :: 0 <= k < |ids| ==> Matches(r0, creditId, ids[k])
    requires Matches(r0, creditId, id) ==> id in ids
    requires r1.Keys == r0.Keys
    requires id in r0 && id !in ids ==> r1[id] == r0[id]
    requires forall k :: 0 <= k < |ids| ==> ids[k] in r1 && r1[ids[k]] == (if ds[k].success then r0[ids[k]].(status := Cancelled) else r0[ids[k]])
    ensures Matches(r1, creditId, id) <==> exists k :: 0 <= k < |ids| && ids[k] == id && !ds[k].success
  {
    if id in ids {
      var k :| 0 <= k < |ids| && ids[k] == id;
      assert forall k' :: 0 <= k' < |ids| && ids[k'] == id ==> k' == k;
    }
  }

  /** Afterwards a record of the credit is still scheduled exactly when its entry failed: a re-run matches only those. */
  lemma CancelRematch(db: Db, creditId: string, v: Variant, f: CancelFaults)
    requires WellFormed(db)
    ensures var ids := MatchedIds(db.records, creditId, db.nextId);
            var (db', res) := CancelOutcome(db, creditId, v, f);
            |res.details| == |ids| &&
            forall id :: Matches(db'.records, creditId, id) <==>
              exists k :: 0 <= k < |ids| && ids[k] == id && !res.details[k].success
  {
    var ids := MatchedIds(db.records, creditId, db.nextId);
    CancelOutcomeRecords(db, creditId, v, f);
    CancelRunFrame(db, ids, v, f);
    var (db', res) := CancelOutcome(db, creditId, v, f);
    forall id
      ensures Matches(db'.records, creditId, id) <==> exists k :: 0 <= k < |ids| && ids[k] == id && !res.details[k].success
    {
      RematchOne(db.records, db'.records, ids, res.details, creditId, id);
    }
  }

  /** The corrected loop over distinct existing ids with no failing step: every entry succeeds, every record is cancelled and has lost its job. */
  lemma CancelRunFaultFree(db: Db, ids: seq<nat>)
    requires forall k :: 0 <= k < |ids| ==> ids[k] in db.records
    requires forall i, j :: 0 <= i < j < |ids| ==> ids[i] < ids[j]
    ensures var (db', ds) := CancelRun(db, ids, Corrected, CancelFaults({}, {}));
            |ds| == |ids| && (forall k :: 0 <= k < |ds| ==> ds[k].success) &&
            (forall k :: 0 <= k < |ids| ==> ids[k] in db'.records && db'.records[ids[k]].status == Cancelled) &&
            (forall k :: 0 <= k < |ids| && HasJob(db.records[ids[k]]) ==>
               db.records[ids[k]].jobId.value !in db'.queues.Get(db.records[ids[k]].channel))
  {
    var f := CancelFaults({}, {});
    CancelRunCorrected(db, ids, f);
    CancelRunRecords(db, ids, Corrected, f);
    CancelRunJobs(db, ids, Corrected, f);
  }

  /**
   * In the corrected loop with no failing step, every matched record is
   * cancelled and has lost its job, and nothing fails.
   */
  lemma CancelCorrectedFaultFree(db: Db, creditId: string)
    requires WellFormed(db)
    ensures var ids := MatchedIds(db.records, creditId, db.nextId);
            var (db', res) := CancelOutcome(db, creditId, Corrected, CancelFaults({}, {}));
            res.totalFailed == 0 && res.totalCancelled == |ids| &&
            (forall k :: 0 <= k < |ids| ==> ids[k] in db'.records && db'.records[ids[k]].status == Cancelled) &&
            (forall k :: 0 <= k < |ids| && HasJob(db.records[ids[k]]) ==>
               db.records[ids[k]].jobId.value !in db'.queues.Get(db.records[ids[k]].channel))
  {
    var ids := MatchedIds(db.records, creditId, db.nextId);
    var run := CancelRun(db, ids, Corrected, CancelFaults({}, {}));
    MatchedAreRecords(db, creditId);
    CancelRunFaultFree(db, ids);
    CountsAddUp(run.1);
  }

  /** After a fault-free corrected run, a second run on the same credit matches nothing. */
  lemma CancelTwiceMatchesNothing(db: Db, creditId: string)
    requires WellFormed(db)
    ensures var db' := CancelOutcome(db, creditId, Corrected, CancelFaults({}, {})).0;
            MatchedIds(db'.records, creditId, db'.nextId) == []
  {
    var f := CancelFaults({}, {});
    var ids := MatchedIds(db.records, creditId, db.nextId);
    MatchedAreRecords(db, creditId);
    CancelRunCorrected(db, ids, f);
    CancelRematch(db, creditId, Corrected, f);
    var db' := CancelOutcome(db, creditId, Corrected, f).0;
    MatchedIdsNone(db'.records, creditId, db'.nextId);
  }

  /**
   * The loop as written: a record whose job is found and removed gets a
   * failed entry and stays scheduled, though its job is gone.
   */
  lemma CancelAsWrittenLosesJob(db: Db, id: nat, wf: bool)
    requires id in db.records && HasJob(db.records[id])
    requires db.records[id].jobId.value in db.queues.Get(db.records[id].channel)
    ensures var (db', e) := CancelStep(db, id, AsWritten, false, wf);
            !e.success && db'.records[id] == db.records[id] &&
            db.records[id].jobId.value !in db'.queues.Get(db.records[id].channel)
    ensures CancelStep(db, id, Corrected, false, false).1.success
  {
    CancelStepEffect(db, id, AsWritten, false, wf);
    CancelStepEffect(db, id, Corrected, false, false);
  }

  /** As written, a credit with one matched record whose job is queued: nothing is cancelled, one failure, the job is gone. */
  lemma CancelAsWrittenSingle(db: Db, creditId: string, id: nat)
    requires MatchedIds(db.records, creditId, db.nextId) == [id]
    requires id in db.records && HasJob(db.records[id])
    requires db.records[id].jobId.value in db.queues.Get(db.records[id].channel)
    ensures var (db', res) := CancelOutcome(db, creditId, AsWritten, CancelFaults({}, {}));
            res.totalCancelled == 0 && res.totalFailed == 1 && db'.records == db.records &&
            db'.queues == db.queues.Set(db.records[id].channel, db.queues.Get(db.records[id].channel) - {db.records[id].jobId.value})
  {
    var f := CancelFaults({}, {});
    var step := CancelStep(db, id, AsWritten, false, false);
    CancelAsWrittenLosesJob(db, id, false);
    assert [id][..0] == [];
    assert CancelRun(db, [id], AsWritten, f) == (step.0, [] + [step.1]);
    assert [step.1][..0] == [];
    assert CountSuccess([step.1]) == 0 && CountFailure([step.1]) == 1;
  }

  /** A concrete instance: one scheduled SMS record with its job queued. */
  lemma CancelAsWrittenExample()
    ensures var r := NewRecord(0, "C1", "B1", Preventive, -3, Sms, "PREVENTIVE_-3", "text", 100);
            var job := Job("0-100", NotificationJob(0, "C1", "B1", "text"), 1000, 3, None, true, false);
            var db := Db(map[0 := r.(jobId := Some("0-100"))], map[], NoJobs.Set(Sms, map["0-100" := job]), [], 1);
            var (db', res) := CancelOutcome(db, "C1", AsWritten, CancelFaults({}, {}));
            res.totalCancelled == 0 && res.totalFailed == 1 &&
            db'.records[0].status == Scheduled && db'.queues.Get(Sms) == map[]
  {
    var r := NewRecord(0, "C1", "B1", Preventive, -3, Sms, "PREVENTIVE_-3", "text", 100);
    var job := Job("0-100", NotificationJob(0, "C1", "B1", "text"), 1000, 3, None, true, false);
    var db := Db(map[0 := r.(jobId := Some("0-100"))], map[], NoJobs.Set(Sms, map["0-100" := job]), [], 1);
    assert Matches(db.records, "C1", 0);
    assert MatchedIds(db.records, "C1", 0) == [];
    assert MatchedIds(db.records, "C1", 1) == [0];
    CancelAsWrittenSingle(db, "C1", 0);
    assert db.queues.Get(Sms) - {"0-100"} == map[];
    assert db.queues.Set(Sms, map[]).Get(Sms) == map[];
  }

  /** One loop iteration on the store: the job removal, then the status write. */
  method CancelOne(st: Store, id: nat, v: Variant, removeFails: bool, writeFails: bool) returns (e: CancelEntry)
    modifies st
    ensures (st.Snap(), e) == CancelStep(old(st.Snap()), id, v, removeFails, writeFails)
  {
    if id !in st.records {
      return CancelEntry(id, true);
    }
    var r := st.records[id];
    if HasJob(r) {
      if removeFails {
        return CancelEntry(id, false);
      }
      var q := st.queues.Get(r.channel);
      if r.jobId.value in q {
        st.SetQueue(r.channel, q - {r.jobId.value});
        if v == AsWritten {
          return CancelEntry(id, false);
        }
      }
    }
    if writeFails {
      return CancelEntry(id, false);
    }
    st.PutRecord(id, r.(status := Cancelled));
    e := CancelEntry(id, true);
  }

  /** The loop over one more id of a list is the loop so far and one more step. */
  lemma CancelRunPrefix(db: Db, ids: seq<nat>, i: nat, v: Variant, f: CancelFaults)
    requires i < |ids|
    ensures var prev := CancelRun(db, ids[..i], v, f);
            var step := CancelStep(prev.0, ids[i], v, ids[i] in f.removeFails, ids[i] in f.writeFails);
            CancelRun(db, ids[..i + 1], v, f) == (step.0, prev.1 + [step.1])
  {
    assert ids[..i + 1][..i] == ids[..i];
  }

  /** The for-of loop over the matched ids, one entry per id. */
  method CancelLoop(st: Store, ids: seq<nat>, v: Variant, f: CancelFaults) returns (details: seq<CancelEntry>)
    modifies st
    ensures (st.Snap(), details) == CancelRun(old(st.Snap()), ids, v, f)
  {
    ghost var db0 := st.Snap();
    details := [];
    var i := 0;
    while i < |ids|
      invariant 0 <= i <= |ids|
      invariant (st.Snap(), details) == CancelRun(db0, ids[..i], v, f)
    {
      var id := ids[i];
      CancelRunPrefix(db0, ids, i, v, f);
      var e := CancelOne(st, id, v, id in f.removeFails, id in f.writeFails);
      details := details + [e];
      i := i + 1;
    }
    assert ids[..|ids|] == ids;
  }

  /** cancelScheduledNotifications on the store. */
  method CancelScheduledNotifications(st: Store, creditId: string, v: Variant, f: CancelFaults) returns (res: CancelResult)
    modifies st
    ensures (st.Snap(), res) == CancelOutcome(old(st.Snap()), creditId, v, f)
  {
    var ids := MatchedIds(st.records, creditId, st.nextId);
    var details := CancelLoop(st, ids, v, f);
    res := CancelResult(CountSuccess(details), CountFailure(details), details);
  }
}
