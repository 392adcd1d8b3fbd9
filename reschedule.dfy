/**
 * Moving a scheduled record to a new moment: the record is updated first,
 * its old job is removed if it can be (a failure here is ignored), a new
 * job is dispatched and its id written back. Any later failure writes the
 * record's former moment and status back and reports the error.
 */
module Reschedule {
  import opened Wrappers
  import opened Models
  import opened Store
  import opened Dispatch

  /** Which store or queue steps fail during one reschedule. */
  datatype RescheduleFaults = RescheduleFaults(updateFails: bool, removeFails: bool, addFails: bool, writeFails: bool)

  datatype RescheduleError =
    | RecordNotFound
    | InvalidDate
    | UpdateFailed
    | DispatchFailed(cause: DispatchError)
    | JobIdWriteFailed

  /** The queues after the best-effort removal of the record's old job. */
  function RemoveOldJob(qs: Queues, r: Record, removeFails: bool): (qs': Queues)
    ensures HasJob(r) && !removeFails ==>
              qs'.Get(r.channel) == qs.Get(r.channel) - {r.jobId.value} &&
              forall c :: c != r.channel ==> qs'.Get(c) == qs.Get(c)
    ensures !HasJob(r) || removeFails ==> qs' == qs
  {
    if HasJob(r) && !removeFails then qs.Set(r.channel, qs.Get(r.channel) - {r.jobId.value}) else qs
  }

  /**
   * rescheduleBullJob as a value: the store afterwards and the new job or
   * the error. newDate is None for a value that is not a valid date.
   */
  function RescheduleOutcome(db: Db, id: nat, newDate: Option<int>, now: int, f: RescheduleFaults)
    : (Db, Result<Job, RescheduleError>)
  {
    if id !in db.records then (db, Err(RecordNotFound))
    else if newDate.None? then (db, Err(InvalidDate))
    else if f.updateFails then (db, Err(UpdateFailed))
    else Accepted(db, id, newDate.value, now, f)
  }

  /** The try block, once the record was found and the date accepted. */
  function Accepted(db: Db, id: nat, t: int, now: int, f: RescheduleFaults): (Db, Result<Job, RescheduleError>)
    requires id in db.records
  {
    var rec := db.records[id];
    var upd := rec.(scheduledFor := t, status := Scheduled);
    var qs1 := RemoveOldJob(db.queues, rec, f.removeFails);
    var rolledBack := db.records[id := upd.(scheduledFor := rec.scheduledFor, status := rec.status)];
    match DispatchJob(qs1, id, upd, ChannelName(upd.channel), now, f.addFails)
    case Err(e) => (db.(records := rolledBack, queues := qs1), Err(DispatchFailed(e)))
    case Ok(v) =>
      if f.writeFails then (db.(records := rolledBack, queues := v.0), Err(JobIdWriteFailed))
      else (db.(records := db.records[id := upd.(jobId := Some(v.1.id))], queues := v.0), Ok(v.1))
  }

  /** A missing record is reported before the date is looked at; an invalid date is reported next. Neither changes anything. */
  lemma RescheduleRejects(db: Db, id: nat, newDate: Option<int>, now: int, f: RescheduleFaults)
    ensures id !in db.records ==> RescheduleOutcome(db, id, newDate, now, f) == (db, Err(RecordNotFound))
    ensures id in db.records && newDate.None? ==> RescheduleOutcome(db, id, newDate, now, f) == (db, Err(InvalidDate))
  {
  }

  /**
   * On success the record holds the new moment, is scheduled and carries
   * the id of the returned job, which is in its channel's queue under the
   * id derived from the new moment; no other record and no plan changes.
   */
  lemma RescheduleSuccess(db: Db, id: nat, newDate: Option<int>, now: int, f: RescheduleFaults)
    requires WellFormed(db)
    requires RescheduleOutcome(db, id, newDate, now, f).1.Ok?
    ensures var (db', res) := RescheduleOutcome(db, id, newDate, now, f);
            id in db.records && newDate.Some? && id in db'.records &&
            var r := db'.records[id];
            r.scheduledFor == newDate.value && r.status == Scheduled && r.jobId == Some(res.value.id) &&
            res.value.id == JobIdFor(id, newDate.value) &&
            res.value.id in db'.queues.Get(r.channel) && db'.queues.Get(r.channel)[res.value.id] == res.value &&
            r == db.records[id].(scheduledFor := newDate.value, status := Scheduled, jobId := Some(res.value.id)) &&
            (forall k :: k != id ==> (k in db'.records <==> k in db.records)) &&
            (forall k :: k != id && k in db.records ==> db'.records[k] == db.records[k]) &&
            db'.plans == db.plans && db'.repeatables == db.repeatables && db'.nextId == db.nextId
  {
    var rec := db.records[id];
    var upd := rec.(scheduledFor := newDate.value, status := Scheduled);
    var qs1 := RemoveOldJob(db.queues, rec, f.removeFails);
    ParseChannelName(upd.channel);
    assert forall c :: KeyedById(qs1.Get(c));
    DispatchKeyedById(qs1, id, upd, ChannelName(upd.channel), now, f.addFails);
  }

  /**
   * A failing removal of the old job is ignored: with the other steps
   * succeeding, the reschedule succeeds and leaves the same records whether
   * the removal worked or not.
   */
  lemma RemoveFailureIgnored(db: Db, id: nat, t: int, now: int, f: RescheduleFaults)
    requires WellFormed(db) && id in db.records && !f.updateFails && !f.addFails && !f.writeFails
    ensures RescheduleOutcome(db, id, Some(t), now, f).1.Ok?
    ensures RescheduleOutcome(db, id, Some(t), now, f).0.records ==
            RescheduleOutcome(db, id, Some(t), now, f.(removeFails := !f.removeFails)).0.records
  {
    var rec := db.records[id];
    var upd := rec.(scheduledFor := t, status := Scheduled);
    ParseChannelName(upd.channel);
    var qa := RemoveOldJob(db.queues, rec, f.removeFails);
    var qb := RemoveOldJob(db.queues, rec, !f.removeFails);
    assert forall c :: KeyedById(qa.Get(c)) && KeyedById(qb.Get(c));
    DispatchKeyedById(qa, id, upd, ChannelName(upd.channel), now, false);
    DispatchKeyedById(qb, id, upd, ChannelName(upd.channel), now, false);
  }

  /**
   * Rollback: any failure after the record was found and the date accepted
   * leaves every record exactly as it was, while the queues keep what the
   * failed run did to them (the old job removed, a new job added).
   */
  lemma RescheduleRollback(db: Db, id: nat, newDate: Option<int>, now: int, f: RescheduleFaults)
    requires RescheduleOutcome(db, id, newDate, now, f).1.Err?
    ensures RescheduleOutcome(db, id, newDate, now, f).0.records == db.records
    ensures RescheduleOutcome(db, id, newDate, now, f).0.plans == db.plans
    ensures id in db.records && newDate.Some? && !f.updateFails && HasJob(db.records[id]) && !f.removeFails &&
            RescheduleOutcome(db, id, newDate, now, f).1 != Err(JobIdWriteFailed) ==>
              db.records[id].jobId.value !in RescheduleOutcome(db, id, newDate, now, f).0.queues.Get(db.records[id].channel)
  {
    if id in db.records && newDate.Some? && !f.updateFails {
      var rec := db.records[id];
      var upd := rec.(scheduledFor := newDate.value, status := Scheduled);
      assert upd.(scheduledFor := rec.scheduledFor, status := rec.status) == rec;
      assert db.records[id := rec] == db.records;
      ParseChannelName(upd.channel);
    }
  }

  /**
   * Whatever happens, a reschedule changes at most the moment, the status
   * and the job id of its own record, and no other record or plan.
   */
  lemma RescheduleTouchesOnlyItsRecord(db: Db, id: nat, newDate: Option<int>, now: int, f: RescheduleFaults)
    ensures var db' := RescheduleOutcome(db, id, newDate, now, f).0;
            db'.records.Keys == db.records.Keys && db'.plans == db.plans && db'.nextId == db.nextId &&
            (forall k :: k in db.records && k != id ==> db'.records[k] == db.records[k]) &&
            (id in db.records ==>
               var r := db.records[id];
               db'.records[id].(scheduledFor := r.scheduledFor, status := r.status, jobId := r.jobId) == r)
  {
  }

  /** A reschedule keeps the store well formed. */
  lemma RescheduleWellFormed(db: Db, id: nat, newDate: Option<int>, now: int, f: RescheduleFaults)
    requires WellFormed(db)
    ensures WellFormed(RescheduleOutcome(db, id, newDate, now, f).0)
  {
    if id in db.records && newDate.Some? && !f.updateFails {
      var rec := db.records[id];
      var upd := rec.(scheduledFor := newDate.value, status := Scheduled);
      var qs1 := RemoveOldJob(db.queues, rec, f.removeFails);
      assert forall c :: KeyedById(qs1.Get(c));
      var d := DispatchJob(qs1, id, upd, ChannelName(upd.channel), now, f.addFails);
      if d.Ok? {
        DispatchKeyedById(qs1, id, upd, ChannelName(upd.channel), now, f.addFails);
      }
    }
  }

  /** A second write under the same id replaces the first. */
  lemma WriteTwice(m: map<nat, Record>, id: nat, a: Record, b: Record)
    ensures m[id := a][id := b] == m[id := b]
  {
  }

  /** rescheduleBullJob on the store: the two checks, then the try block. */
  method RescheduleJob(st: Store, id: nat, newDate: Option<int>, now: int, f: RescheduleFaults)
    returns (res: Result<Job, RescheduleError>)
    modifies st
    ensures (st.Snap(), res) == RescheduleOutcome(old(st.Snap()), id, newDate, now, f)
  {
    if id !in st.records {
      return Err(RecordNotFound);
    }
    if newDate.None? {
      return Err(InvalidDate);
    }
    if f.updateFails {
      return Err(UpdateFailed);
    }
    res := RescheduleAccepted(st, id, newDate.value, now, f);
  }

  /** The try block step by step: update, best-effort removal, dispatch, job id write, or the rollback write. */
  method RescheduleAccepted(st: Store, id: nat, t: int, now: int, f: RescheduleFaults)
    returns (res: Result<Job, RescheduleError>)
    requires id in st.records
    modifies st
    ensures (st.Snap(), res) == Accepted(old(st.Snap()), id, t, now, f)
  {
    ghost var db0 := st.Snap();
    var rec := st.records[id];
    var upd := rec.(scheduledFor := t, status := Scheduled);
    st.PutRecord(id, upd);
    if HasJob(rec) && !f.removeFails {
      st.SetQueue(rec.channel, st.queues.Get(rec.channel) - {rec.jobId.value});
    }
    assert st.queues == RemoveOldJob(db0.queues, rec, f.removeFails);
    ghost var mid := st.Snap();
    var job := ScheduleNotificationTask(st, id, upd, ChannelName(upd.channel), now, f.addFails);
    var restored := upd.(scheduledFor := rec.scheduledFor, status := rec.status);
    if job.Err? {
      st.PutRecord(id, restored);
      WriteTwice(db0.records, id, upd, restored);
      return Err(DispatchFailed(job.error));
    }
    if f.writeFails {
      st.PutRecord(id, restored);
      WriteTwice(db0.records, id, upd, restored);
      return Err(JobIdWriteFailed);
    }
    st.PutRecord(id, upd.(jobId := Some(job.value.id)));
    WriteTwice(db0.records, id, upd, upd.(jobId := Some(job.value.id)));
    res := Ok(job.value);
  }
}
