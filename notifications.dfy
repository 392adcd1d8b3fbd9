/**
 * The executor a queue worker calls for one record: the status guard, the
 * daily cap, the send through the record's channel, and the record-level
 * retry budget (two retries an hour apart, counted on the record and kept
 * apart from the queue's own attempts).
 */
module Notifications {
  import opened Wrappers
  import opened Models
  import opened Strategy
  import opened TimeWindow
  import opened Store
  import opened Dispatch
  import opened Reschedule

  /** What the channel sender returns: the provider's answer, or the error it threw. */
  datatype Delivery = Delivered(response: MetaValue) | DeliveryFailed(message: string)

  /** The record-level retry budget: a failed send is retried while retryCount is below this. */
  const MaxRecordRetries: int := 2

  datatype SendResult =
    | SentOk(recordId: nat, channel: Channel, sentAt: int, response: MetaValue)
    | Skipped(status: RecordStatus)
    | LimitDeferred(nextAttempt: int)
    | Retried(message: string, nextAttempt: int)

  datatype SendError =
    | MissingRecord
    | DeliveryError(message: string)
    | UndefinedName(name: string)
    | RescheduleFailed(cause: RescheduleError)

  /** The record after a successful send: sent now, with the provider's answer added to its metadata. */
  function SentRecord(r: Record, now: int, response: MetaValue): Record {
    r.(status := Sent, sentAt := Some(now), metadata := r.metadata["providerResponse" := response])
  }

  /** The record after a failed send: failed, with the error and the next retry count in its metadata. */
  function FailedRecord(r: Record, message: string): Record {
    r.(status := Failed, metadata := r.metadata["error" := Text(message)]["retryCount" := Number(r.retryCount + 1)])
  }

  /** The record after a failed send within the budget: scheduled again at next, its count raised. */
  function RetriedRecord(r: Record, message: string, next: int): Record {
    FailedRecord(r, message).(status := Scheduled, scheduledFor := next, retryCount := r.retryCount + 1)
  }

  /**
   * The reschedule call that ends the cap branch and the retry branch. As
   * written the function is not imported, so the call throws; corrected, it
   * is rescheduleBullJob.
   */
  function RescheduleCall(db: Db, id: nat, v: Variant, next: int, now: int, rf: RescheduleFaults, ok: SendResult)
    : (Db, Result<SendResult, SendError>)
  {
    if v == AsWritten then (db, Err(UndefinedName("rescheduleBullJob")))
    else
      var (db', res) := RescheduleOutcome(db, id, Some(next), now, rf);
      if res.Ok? then (db', Ok(ok)) else (db', Err(RescheduleFailed(res.error)))
  }

  /**
   * sendNotification as a value. withinLimit is the daily-cap answer (the
   * stub in the source always allows), delivery the sender's outcome, rf
   * the faults of the reschedule it ends with.
   */
  function SendOutcome(db: Db, id: nat, v: Variant, tc: TimeConstraints, now: int, withinLimit: bool,
                       delivery: Delivery, rf: RescheduleFaults): (Db, Result<SendResult, SendError>)
    requires WellFormedHours(tc)
  {
    if id !in db.records then (db, Err(MissingRecord))
    else
      var r := db.records[id];
      if r.status != Scheduled then (db, Ok(Skipped(r.status)))
      else if !withinLimit then
        var next := NextDayStart(tc, now);
        RescheduleCall(db.(records := db.records[id := r.(scheduledFor := next)]), id, v, next, now, rf, LimitDeferred(next))
      else
        match delivery
        case Delivered(resp) => (db.(records := db.records[id := SentRecord(r, now, resp)]), Ok(SentOk(id, r.channel, now, resp)))
        case DeliveryFailed(msg) =>
          var failed := FailedRecord(r, msg);
          if r.retryCount < MaxRecordRetries then
            var next := now + MS_PER_HOUR;
            RescheduleCall(db.(records := db.records[id := RetriedRecord(r, msg, next)]), id, v, next, now, rf, Retried(msg, next))
          else (db.(records := db.records[id := failed]), Err(DeliveryError(msg)))
  }

  /** A missing record is an error; a record that is not scheduled is skipped. Neither changes anything or sends. */
  lemma SendGuards(db: Db, id: nat, v: Variant, tc: TimeConstraints, now: int, withinLimit: bool, delivery: Delivery, rf: RescheduleFaults)
    requires WellFormedHours(tc)
    ensures id !in db.records ==> SendOutcome(db, id, v, tc, now, withinLimit, delivery, rf) == (db, Err(MissingRecord))
    ensures id in db.records && db.records[id].status != Scheduled ==>
              SendOutcome(db, id, v, tc, now, withinLimit, delivery, rf) == (db, Ok(Skipped(db.records[id].status)))
  {
  }

  /**
   * A delivered notification: the record is sent at now, its metadata keeps
   * every other key and gains the provider's answer, nothing else about it
   * or any other record changes, and no queue changes.
   */
  lemma SendDelivered(db: Db, id: nat, v: Variant, tc: TimeConstraints, now: int, resp: MetaValue, rf: RescheduleFaults)
    requires WellFormedHours(tc)
    requires id in db.records && db.records[id].status == Scheduled
    ensures var (db', res) := SendOutcome(db, id, v, tc, now, true, Delivered(resp), rf);
            var r := db.records[id];
            res == Ok(SentOk(id, r.channel, now, resp)) && id in db'.records &&
            db'.records[id].status == Sent && db'.records[id].sentAt == Some(now) &&
            "providerResponse" in db'.records[id].metadata && db'.records[id].metadata["providerResponse"] == resp &&
            (forall k :: k in r.metadata && k != "providerResponse" ==>
               k in db'.records[id].metadata && db'.records[id].metadata[k] == r.metadata[k]) &&
            db'.records[id].(status := r.status, sentAt := r.sentAt, metadata := r.metadata) == r &&
            (forall k :: k != id ==> (k in db'.records <==> k in db.records)) &&
            (forall k :: k != id && k in db.records ==> db'.records[k] == db.records[k]) &&
            db'.queues == db.queues && db'.plans == db.plans
  {
  }

  /**
   * A failed send with the budget spent: the error is rethrown, the record
   * is failed with the error and the next count in its metadata, and its
   * top-level retry count, moment and job stay as they were.
   */
  lemma SendFailedFinal(db: Db, id: nat, v: Variant, tc: TimeConstraints, now: int, msg: string, rf: RescheduleFaults)
    requires WellFormedHours(tc)
    requires id in db.records && db.records[id].status == Scheduled && db.records[id].retryCount >= MaxRecordRetries
    ensures var (db', res) := SendOutcome(db, id, v, tc, now, true, DeliveryFailed(msg), rf);
            var r := db.records[id];
            res == Err(DeliveryError(msg)) && id in db'.records &&
            db'.records[id].status == Failed && db'.records[id].retryCount == r.retryCount &&
            db'.records[id].scheduledFor == r.scheduledFor && db'.records[id].jobId == r.jobId &&
            db'.records[id].metadata == r.metadata["error" := Text(msg)]["retryCount" := Number(r.retryCount + 1)] &&
            db'.queues == db.queues
  {
  }

  /** The retry branch ends in the reschedule call on the store holding the retried record. */
  lemma SendRetryUnfold(db: Db, id: nat, v: Variant, tc: TimeConstraints, now: int, msg: string, rf: RescheduleFaults)
    requires WellFormedHours(tc)
    requires id in db.records && db.records[id].status == Scheduled && db.records[id].retryCount < MaxRecordRetries
    ensures var next := now + MS_PER_HOUR;
            SendOutcome(db, id, v, tc, now, true, DeliveryFailed(msg), rf) ==
            RescheduleCall(db.(records := db.records[id := RetriedRecord(db.records[id], msg, next)]), id, v, next, now, rf, Retried(msg, next))
  {
  }

  /** The cap branch ends in the reschedule call on the store holding the moved record. */
  lemma SendCapUnfold(db: Db, id: nat, v: Variant, tc: TimeConstraints, now: int, delivery: Delivery, rf: RescheduleFaults)
    requires WellFormedHours(tc)
    requires id in db.records && db.records[id].status == Scheduled
    ensures var next := NextDayStart(tc, now);
            SendOutcome(db, id, v, tc, now, false, delivery, rf) ==
            RescheduleCall(db.(records := db.records[id := db.records[id].(scheduledFor := next)]), id, v, next, now, rf, LimitDeferred(next))
  {
  }

  /** The corrected call with no fault succeeds, and the record then carries the job queued for next. */
  lemma RescheduleCallSucceeds(db: Db, id: nat, next: int, now: int, ok: SendResult)
    requires WellFormed(db) && id in db.records
    ensures var (db', res) := RescheduleCall(db, id, Corrected, next, now, RescheduleFaults(false, false, false, false), ok);
            var r := db.records[id];
            res == Ok(ok) && id in db'.records &&
            db'.records[id] == r.(scheduledFor := next, status := Scheduled, jobId := Some(JobIdFor(id, next))) &&
            JobIdFor(id, next) in db'.queues.Get(r.channel)
  {
    var f := RescheduleFaults(false, false, false, false);
    RemoveFailureIgnored(db, id, next, now, f);
    RescheduleSuccess(db, id, Some(next), now, f);
  }

  /** Either way, the call changes at most the moment, status and job of its record and keeps the store well formed. */
  lemma RescheduleCallFrame(db: Db, id: nat, v: Variant, next: int, now: int, rf: RescheduleFaults, ok: SendResult)
    requires WellFormed(db)
    ensures var db' := RescheduleCall(db, id, v, next, now, rf, ok).0;
            WellFormed(db') && db'.plans == db.plans && db'.records.Keys == db.records.Keys &&
            (forall k :: k in db.records && k != id ==> db'.records[k] == db.records[k]) &&
            (id in db.records ==>
               var r := db.records[id];
               db'.records[id].(scheduledFor := r.scheduledFor, status := r.status, jobId := r.jobId) == r)
  {
    RescheduleWellFormed(db, id, Some(next), now, rf);
    RescheduleTouchesOnlyItsRecord(db, id, Some(next), now, rf);
  }

  /**
   * A failed send within the budget, in the corrected executor: the record
   * is scheduled again an hour from now with its retry count one higher, and
   * its new job for that moment is queued; the error is reported in metadata.
   */
  lemma SendRetried(db: Db, id: nat, tc: TimeConstraints, now: int, msg: string)
    requires WellFormedHours(tc) && WellFormed(db)
    requires id in db.records && db.records[id].status == Scheduled && db.records[id].retryCount < MaxRecordRetries
    ensures var (db', res) := SendOutcome(db, id, Corrected, tc, now, true, DeliveryFailed(msg), RescheduleFaults(false, false, false, false));
            var r := db.records[id];
            var next := now + MS_PER_HOUR;
            res == Ok(Retried(msg, next)) && id in db'.records &&
            db'.records[id].status == Scheduled && db'.records[id].scheduledFor == next &&
            db'.records[id].retryCount == r.retryCount + 1 &&
            db'.records[id].metadata == r.metadata["error" := Text(msg)]["retryCount" := Number(r.retryCount + 1)] &&
            db'.records[id].jobId == Some(JobIdFor(id, next)) &&
            JobIdFor(id, next) in db'.queues.Get(r.channel)
  {
    var r := db.records[id];
    var next := now + MS_PER_HOUR;
    var db1 := db.(records := db.records[id := RetriedRecord(r, msg, next)]);
    SendRetryUnfold(db, id, Corrected, tc, now, msg, RescheduleFaults(false, false, false, false));
    assert WellFormed(db1);
    RescheduleCallSucceeds(db1, id, next, now, Retried(msg, next));
  }

  /**
   * The retry branch as written: the record is already scheduled an hour
   * ahead with its count raised when the call to the missing reschedule
   * function throws, so no queue changes and the record's job is still the
   * one for its old moment.
   */
  lemma SendRetryAsWritten(db: Db, id: nat, tc: TimeConstraints, now: int, msg: string, rf: RescheduleFaults)
    requires WellFormedHours(tc)
    requires id in db.records && db.records[id].status == Scheduled && db.records[id].retryCount < MaxRecordRetries
    ensures var (db', res) := SendOutcome(db, id, AsWritten, tc, now, true, DeliveryFailed(msg), rf);
            var r := db.records[id];
            res == Err(UndefinedName("rescheduleBullJob")) && id in db'.records &&
            db'.records[id].status == Scheduled && db'.records[id].scheduledFor == now + MS_PER_HOUR &&
            db'.records[id].retryCount == r.retryCount + 1 && db'.records[id].jobId == r.jobId &&
            db'.queues == db.queues
  {
  }

  /**
   * The daily-cap branch: the record moves to tomorrow at the start hour and
   * nothing is sent. As written it then throws; corrected, the record's job
   * is moved there too. The cap check in the source always allows, so the
   * branch is not reached.
   */
  lemma SendCapped(db: Db, id: nat, tc: TimeConstraints, now: int, delivery: Delivery)
    requires WellFormedHours(tc) && WellFormed(db)
    requires id in db.records && db.records[id].status == Scheduled
    ensures var next := NextDayStart(tc, now);
            var (db', res) := SendOutcome(db, id, AsWritten, tc, now, false, delivery, RescheduleFaults(false, false, false, false));
            res == Err(UndefinedName("rescheduleBullJob")) && db'.queues == db.queues &&
            id in db'.records && db'.records[id] == db.records[id].(scheduledFor := next)
    ensures var next := NextDayStart(tc, now);
            var (db', res) := SendOutcome(db, id, Corrected, tc, now, false, delivery, RescheduleFaults(false, false, false, false));
            res == Ok(LimitDeferred(next)) && id in db'.records &&
            db'.records[id].scheduledFor == next && db'.records[id].status == Scheduled &&
            DayIndex(next) == DayIndex(now) + 1 && HourOf(next) == tc.startHour &&
            db'.records[id].jobId == Some(JobIdFor(id, next)) && JobIdFor(id, next) in db'.queues.Get(db.records[id].channel)
    ensures CheckDailyNotificationLimit(db.records[id].borrowerId, now)
  {
    var r := db.records[id];
    var next := NextDayStart(tc, now);
    var db1 := db.(records := db.records[id := r.(scheduledFor := next)]);
    var f := RescheduleFaults(false, false, false, false);
    SendCapUnfold(db, id, AsWritten, tc, now, delivery, f);
    SendCapUnfold(db, id, Corrected, tc, now, delivery, f);
    assert WellFormed(db1);
    RescheduleCallSucceeds(db1, id, next, now, LimitDeferred(next));
  }

  /** A send changes at most its own record, leaves the plans alone and keeps the store well formed. */
  lemma SendFrame(db: Db, id: nat, v: Variant, tc: TimeConstraints, now: int, withinLimit: bool, delivery: Delivery, rf: RescheduleFaults)
    requires WellFormedHours(tc) && WellFormed(db)
    ensures var db' := SendOutcome(db, id, v, tc, now, withinLimit, delivery, rf).0;
            WellFormed(db') && db'.plans == db.plans && db'.records.Keys == db.records.Keys &&
            forall k :: k in db.records && k != id ==> db'.records[k] == db.records[k]
  {
    if id in db.records && db.records[id].status == Scheduled {
      var r := db.records[id];
      if !withinLimit {
        SendFrameDeferred(db, id, v, tc, now, delivery, rf);
      } else if delivery.DeliveryFailed? && r.retryCount < MaxRecordRetries {
        SendFrameRetried(db, id, v, tc, now, delivery.message, rf);
      }
    }
  }

  /** The frame of a send put off by the daily cap. */
  lemma SendFrameDeferred(db: Db, id: nat, v: Variant, tc: TimeConstraints, now: int, delivery: Delivery, rf: RescheduleFaults)
    requires WellFormedHours(tc) && WellFormed(db) && id in db.records && db.records[id].status == Scheduled
    ensures var db' := SendOutcome(db, id, v, tc, now, false, delivery, rf).0;
            WellFormed(db') && db'.plans == db.plans && db'.records.Keys == db.records.Keys &&
            forall k :: k in db.records && k != id ==> db'.records[k] == db.records[k]
  {
    var r := db.records[id];
    var next := NextDayStart(tc, now);
    var db1 := db.(records := db.records[id := r.(scheduledFor := next)]);
    SendCapUnfold(db, id, v, tc, now, delivery, rf);
    assert WellFormed(db1);
    RescheduleCallFrame(db1, id, v, next, now, rf, LimitDeferred(next));
  }

  /** The frame of a failed delivery that is retried. */
  lemma SendFrameRetried(db: Db, id: nat, v: Variant, tc: TimeConstraints, now: int, message: string, rf: RescheduleFaults)
    requires WellFormedHours(tc) && WellFormed(db) && id in db.records && db.records[id].status == Scheduled
    requires db.records[id].retryCount < MaxRecordRetries
    ensures var db' := SendOutcome(db, id, v, tc, now, true, DeliveryFailed(message), rf).0;
            WellFormed(db') && db'.plans == db.plans && db'.records.Keys == db.records.Keys &&
            forall k :: k in db.records && k != id ==> db'.records[k] == db.records[k]
  {
    var r := db.records[id];
    var next := now + MS_PER_HOUR;
    var db1 := db.(records := db.records[id := RetriedRecord(r, message, next)]);
    SendRetryUnfold(db, id, v, tc, now, message, rf);
    assert WellFormed(db1);
    RescheduleCallFrame(db1, id, v, next, now, rf, Retried(message, next));
  }

  /** One send's effect on the record's top-level retry count. */
  lemma SendRetryCount(db: Db, id: nat, v: Variant, tc: TimeConstraints, now: int, delivery: Delivery, rf: RescheduleFaults)
    requires WellFormedHours(tc) && id in db.records
    ensures var (db', res) := SendOutcome(db, id, v, tc, now, true, delivery, rf);
            var rc := db.records[id].retryCount;
            id in db'.records &&
            (db'.records[id].retryCount == rc ||
             (db.records[id].status == Scheduled && rc < MaxRecordRetries && db'.records[id].retryCount == rc + 1)) &&
            (res.Ok? && res.value.Retried? ==> rc < MaxRecordRetries && db'.records[id].retryCount == rc + 1)
  {
    var r := db.records[id];
    if r.status == Scheduled && delivery.DeliveryFailed? && r.retryCount < MaxRecordRetries {
      var next := now + MS_PER_HOUR;
      SendRetryUnfold(db, id, v, tc, now, delivery.message, rf);
      RescheduleTouchesOnlyItsRecord(db.(records := db.records[id := RetriedRecord(r, delivery.message, next)]), id, Some(next), now, rf);
    }
  }

  /** Repeated sends of one record, each failing with the given messages; the store and the number of retries granted. */
  function FailingSends(db: Db, id: nat, tc: TimeConstraints, nows: seq<int>, msgs: seq<string>, rf: RescheduleFaults): (Db, nat)
    requires WellFormedHours(tc) && |nows| == |msgs|
    decreases |msgs|
  {
    if |msgs| == 0 then (db, 0)
    else
      var n := |msgs| - 1;
      var prev := FailingSends(db, id, tc, nows[..n], msgs[..n], rf);
      var (db', res) := SendOutcome(prev.0, id, Corrected, tc, nows[n], true, DeliveryFailed(msgs[n]), rf);
      (db', prev.1 + (if res.Ok? && res.value.Retried? then 1 else 0))
  }

  /** The record's count has grown by at least the retries granted, and stays within the budget. */
  predicate RetriesWithin(rc: int, id: nat, out: (Db, nat)) {
    id in out.0.records && out.1 <= out.0.records[id].retryCount - rc &&
    out.0.records[id].retryCount <= if rc <= MaxRecordRetries then MaxRecordRetries else rc
  }

  /** One more failing send keeps the bound. */
  lemma RetriesStep(rc: int, id: nat, tc: TimeConstraints, prev: (Db, nat), now: int, msg: string, rf: RescheduleFaults)
    requires WellFormedHours(tc) && RetriesWithin(rc, id, prev) && rc <= prev.0.records[id].retryCount
    ensures var (db', res) := SendOutcome(prev.0, id, Corrected, tc, now, true, DeliveryFailed(msg), rf);
            RetriesWithin(rc, id, (db', prev.1 + (if res.Ok? && res.value.Retried? then 1 else 0))) &&
            rc <= db'.records[id].retryCount
  {
    SendRetryCount(prev.0, id, Corrected, tc, now, DeliveryFailed(msg), rf);
  }

  /** The bound as one predicate, send after send; the count never goes down. */
  lemma {:induction false} RetriesBoundedRun(db: Db, id: nat, tc: TimeConstraints, nows: seq<int>, msgs: seq<string>, rf: RescheduleFaults)
    requires WellFormedHours(tc) && |nows| == |msgs| && id in db.records
    requires 0 <= db.records[id].retryCount
    ensures RetriesWithin(db.records[id].retryCount, id, FailingSends(db, id, tc, nows, msgs, rf))
    ensures db.records[id].retryCount <= FailingSends(db, id, tc, nows, msgs, rf).0.records[id].retryCount
    decreases |msgs|
  {
    if |msgs| > 0 {
      var n := |msgs| - 1;
      RetriesBoundedRun(db, id, tc, nows[..n], msgs[..n], rf);
      RetriesStep(db.records[id].retryCount, id, tc, FailingSends(db, id, tc, nows[..n], msgs[..n], rf), nows[n], msgs[n], rf);
    }
  }

  /**
   * The retry budget is bounded: however many times a record's send fails,
   * it is retried at most twice in all (fewer when its count starts higher),
   * and its top-level count never passes two.
   */
  lemma RetriesBounded(db: Db, id: nat, tc: TimeConstraints, nows: seq<int>, msgs: seq<string>, rf: RescheduleFaults)
    requires WellFormedHours(tc) && |nows| == |msgs| && id in db.records
    requires 0 <= db.records[id].retryCount
    ensures var (db', retries) := FailingSends(db, id, tc, nows, msgs, rf);
            var rc := db.records[id].retryCount;
            id in db'.records &&
            retries <= db'.records[id].retryCount - rc &&
            db'.records[id].retryCount <= if rc <= MaxRecordRetries then MaxRecordRetries else rc
    ensures FailingSends(db, id, tc, nows, msgs, rf).1 <= if db.records[id].retryCount <= MaxRecordRetries then MaxRecordRetries - db.records[id].retryCount else 0
  {
    RetriesBoundedRun(db, id, tc, nows, msgs, rf);
  }

  /** sendNotification on the store, step by step. */
  method SendNotification(st: Store, id: nat, v: Variant, tc: TimeConstraints, now: int, withinLimit: bool,
                          delivery: Delivery, rf: RescheduleFaults)
    returns (res: Result<SendResult, SendError>)
    requires WellFormedHours(tc)
    modifies st
    ensures (st.Snap(), res) == SendOutcome(old(st.Snap()), id, v, tc, now, withinLimit, delivery, rf)
  {
    if id !in st.records {
      return Err(MissingRecord);
    }
    var r := st.records[id];
    if r.status != Scheduled {
      return Ok(Skipped(r.status));
    }
    if !withinLimit {
      var next := NextDayStart(tc, now);
      st.PutRecord(id, r.(scheduledFor := next));
      res := CallReschedule(st, id, v, next, now, rf, LimitDeferred(next));
      return;
    }
    match delivery
    case Delivered(resp) =>
      st.PutRecord(id, SentRecord(r, now, resp));
      res := Ok(SentOk(id, r.channel, now, resp));
    case DeliveryFailed(msg) =>
      ghost var db0 := st.Snap();
      st.PutRecord(id, FailedRecord(r, msg));
      if r.retryCount < MaxRecordRetries {
        var next := now + MS_PER_HOUR;
        st.PutRecord(id, RetriedRecord(r, msg, next));
        assert st.Snap() == db0.(records := db0.records[id := RetriedRecord(r, msg, next)]);
        res := CallReschedule(st, id, v, next, now, rf, Retried(msg, next));
      } else {
        res := Err(DeliveryError(msg));
      }
  }

  /** The closing reschedule call on the store. */
  method CallReschedule(st: Store, id: nat, v: Variant, next: int, now: int, rf: RescheduleFaults, ok: SendResult)
    returns (res: Result<SendResult, SendError>)
    modifies st
    ensures (st.Snap(), res) == RescheduleCall(old(st.Snap()), id, v, next, now, rf, ok)
  {
    if v == AsWritten {
      return Err(UndefinedName("rescheduleBullJob"));
    }
    var r := RescheduleJob(st, id, Some(next), now, rf);
    if r.Ok? {
      res := Ok(ok);
    } else {
      res := Err(RescheduleFailed(r.error));
    }
  }
}
