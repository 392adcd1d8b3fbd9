/**
 * Putting a record's delivery job on the queue of its channel: the job id
 * is derived from the record, so a repeated dispatch finds the job it
 * added before and adds nothing.
 */
module Dispatch {
  import opened Wrappers
  import opened Text
  import opened Models
  import opened Store

  /** The deterministic job id: record id, a dash, and the scheduled time in milliseconds. */
  function JobIdFor(recordId: nat, scheduledFor: int): string {
    NatToString(recordId) + "-" + IntToString(scheduledFor)
  }

  /** The index of the first dash of s, or |s| when there is none. */
  function FirstDash(s: string): (i: nat)
    ensures i <= |s|
  {
    if |s| == 0 || s[0] == '-' then 0 else 1 + FirstDash(s[1..])
  }

  lemma {:induction false} FirstDashAfterDigits(x: string, rest: string)
    requires AllDigits(x)
    ensures FirstDash(x + "-" + rest) == |x|
    decreases |x|
  {
    if |x| > 0 {
      assert (x + "-" + rest)[1..] == x[1..] + "-" + rest;
      FirstDashAfterDigits(x[1..], rest);
    }
  }

  /** Different records, or different times, never share a job id. */
  lemma JobIdForInjective(a: nat, t: int, b: nat, u: int)
    requires JobIdFor(a, t) == JobIdFor(b, u)
    ensures a == b && t == u
  {
    var x, y := NatToString(a), NatToString(b);
    var s := JobIdFor(a, t);
    FirstDashAfterDigits(x, IntToString(t));
    FirstDashAfterDigits(y, IntToString(u));
    assert |x| == |y|;
    assert x == s[..|x|] == y;
    assert IntToString(t) == s[|x| + 1..] == IntToString(u);
    NatToStringInjective(a, b);
    IntToStringInjective(t, u);
  }

  const MinDelay: int := 1000
  const MaxAttempts: nat := 3
  const RetryBackoff: Backoff := Exponential(60000)

  /** The time left until the scheduled moment, or one second when that moment has passed. */
  function DelayFor(scheduledFor: int, now: int): (d: int)
    ensures d > 0
    ensures scheduledFor > now ==> d == scheduledFor - now
    ensures scheduledFor <= now ==> d == MinDelay
  {
    var delay := scheduledFor - now;
    if delay > 0 then delay else MinDelay
  }

  /** The delivery job for the record with the given id. */
  function NotificationJobFor(id: nat, r: Record, now: int): (j: Job)
    ensures j.id == JobIdFor(id, r.scheduledFor)
    ensures j.data == NotificationJob(id, r.creditId, r.borrowerId, r.messageContent)
    ensures j.delay > 0 && j.attempts == 3 && j.backoff == Some(Exponential(60000))
    ensures j.removeOnComplete && !j.removeOnFail
  {
    Job(JobIdFor(id, r.scheduledFor), NotificationJob(id, r.creditId, r.borrowerId, r.messageContent),
        DelayFor(r.scheduledFor, now), MaxAttempts, Some(RetryBackoff), true, false)
  }

  datatype DispatchError = UnknownChannel(name: string) | AddFailed

  /**
   * scheduleNotificationTask: pick the queue of the channel (an unknown
   * channel is an error), return the job already stored under the derived
   * id, or add the new job (which can fail).
   */
  function DispatchJob(qs: Queues, id: nat, r: Record, channel: string, now: int, addFails: bool)
    : (res: Result<(Queues, Job), DispatchError>)
    ensures ParseChannel(channel).None? <==> res == Err(UnknownChannel(channel))
    ensures res == Err(AddFailed) <==>
              ParseChannel(channel).Some? && addFails && JobIdFor(id, r.scheduledFor) !in qs.Get(ParseChannel(channel).value)
    ensures res.Ok? ==>
              var c := ParseChannel(channel).value;
              var jid := JobIdFor(id, r.scheduledFor);
              jid in res.value.0.Get(c) && res.value.0.Get(c)[jid] == res.value.1 &&
              res.value.0.Get(c).Keys == qs.Get(c).Keys + {jid} &&
              (forall k :: k in qs.Get(c) ==> res.value.0.Get(c)[k] == qs.Get(c)[k]) &&
              (forall d :: d != c ==> res.value.0.Get(d) == qs.Get(d))
    ensures res.Ok? && JobIdFor(id, r.scheduledFor) in qs.Get(ParseChannel(channel).value) ==>
              res.value == (qs, qs.Get(ParseChannel(channel).value)[JobIdFor(id, r.scheduledFor)])
    ensures res.Ok? && JobIdFor(id, r.scheduledFor) !in qs.Get(ParseChannel(channel).value) ==>
              res.value.1 == NotificationJobFor(id, r, now)
  {
    match ParseChannel(channel)
    case None => Err(UnknownChannel(channel))
    case Some(c) =>
      var job := NotificationJobFor(id, r, now);
      var q := qs.Get(c);
      if job.id in q then Ok((qs, q[job.id]))
      else if addFails then Err(AddFailed)
      else Ok((qs.Set(c, q[job.id := job]), job))
  }

  /** Dispatching the same record a second time returns the same job and changes no queue. */
  lemma DispatchTwice(qs: Queues, id: nat, r: Record, channel: string, now: int, now': int, addFails: bool, addFails': bool)
    requires DispatchJob(qs, id, r, channel, now, addFails).Ok?
    ensures DispatchJob(DispatchJob(qs, id, r, channel, now, addFails).value.0, id, r, channel, now', addFails')
            == Ok(DispatchJob(qs, id, r, channel, now, addFails).value)
  {
  }

  /** A dispatch keeps every queue holding its jobs under their own ids. */
  lemma DispatchKeyedById(qs: Queues, id: nat, r: Record, channel: string, now: int, addFails: bool)
    requires forall c :: KeyedById(qs.Get(c))
    requires DispatchJob(qs, id, r, channel, now, addFails).Ok?
    ensures forall c :: KeyedById(DispatchJob(qs, id, r, channel, now, addFails).value.0.Get(c))
    ensures DispatchJob(qs, id, r, channel, now, addFails).value.1.id == JobIdFor(id, r.scheduledFor)
  {
  }

  /** scheduleNotificationTask on the store: look the job up, add it when absent. */
  method ScheduleNotificationTask(st: Store, id: nat, r: Record, channel: string, now: int, addFails: bool)
    returns (res: Result<Job, DispatchError>)
    modifies st
    ensures var d := DispatchJob(old(st.queues), id, r, channel, now, addFails);
            if d.Ok? then res == Ok(d.value.1) && st.Snap() == old(st.Snap()).(queues := d.value.0)
            else res == Err(d.error) && st.Snap() == old(st.Snap())
  {
    var parsed := ParseChannel(channel);
    if parsed.None? {
      return Err(UnknownChannel(channel));
    }
    var c := parsed.value;
    var job := NotificationJobFor(id, r, now);
    var q := st.queues.Get(c);
    if job.id in q {
      return Ok(q[job.id]);
    }
    if addFails {
      return Err(AddFailed);
    }
    st.SetQueue(c, q[job.id := job]);
    res := Ok(job);
  }
}
