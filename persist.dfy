/**
 * Saving one planned notification and queueing its job, as both the phase
 * planner and the test scheduler do it: save the record, add the job,
 * write the job id back. A failure at any step skips this notification
 * only; what the earlier steps wrote stays written.
 */
module Persist {
  import opened Wrappers
  import opened Text
  import opened Models
  import opened Store
  import opened Dispatch

  /** A record about to be created, as the caller fills it in before save(). */
  datatype Draft = Draft(
    planId: nat,
    creditId: string,
    borrowerId: string,
    stage: Phase,
    day: int,
    channel: string,
    messageTemplate: string,
    messageContent: string,
    scheduledFor: int)

  /**
   * Schema validation on save(): the channel must be one of the channel
   * names and the required strings must not be empty; the defaults are
   * applied.
   */
  function Materialize(d: Draft): (r: Option<Record>)
    ensures r.Some? <==> ParseChannel(d.channel).Some? && d.creditId != "" && d.borrowerId != "" &&
                         d.messageTemplate != "" && d.messageContent != ""
    ensures r.Some? ==> RecordRequiredPresent(r.value) && ChannelName(r.value.channel) == d.channel
    ensures r.Some? ==> r.value.status == Scheduled && r.value.retryCount == 0 && r.value.metadata == map[] &&
                        r.value.jobId.None? && r.value.sentAt.None? && r.value.failReason.None?
    ensures r.Some? ==> r.value.planId == d.planId && r.value.creditId == d.creditId &&
                        r.value.borrowerId == d.borrowerId && r.value.stage == d.stage && r.value.day == d.day &&
                        r.value.messageTemplate == d.messageTemplate && r.value.messageContent == d.messageContent &&
                        r.value.scheduledFor == d.scheduledFor
  {
    match ParseChannel(d.channel)
    case None => None
    case Some(c) =>
      var r := NewRecord(d.planId, d.creditId, d.borrowerId, d.stage, d.day, c,
                         d.messageTemplate, d.messageContent, d.scheduledFor);
      if RecordRequiredPresent(r) then Some(r) else None
  }

  /** Which store operation fails for one draft, if any. */
  datatype Fault = NoFault | SaveFails | AddFails | JobIdSaveFails

  /** The regular planner dispatches through scheduleNotificationTask; the test scheduler adds its own job. */
  datatype Kind = Regular | Test

  function TestJobId(id: nat): string {
    "test-" + NatToString(id)
  }

  /** The test scheduler's job: id "test-" + record id, no backoff. */
  function TestJobFor(id: nat, r: Record, now: int): (j: Job)
    ensures j.id == TestJobId(id)
    ensures j.data == NotificationJob(id, r.creditId, r.borrowerId, r.messageContent)
    ensures j.delay > 0 && j.attempts == 3 && j.backoff.None? && j.removeOnComplete && !j.removeOnFail
  {
    Job(TestJobId(id), NotificationJob(id, r.creditId, r.borrowerId, r.messageContent),
        DelayFor(r.scheduledFor, now), MaxAttempts, None, true, false)
  }

  /** The id each kind gives the job of record id. */
  function JobIdOf(kind: Kind, id: nat, scheduledFor: int): string {
    if kind == Regular then JobIdFor(id, scheduledFor) else TestJobId(id)
  }

  /**
   * The test scheduler's queue.add: no lookup first, so the add is always
   * attempted (and can fail); an id already present keeps its job.
   */
  function TestDispatch(qs: Queues, id: nat, r: Record, now: int, addFails: bool): (res: Option<(Queues, Job)>)
    ensures res.None? <==> addFails
    ensures res.Some? ==> TestJobId(id) in res.value.0.Get(r.channel) &&
                          res.value.0.Get(r.channel)[TestJobId(id)] == res.value.1
  {
    if addFails then None
    else
      var e := Enqueue(qs.Get(r.channel), TestJobFor(id, r, now));
      Some((qs.Set(r.channel, e.0), e.1))
  }

  /** The dispatch step of one attempt, for either kind. */
  function DispatchFor(kind: Kind, qs: Queues, id: nat, r: Record, channel: string, now: int, addFails: bool)
    : Option<(Queues, Job)>
  {
    if kind == Regular then
      match DispatchJob(qs, id, r, channel, now, addFails)
      case Err(_) => None
      case Ok(v) => Some(v)
    else TestDispatch(qs, id, r, now, addFails)
  }

  /**
   * One try block of the planner loops: save the record under the next id,
   * dispatch its job, write the job id back. The id is returned only when
   * all three steps succeed.
   */
  function Attempt(db: Db, d: Draft, fault: Fault, now: int, kind: Kind): (Db, Option<nat>)
  {
    match Materialize(d)
    case None => (db, None)
    case Some(rec) =>
      if fault == SaveFails then (db, None)
      else
        var id := db.nextId;
        var db1 := db.(records := db.records[id := rec], nextId := id + 1);
        match DispatchFor(kind, db1.queues, id, rec, d.channel, now, fault == AddFails)
        case None => (db1, None)
        case Some(v) =>
          var db2 := db1.(queues := v.0);
          if fault == JobIdSaveFails then (db2, None)
          else (db2.(records := db2.records[id := rec.(jobId := Some(v.1.id))]), Some(id))
  }

  /** What a run over a list of drafts leaves: the store and the ids of the records created, in order. */
  datatype Outcome = Outcome(db: Db, created: seq<nat>)

  /** The attempts for a list of drafts, one after the other. */
  function Attempts(db: Db, drafts: seq<Draft>, faults: Draft -> Fault, now: int, kind: Kind): Outcome
    decreases |drafts|
  {
    if |drafts| == 0 then Outcome(db, [])
    else
      var prev := Attempts(db, drafts[..|drafts| - 1], faults, now, kind);
      var last := drafts[|drafts| - 1];
      var step := Attempt(prev.db, last, faults(last), now, kind);
      Outcome(step.0, prev.created + (if step.1.Some? then [step.1.value] else []))
  }

  /** The created record comes from draft d: the validated draft, with the job id written back. */
  predicate FromDraft(r: Record, d: Draft, id: nat, kind: Kind) {
    Materialize(d).Some? && r == Materialize(d).value.(jobId := Some(JobIdOf(kind, id, d.scheduledFor)))
  }

  /** a's queues hold every job of b's, unchanged. */
  predicate QueuesGrow(b: Queues, a: Queues) {
    forall c, k :: k in b.Get(c) ==> k in a.Get(c) && a.Get(c)[k] == b.Get(c)[k]
  }

  /** b extends a: old records and jobs kept, plans and repeatables untouched, ids only grow. */
  predicate Extends(a: Db, b: Db) {
    b.plans == a.plans && b.repeatables == a.repeatables && b.nextId >= a.nextId &&
    (forall id :: id in a.records ==> id in b.records && b.records[id] == a.records[id]) &&
    QueuesGrow(a.queues, b.queues)
  }

  /** What one attempt does to a well-formed store, as one predicate. */
  predicate AttemptShaped(db: Db, d: Draft, fault: Fault, now: int, kind: Kind) {
    var (db', r) := Attempt(db, d, fault, now, kind);
    WellFormed(db') && Extends(db, db') && db'.nextId <= db.nextId + 1 &&
    (forall id :: id in db'.records && id !in db.records ==> id == db.nextId) &&
    (r.Some? ==>
       r.value == db.nextId && db'.nextId == db.nextId + 1 && r.value in db'.records &&
       FromDraft(db'.records[r.value], d, r.value, kind) &&
       JobIdOf(kind, r.value, d.scheduledFor) in db'.queues.Get(db'.records[r.value].channel)) &&
    (r.Some? ==> Materialize(d).Some? && fault != SaveFails && fault != JobIdSaveFails &&
                 (kind == Test ==> fault == NoFault)) &&
    (Materialize(d).Some? && fault == NoFault ==> r.Some?)
  }

  /** The save: the record goes under the fresh id. */
  lemma SaveStep(db: Db, rec: Record)
    requires WellFormed(db)
    ensures var db1 := db.(records := db.records[db.nextId := rec], nextId := db.nextId + 1);
            WellFormed(db1) && Extends(db, db1) && db.nextId !in db.records
  {
  }

  /** The add: the queues only grow and stay keyed by id. */
  lemma QueueStep(db: Db, qs: Queues)
    requires WellFormed(db) && QueuesGrow(db.queues, qs) && forall c :: KeyedById(qs.Get(c))
    ensures WellFormed(db.(queues := qs)) && Extends(db, db.(queues := qs))
  {
  }

  /** The job-id write on the record just saved. */
  lemma JobIdStep(db0: Db, db: Db, id: nat, r: Record)
    requires WellFormed(db) && Extends(db0, db) && id !in db0.records && id < db.nextId
    ensures var db' := db.(records := db.records[id := r]);
            WellFormed(db') && Extends(db0, db')
  {
  }

  /** What the dispatch step of either kind guarantees: queues only grow, stay keyed by id, and hold the job under its id. */
  lemma DispatchForFacts(kind: Kind, qs: Queues, id: nat, rec: Record, now: int, addFails: bool)
    requires forall c :: KeyedById(qs.Get(c))
    ensures !addFails ==> DispatchFor(kind, qs, id, rec, ChannelName(rec.channel), now, addFails).Some?
    ensures DispatchFor(kind, qs, id, rec, ChannelName(rec.channel), now, addFails).Some? ==>
              var v := DispatchFor(kind, qs, id, rec, ChannelName(rec.channel), now, addFails).value;
              QueuesGrow(qs, v.0) && (forall c :: KeyedById(v.0.Get(c))) &&
              v.1.id == JobIdOf(kind, id, rec.scheduledFor) && JobIdOf(kind, id, rec.scheduledFor) in v.0.Get(rec.channel)
  {
    ParseChannelName(rec.channel);
    assert KeyedById(qs.Get(rec.channel));
    if kind == Regular && DispatchJob(qs, id, rec, ChannelName(rec.channel), now, addFails).Ok? {
      DispatchKeyedById(qs, id, rec, ChannelName(rec.channel), now, addFails);
    }
  }

  /** Attempt once the draft is valid and the save succeeds, by the outcome of the dispatch. */
  lemma AttemptSaved(db: Db, d: Draft, rec: Record, fault: Fault, now: int, kind: Kind)
    requires Materialize(d) == Some(rec) && fault != SaveFails
    ensures var db1 := db.(records := db.records[db.nextId := rec], nextId := db.nextId + 1);
            var res := DispatchFor(kind, db.queues, db.nextId, rec, d.channel, now, fault == AddFails);
            Attempt(db, d, fault, now, kind) ==
              if res.None? then (db1, None)
              else if fault == JobIdSaveFails then (db1.(queues := res.value.0), None)
              else (db1.(queues := res.value.0, records := db1.records[db.nextId := rec.(jobId := Some(res.value.1.id))]),
                    Some(db.nextId))
  {
  }

  /** The dispatch step failed: the saved record stays, without a job id. */
  lemma AttemptUnqueued(db: Db, d: Draft, rec: Record, fault: Fault, now: int, kind: Kind)
    requires WellFormed(db) && Materialize(d) == Some(rec) && fault != SaveFails
    requires DispatchFor(kind, db.queues, db.nextId, rec, d.channel, now, fault == AddFails).None?
    ensures AttemptShaped(db, d, fault, now, kind)
  {
    var db1 := db.(records := db.records[db.nextId := rec], nextId := db.nextId + 1);
    SaveStep(db, rec);
    AttemptSaved(db, d, rec, fault, now, kind);
  }

  /** The job was queued but writing its id back failed. */
  lemma AttemptJobIdLost(db: Db, d: Draft, rec: Record, now: int, kind: Kind, v: (Queues, Job))
    requires WellFormed(db) && Materialize(d) == Some(rec)
    requires DispatchFor(kind, db.queues, db.nextId, rec, d.channel, now, false) == Some(v)
    requires QueuesGrow(db.queues, v.0) && forall c :: KeyedById(v.0.Get(c))
    ensures AttemptShaped(db, d, JobIdSaveFails, now, kind)
  {
    var db1 := db.(records := db.records[db.nextId := rec], nextId := db.nextId + 1);
    SaveStep(db, rec);
    QueueStep(db1, v.0);
    ExtendsTransitive(db, db1, db1.(queues := v.0));
    AttemptSaved(db, d, rec, JobIdSaveFails, now, kind);
  }

  /** All three steps succeeded: the record carries its job id. */
  lemma AttemptMade(db: Db, d: Draft, rec: Record, fault: Fault, now: int, kind: Kind, v: (Queues, Job))
    requires WellFormed(db) && Materialize(d) == Some(rec) && fault != SaveFails && fault != JobIdSaveFails
    requires DispatchFor(kind, db.queues, db.nextId, rec, d.channel, now, fault == AddFails) == Some(v)
    requires QueuesGrow(db.queues, v.0) && (forall c :: KeyedById(v.0.Get(c)))
    requires v.1.id == JobIdOf(kind, db.nextId, rec.scheduledFor) && JobIdOf(kind, db.nextId, rec.scheduledFor) in v.0.Get(rec.channel)
    requires kind == Test ==> fault == NoFault
    ensures AttemptShaped(db, d, fault, now, kind)
  {
    var id := db.nextId;
    var db1 := db.(records := db.records[id := rec], nextId := id + 1);
    SaveStep(db, rec);
    var db2 := db1.(queues := v.0);
    QueueStep(db1, v.0);
    ExtendsTransitive(db, db1, db2);
    var db3 := db2.(records := db2.records[id := rec.(jobId := Some(v.1.id))]);
    JobIdStep(db, db2, id, rec.(jobId := Some(v.1.id)));
    AttemptSaved(db, d, rec, fault, now, kind);
  }

  /** What one attempt does to a well-formed store. */
  lemma AttemptShape(db: Db, d: Draft, fault: Fault, now: int, kind: Kind)
    requires WellFormed(db)
    ensures var (db', r) := Attempt(db, d, fault, now, kind);
            WellFormed(db') && Extends(db, db') && db'.nextId <= db.nextId + 1 &&
            (forall id :: id in db'.records && id !in db.records ==> id == db.nextId)
    ensures var (db', r) := Attempt(db, d, fault, now, kind);
            r.Some? ==>
              r.value == db.nextId && db'.nextId == db.nextId + 1 && r.value in db'.records &&
              FromDraft(db'.records[r.value], d, r.value, kind) &&
              JobIdOf(kind, r.value, d.scheduledFor) in db'.queues.Get(db'.records[r.value].channel)
    ensures var (db', r) := Attempt(db, d, fault, now, kind);
            r.Some? ==> Materialize(d).Some? && fault != SaveFails && fault != JobIdSaveFails &&
                        (kind == Test ==> fault == NoFault)
    ensures Materialize(d).Some? && fault == NoFault ==> Attempt(db, d, fault, now, kind).1.Some?
  {
    match Materialize(d)
    case None =>
    case Some(rec) =>
      if fault != SaveFails {
        var addFails := fault == AddFails;
        DispatchForFacts(kind, db.queues, db.nextId, rec, now, addFails);
        var res := DispatchFor(kind, db.queues, db.nextId, rec, d.channel, now, addFails);
        if res.None? {
          AttemptUnqueued(db, d, rec, fault, now, kind);
        } else if fault == JobIdSaveFails {
          AttemptJobIdLost(db, d, rec, now, kind, res.value);
        } else {
          AttemptMade(db, d, rec, fault, now, kind, res.value);
        }
      }
  }

  lemma ExtendsTransitive(a: Db, b: Db, c: Db)
    requires Extends(a, b) && Extends(b, c)
    ensures Extends(a, c)
  {
  }

  /** The store part of a run from db: well formed, extended, new ids fresh, created ids fresh and ascending. */
  predicate Framed(db: Db, out: Outcome) {
    WellFormed(out.db) && Extends(db, out.db) &&
    (forall i :: 0 <= i < |out.created| ==> db.nextId <= out.created[i] < out.db.nextId) &&
    (forall i, j :: 0 <= i < j < |out.created| ==> out.created[i] < out.created[j]) &&
    (forall id :: id in out.db.records && id !in db.records ==> db.nextId <= id < out.db.nextId)
  }

  /** One more attempt keeps the store part. */
  lemma FramedStep(db: Db, prev: Outcome, d: Draft, faults: Draft -> Fault, now: int, kind: Kind)
    requires Framed(db, prev)
    ensures Framed(db, Snoc(prev, d, faults, now, kind))
  {
    AttemptShape(prev.db, d, faults(d), now, kind);
    ExtendsTransitive(db, prev.db, Snoc(prev, d, faults, now, kind).db);
  }

  /** The store part of a run holds for every run. */
  lemma {:induction false} AttemptsFramed(db: Db, drafts: seq<Draft>, faults: Draft -> Fault, now: int, kind: Kind)
    requires WellFormed(db)
    ensures Framed(db, Attempts(db, drafts, faults, now, kind))
    decreases |drafts|
  {
    if |drafts| > 0 {
      var init := drafts[..|drafts| - 1];
      var last := drafts[|drafts| - 1];
      assert drafts == init + [last];
      AttemptsSnoc(db, init, last, faults, now, kind);
      AttemptsFramed(db, init, faults, now, kind);
      FramedStep(db, Attempts(db, init, faults, now, kind), last, faults, now, kind);
    }
  }

  /** The store part of a run, spelled out. */
  lemma AttemptsFrame(db: Db, drafts: seq<Draft>, faults: Draft -> Fault, now: int, kind: Kind)
    requires WellFormed(db)
    ensures var out := Attempts(db, drafts, faults, now, kind);
            WellFormed(out.db) && Extends(db, out.db) &&
            (forall i :: 0 <= i < |out.created| ==> db.nextId <= out.created[i] < out.db.nextId) &&
            (forall i, j :: 0 <= i < j < |out.created| ==> out.created[i] < out.created[j]) &&
            (forall id :: id in out.db.records && id !in db.records ==> db.nextId <= id < out.db.nextId)
  {
    AttemptsFramed(db, drafts, faults, now, kind);
  }

  /** Each created record is stored, comes from one of the drafts, and its job is queued under the id the kind gives it. */
  predicate CreatedQueued(out: Outcome, drafts: seq<Draft>, kind: Kind) {
    forall i :: 0 <= i < |out.created| ==>
      out.created[i] in out.db.records &&
      (exists k :: 0 <= k < |drafts| && FromDraft(out.db.records[out.created[i]], drafts[k], out.created[i], kind)) &&
      JobIdOf(kind, out.created[i], out.db.records[out.created[i]].scheduledFor)
        in out.db.queues.Get(out.db.records[out.created[i]].channel)
  }

  /** One more attempt keeps every created record and its job, and adds at most the one it made. */
  lemma CreatedQueuedStep(db: Db, prev: Outcome, init: seq<Draft>, last: Draft, faults: Draft -> Fault, now: int, kind: Kind)
    requires Framed(db, prev) && CreatedQueued(prev, init, kind)
    ensures CreatedQueued(Snoc(prev, last, faults, now, kind), init + [last], kind)
  {
    AttemptShape(prev.db, last, faults(last), now, kind);
    var out := Snoc(prev, last, faults, now, kind);
    var drafts := init + [last];
    forall i | 0 <= i < |out.created|
      ensures out.created[i] in out.db.records &&
              (exists k :: 0 <= k < |drafts| && FromDraft(out.db.records[out.created[i]], drafts[k], out.created[i], kind)) &&
              JobIdOf(kind, out.created[i], out.db.records[out.created[i]].scheduledFor)
                in out.db.queues.Get(out.db.records[out.created[i]].channel)
    {
      if i < |prev.created| {
        var id := prev.created[i];
        assert out.created[i] == id;
        var k :| 0 <= k < |init| && FromDraft(prev.db.records[id], init[k], id, kind);
        assert out.db.records[id] == prev.db.records[id];
        assert drafts[k] == init[k];
      } else {
        assert drafts[|init|] == last;
      }
    }
  }

  /** Each created record comes from one of the drafts and its job is queued under the id the kind gives it. */
  lemma {:induction false} AttemptsCreatedQueued(db: Db, drafts: seq<Draft>, faults: Draft -> Fault, now: int, kind: Kind)
    requires WellFormed(db)
    ensures CreatedQueued(Attempts(db, drafts, faults, now, kind), drafts, kind)
    decreases |drafts|
  {
    if |drafts| > 0 {
      var init := drafts[..|drafts| - 1];
      var last := drafts[|drafts| - 1];
      assert drafts == init + [last];
      AttemptsSnoc(db, init, last, faults, now, kind);
      AttemptsCreatedQueued(db, init, faults, now, kind);
      AttemptsFramed(db, init, faults, now, kind);
      CreatedQueuedStep(db, Attempts(db, init, faults, now, kind), init, last, faults, now, kind);
    }
  }

  /** The created records, spelled out. */
  lemma AttemptsCreated(db: Db, drafts: seq<Draft>, faults: Draft -> Fault, now: int, kind: Kind)
    requires WellFormed(db)
    ensures var out := Attempts(db, drafts, faults, now, kind);
            forall i :: 0 <= i < |out.created| ==>
              out.created[i] in out.db.records &&
              (exists k :: 0 <= k < |drafts| && FromDraft(out.db.records[out.created[i]], drafts[k], out.created[i], kind)) &&
              JobIdOf(kind, out.created[i], out.db.records[out.created[i]].scheduledFor)
                in out.db.queues.Get(out.db.records[out.created[i]].channel)
  {
    AttemptsCreatedQueued(db, drafts, faults, now, kind);
  }

  /** Every record created is stored and made from one of the drafts. */
  predicate CreatedFrom(out: Outcome, drafts: seq<Draft>, kind: Kind) {
    forall i :: 0 <= i < |out.created| ==>
      out.created[i] in out.db.records &&
      exists k :: 0 <= k < |drafts| && FromDraft(out.db.records[out.created[i]], drafts[k], out.created[i], kind)
  }

  lemma AttemptsCreatedFrom(db: Db, drafts: seq<Draft>, faults: Draft -> Fault, now: int, kind: Kind)
    requires WellFormed(db)
    ensures CreatedFrom(Attempts(db, drafts, faults, now, kind), drafts, kind)
  {
    AttemptsCreated(db, drafts, faults, now, kind);
  }

  /** A run over several drafts, on a well-formed store. */
  lemma AttemptsShape(db: Db, drafts: seq<Draft>, faults: Draft -> Fault, now: int, kind: Kind)
    requires WellFormed(db)
    ensures var out := Attempts(db, drafts, faults, now, kind);
            WellFormed(out.db) && Extends(db, out.db)
    ensures var out := Attempts(db, drafts, faults, now, kind);
            forall i :: 0 <= i < |out.created| ==>
              db.nextId <= out.created[i] < out.db.nextId && out.created[i] in out.db.records &&
              (exists k :: 0 <= k < |drafts| && FromDraft(out.db.records[out.created[i]], drafts[k], out.created[i], kind)) &&
              JobIdOf(kind, out.created[i], out.db.records[out.created[i]].scheduledFor)
                in out.db.queues.Get(out.db.records[out.created[i]].channel)
    ensures var out := Attempts(db, drafts, faults, now, kind);
            forall i, j :: 0 <= i < j < |out.created| ==> out.created[i] < out.created[j]
    ensures var out := Attempts(db, drafts, faults, now, kind);
            forall id :: id in out.db.records && id !in db.records ==> db.nextId <= id < out.db.nextId
  {
    AttemptsFrame(db, drafts, faults, now, kind);
    AttemptsCreated(db, drafts, faults, now, kind);
  }

  /** The k-th draft made the k-th record, stored under id start + k. */
  predicate AllMade(out: Outcome, start: nat, drafts: seq<Draft>, kind: Kind) {
    |out.created| == |drafts| &&
    forall k :: 0 <= k < |drafts| ==>
      out.created[k] == start + k && out.created[k] in out.db.records &&
      FromDraft(out.db.records[out.created[k]], drafts[k], out.created[k], kind)
  }

  /** One more record made from one more draft, under the next id, with the earlier records kept. */
  lemma AllMadeSnoc(prev: Outcome, out: Outcome, start: nat, init: seq<Draft>, last: Draft, kind: Kind)
    requires AllMade(prev, start, init, kind)
    requires forall id :: id in prev.db.records ==> id in out.db.records && out.db.records[id] == prev.db.records[id]
    requires out.created == prev.created + [start + |init|]
    requires start + |init| in out.db.records && FromDraft(out.db.records[start + |init|], last, start + |init|, kind)
    ensures AllMade(out, start, init + [last], kind)
  {
    var drafts := init + [last];
    forall k | 0 <= k < |drafts|
      ensures out.created[k] == start + k && out.created[k] in out.db.records &&
              FromDraft(out.db.records[out.created[k]], drafts[k], out.created[k], kind)
    {
      if k < |init| {
        assert drafts[k] == init[k];
        assert out.created[k] == prev.created[k];
      }
    }
  }

  /** The draft is valid and no step of its attempt fails. */
  predicate Ready(d: Draft, faults: Draft -> Fault) {
    Materialize(d).Some? && faults(d) == NoFault
  }

  /** One more valid, fault-free draft after a run that made every record. */
  lemma AllSucceedStep(start: nat, prev: Outcome, drafts: seq<Draft>, faults: Draft -> Fault, now: int, kind: Kind)
    requires |drafts| > 0
    requires WellFormed(prev.db) && AllMade(prev, start, drafts[..|drafts| - 1], kind) && prev.db.nextId == start + |drafts| - 1
    requires Ready(drafts[|drafts| - 1], faults)
    ensures AllMade(Snoc(prev, drafts[|drafts| - 1], faults, now, kind), start, drafts, kind)
    ensures WellFormed(Snoc(prev, drafts[|drafts| - 1], faults, now, kind).db)
    ensures Snoc(prev, drafts[|drafts| - 1], faults, now, kind).db.nextId == start + |drafts|
  {
    var init := drafts[..|drafts| - 1];
    var last := drafts[|drafts| - 1];
    assert drafts == init + [last];
    AttemptShape(prev.db, last, faults(last), now, kind);
    AllMadeSnoc(prev, Snoc(prev, last, faults, now, kind), start, init, last, kind);
  }

  /** With no fault and every draft valid, each draft yields a record, in order, under consecutive fresh ids. */
  lemma {:induction false} AttemptsAllSucceed(db: Db, drafts: seq<Draft>, faults: Draft -> Fault, now: int, kind: Kind)
    requires WellFormed(db)
    requires forall k :: 0 <= k < |drafts| ==> Ready(drafts[k], faults)
    ensures AllMade(Attempts(db, drafts, faults, now, kind), db.nextId, drafts, kind)
    ensures Attempts(db, drafts, faults, now, kind).db.nextId == db.nextId + |drafts|
    ensures WellFormed(Attempts(db, drafts, faults, now, kind).db)
    decreases |drafts|
  {
    if |drafts| > 0 {
      var init := drafts[..|drafts| - 1];
      assert forall k :: 0 <= k < |init| ==> init[k] == drafts[k];
      AttemptsAllSucceed(db, init, faults, now, kind);
      AllSucceedStep(db.nextId, Attempts(db, init, faults, now, kind), drafts, faults, now, kind);
    }
  }

  /** The step that adds one draft at the end of a run. */
  function Snoc(prev: Outcome, d: Draft, faults: Draft -> Fault, now: int, kind: Kind): Outcome {
    var step := Attempt(prev.db, d, faults(d), now, kind);
    Outcome(step.0, prev.created + (if step.1.Some? then [step.1.value] else []))
  }

  /** A run over one draft is that draft's attempt. */
  lemma AttemptsSingle(db: Db, d: Draft, faults: Draft -> Fault, now: int, kind: Kind)
    ensures var step := Attempt(db, d, faults(d), now, kind);
            Attempts(db, [d], faults, now, kind) == Outcome(step.0, if step.1.Some? then [step.1.value] else [])
  {
    assert [d][..0] == [];
  }

  lemma AttemptsSnoc(db: Db, drafts: seq<Draft>, d: Draft, faults: Draft -> Fault, now: int, kind: Kind)
    ensures Attempts(db, drafts + [d], faults, now, kind) == Snoc(Attempts(db, drafts, faults, now, kind), d, faults, now, kind)
  {
    assert (drafts + [d])[..|drafts|] == drafts;
  }

  /** Ids listed before an attempt are carried along unchanged. */
  lemma SnocShift(a: seq<nat>, o: Outcome, d: Draft, faults: Draft -> Fault, now: int, kind: Kind)
    ensures Snoc(Outcome(o.db, a + o.created), d, faults, now, kind) ==
            Outcome(Snoc(o, d, faults, now, kind).db, a + Snoc(o, d, faults, now, kind).created)
  {
    var step := Attempt(o.db, d, faults(d), now, kind);
    var tail := if step.1.Some? then [step.1.value] else [];
    assert (a + o.created) + tail == a + (o.created + tail);
  }

  /** Running two lists of drafts in turn is running their concatenation: a failure in the first never stops the second. */
  lemma {:induction false} AttemptsAppend(db: Db, d1: seq<Draft>, d2: seq<Draft>, faults: Draft -> Fault, now: int, kind: Kind)
    ensures Attempts(db, d1 + d2, faults, now, kind) ==
            Outcome(Attempts(Attempts(db, d1, faults, now, kind).db, d2, faults, now, kind).db,
                    Attempts(db, d1, faults, now, kind).created + Attempts(Attempts(db, d1, faults, now, kind).db, d2, faults, now, kind).created)
    decreases |d2|
  {
    if |d2| == 0 {
      assert d1 + d2 == d1;
      assert Attempts(db, d1, faults, now, kind).created + [] == Attempts(db, d1, faults, now, kind).created;
    } else {
      var init2 := d2[..|d2| - 1];
      var last := d2[|d2| - 1];
      assert d2 == init2 + [last];
      assert d1 + d2 == (d1 + init2) + [last];
      AttemptsAppend(db, d1, init2, faults, now, kind);
      AttemptsSnoc(db, d1 + init2, last, faults, now, kind);
      AttemptsSnoc(Attempts(db, d1, faults, now, kind).db, init2, last, faults, now, kind);
      SnocShift(Attempts(db, d1, faults, now, kind).created, Attempts(Attempts(db, d1, faults, now, kind).db, init2, faults, now, kind),
                last, faults, now, kind);
    }
  }

  /** Persisting and dispatching one draft on the store, step by step. */
  method PersistAndDispatch(st: Store, d: Draft, fault: Fault, now: int, kind: Kind) returns (created: Option<nat>)
    modifies st
    ensures (st.Snap(), created) == Attempt(old(st.Snap()), d, fault, now, kind)
  {
    var rec := Materialize(d);
    if rec.None? || fault == SaveFails {
      return None;
    }
    var id := st.InsertRecord(rec.value);
    var job: Job;
    if kind == Regular {
      var res := ScheduleNotificationTask(st, id, rec.value, d.channel, now, fault == AddFails);
      if res.Err? {
        return None;
      }
      job := res.value;
    } else {
      if fault == AddFails {
        return None;
      }
      var e := Enqueue(st.queues.Get(rec.value.channel), TestJobFor(id, rec.value, now));
      st.SetQueue(rec.value.channel, e.0);
      job := e.1;
    }
    if fault == JobIdSaveFails {
      return None;
    }
    st.PutRecord(id, rec.value.(jobId := Some(job.id)));
    created := Some(id);
  }
}
