/**
 * The state the engine works on: the record and plan collections, one job
 * queue per channel, and the repeatable jobs of the status-check queue.
 * Records and plans share one id space; a fresh id is always the next
 * unused number.
 */
module Store {
  import opened Wrappers
  import opened Models

  datatype Backoff = Exponential(delay: int)

  /** The payload of a queued job. */
  datatype JobData =
    | NotificationJob(recordId: nat, creditId: string, borrowerId: string, content: string)
    | StatusCheckJob(kind: string)

  /** A queued job with the options it was added with. */
  datatype Job = Job(
    id: string,
    data: JobData,
    delay: int,
    attempts: nat,
    backoff: Option<Backoff>,
    removeOnComplete: bool,
    removeOnFail: bool)

  /** One queue per channel, each a map from job id to job. */
  datatype Queues = Queues(sms: map<string, Job>, email: map<string, Job>, push: map<string, Job>, aiCall: map<string, Job>)
  {
    function Get(c: Channel): map<string, Job> {
      match c
      case Sms => sms
      case Email => email
      case Push => push
      case AiCall => aiCall
    }

    function Set(c: Channel, q: map<string, Job>): (r: Queues)
      ensures r.Get(c) == q
      ensures forall d :: d != c ==> r.Get(d) == Get(d)
    {
      match c
      case Sms => this.(sms := q)
      case Email => this.(email := q)
      case Push => this.(push := q)
      case AiCall => this.(aiCall := q)
    }
  }

  const NoJobs: Queues := Queues(map[], map[], map[], map[])

  /** A repeatable job of the status-check queue, known by its key. */
  datatype Repeatable = Repeatable(key: string, every: int, removeOnComplete: bool)

  /** A snapshot of the whole store. */
  datatype Db = Db(
    records: map<nat, Record>,
    plans: map<nat, Plan>,
    queues: Queues,
    repeatables: seq<Repeatable>,
    nextId: nat)

  /** Every job is stored under its own id. */
  predicate KeyedById(q: map<string, Job>) {
    forall k :: k in q ==> q[k].id == k
  }

  /**
   * The store's standing invariant: ids are below nextId, so nextId is
   * always fresh, and every queue holds each job under its own id.
   */
  predicate WellFormed(db: Db) {
    (forall id :: id in db.records ==> id < db.nextId) &&
    (forall id :: id in db.plans ==> id < db.nextId) &&
    (forall c :: KeyedById(db.queues.Get(c)))
  }

  /**
   * queue.add with a job id: a job whose id is already present is returned
   * and the queue is left as it is; otherwise the job is stored under its id.
   */
  function Enqueue(q: map<string, Job>, job: Job): (map<string, Job>, Job)
  {
    if job.id in q then (q, q[job.id]) else (q[job.id := job], job)
  }

  /** The returned job is the one stored under the requested id, and nothing else in the queue changes. */
  lemma EnqueueStores(q: map<string, Job>, job: Job)
    ensures job.id in Enqueue(q, job).0 && Enqueue(q, job).0[job.id] == Enqueue(q, job).1
    ensures forall k :: k != job.id ==> (k in q <==> k in Enqueue(q, job).0)
    ensures forall k :: k != job.id && k in q ==> Enqueue(q, job).0[k] == q[k]
    ensures job.id !in q ==> Enqueue(q, job).1 == job
  {
  }

  /** Adding the same job twice leaves one job: the second add changes nothing and returns the same job. */
  lemma EnqueueIdempotent(q: map<string, Job>, job: Job)
    ensures Enqueue(Enqueue(q, job).0, job) == (Enqueue(q, job).0, Enqueue(q, job).1)
  {
  }

  /** The mutable store the operations change step by step. */
  class Store {
    var records: map<nat, Record>
    var plans: map<nat, Plan>
    var queues: Queues
    var repeatables: seq<Repeatable>
    var nextId: nat

    function Snap(): Db
      reads this
    {
      Db(records, plans, queues, repeatables, nextId)
    }

    predicate Valid()
      reads this
    {
      WellFormed(Snap())
    }

    constructor ()
      ensures Snap() == Db(map[], map[], NoJobs, [], 0)
      ensures Valid()
    {
      records := map[];
      plans := map[];
      queues := NoJobs;
      repeatables := [];
      nextId := 0;
    }

    /** save() of a new record: it gets the next id. */
    method InsertRecord(r: Record) returns (id: nat)
      modifies this
      ensures id == old(nextId)
      ensures Snap() == old(Snap()).(records := old(records)[id := r], nextId := id + 1)
    {
      id := nextId;
      records := records[id := r];
      nextId := nextId + 1;
    }

    /** save() of a new plan: it gets the next id. */
    method InsertPlan(p: Plan) returns (id: nat)
      modifies this
      ensures id == old(nextId)
      ensures Snap() == old(Snap()).(plans := old(plans)[id := p], nextId := id + 1)
    {
      id := nextId;
      plans := plans[id := p];
      nextId := nextId + 1;
    }

    method PutRecord(id: nat, r: Record)
      modifies this
      ensures Snap() == old(Snap()).(records := old(records)[id := r])
    {
      records := records[id := r];
    }

    method PutPlan(id: nat, p: Plan)
      modifies this
      ensures Snap() == old(Snap()).(plans := old(plans)[id := p])
    {
      plans := plans[id := p];
    }

    method SetQueue(c: Channel, q: map<string, Job>)
      modifies this
      ensures Snap() == old(Snap()).(queues := old(queues).Set(c, q))
    {
      queues := queues.Set(c, q);
    }

    method SetRepeatables(rs: seq<Repeatable>)
      modifies this
      ensures Snap() == old(Snap()).(repeatables := rs)
    {
      repeatables := rs;
    }
  }
}
