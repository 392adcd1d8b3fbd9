/**
 * The state effects of the plan endpoints: creating a plan (one per
 * credit) and planning its notifications, updating a plan (re-planning
 * when the due date moves), cancelling a plan, reading a plan, and the
 * pagination arithmetic of the list endpoints.
 */
module PlanController {
  import opened Wrappers
  import opened Models
  import opened Strategy
  import opened Store
  import opened Persist
  import Planner
  import CreditCheck

  datatype ControllerError = PlanExists | PlanNotFound

  /** findOne({ creditId }): the plan found for a credit id, if any. */
  function FindPlan(db: Db, creditId: string): Option<nat> {
    CreditCheck.FirstPlan(db.plans, creditId, db.nextId)
  }

  /** In a well-formed store a plan is found exactly when some plan has that credit id, whatever its status. */
  lemma FindPlanSpec(db: Db, creditId: string)
    requires WellFormed(db)
    ensures FindPlan(db, creditId).Some? <==> exists id: nat :: id in db.plans && db.plans[id].creditId == creditId
    ensures FindPlan(db, creditId).Some? ==>
              FindPlan(db, creditId).value in db.plans && db.plans[FindPlan(db, creditId).value].creditId == creditId
  {
    if FindPlan(db, creditId).None? {
      forall id: nat | id in db.plans
        ensures db.plans[id].creditId != creditId
      {
        assert id < db.nextId;
        assert !CreditCheck.PlanOf(db.plans, creditId, id);
      }
    }
  }

  // ---------------------------------------------------------------------
  // createPlan
  // ---------------------------------------------------------------------

  /** The body of a create request; a currency of None or "" is falsy. */
  datatype CreateRequest = CreateRequest(creditId: string, borrowerId: string, dueDate: int, amount: int,
                                         currency: Option<string>)

  predicate TruthyText(s: Option<string>) {
    s.Some? && s.value != ""
  }

  /** currency || "EUR" */
  function CurrencyOrDefault(c: Option<string>): string {
    if TruthyText(c) then c.value else DefaultCurrency
  }

  datatype Created = Created(planId: nat, scheduled: nat)

  /**
   * createPlan: rejected when a plan for the credit exists; otherwise the
   * new active plan is saved under the next id and its notifications are
   * planned; the answer carries the plan id and how many were planned.
   */
  function CreateOutcome(db: Db, req: CreateRequest, cfg: Config, now: int, faults: Draft -> Fault)
    : (Db, Result<Created, ControllerError>)
  {
    if FindPlan(db, req.creditId).Some? then (db, Err(PlanExists))
    else
      var pid := db.nextId;
      var plan := NewPlan(req.creditId, req.borrowerId, req.dueDate, req.amount, CurrencyOrDefault(req.currency), now);
      var db1 := db.(plans := db.plans[pid := plan], nextId := pid + 1);
      var out := Attempts(db1, Planner.PlanDrafts(plan, pid, cfg, now), faults, now, Regular);
      (out.db, Ok(Created(pid, |out.created|)))
  }

  /** A second plan for a credit is refused, whatever the first one's status, and nothing is saved or planned. */
  lemma CreateRejectsExisting(db: Db, req: CreateRequest, cfg: Config, now: int, faults: Draft -> Fault)
    requires WellFormed(db)
    requires exists id: nat :: id in db.plans && db.plans[id].creditId == req.creditId
    ensures CreateOutcome(db, req, cfg, now, faults) == (db, Err(PlanExists))
  {
    FindPlanSpec(db, req.creditId);
  }

  /**
   * A new credit gets one plan, under a fresh id: active, credit status
   * ACTIVE, checked now, currency "EUR" unless a truthy one was given; the
   * plan is the only one with that credit id; records and jobs already
   * there are kept and the store stays well formed.
   */
  lemma CreateSpec(db: Db, req: CreateRequest, cfg: Config, now: int, faults: Draft -> Fault)
    requires WellFormed(db)
    requires forall id: nat :: id in db.plans ==> db.plans[id].creditId != req.creditId
    ensures var (db', res) := CreateOutcome(db, req, cfg, now, faults);
            res.Ok? && res.value.planId == db.nextId && res.value.planId in db'.plans &&
            var p := db'.plans[res.value.planId];
            p.status == Active && p.creditStatus == CreditActive && p.lastCheckDate == now &&
            p.creditId == req.creditId && p.borrowerId == req.borrowerId && p.dueDate == req.dueDate &&
            p.amount == req.amount &&
            (TruthyText(req.currency) ==> p.currency == req.currency.value) &&
            (!TruthyText(req.currency) ==> p.currency == "EUR") &&
            db'.plans == db.plans[res.value.planId := p] &&
            (forall id: nat :: id in db'.plans && db'.plans[id].creditId == req.creditId ==> id == res.value.planId) &&
            WellFormed(db') &&
            (forall id :: id in db.records ==> id in db'.records && db'.records[id] == db.records[id]) &&
            QueuesGrow(db.queues, db'.queues)
  {
    FindPlanSpec(db, req.creditId);
    var pid := db.nextId;
    var plan := NewPlan(req.creditId, req.borrowerId, req.dueDate, req.amount, CurrencyOrDefault(req.currency), now);
    var db1 := db.(plans := db.plans[pid := plan], nextId := pid + 1);
    assert WellFormed(db1);
    var out := Attempts(db1, Planner.PlanDrafts(plan, pid, cfg, now), faults, now, Regular);
    AttemptsShape(db1, Planner.PlanDrafts(plan, pid, cfg, now), faults, now, Regular);
    assert CreateOutcome(db, req, cfg, now, faults) == (out.db, Ok(Created(pid, |out.created|)));
  }

  /**
   * The count a create returns is the number of records planned for the
   * new plan; each is scheduled, belongs to the new plan and is placed at
   * its day relative to the due date.
   */
  lemma CreateSchedules(db: Db, req: CreateRequest, cfg: Config, now: int, faults: Draft -> Fault)
    requires WellFormed(db)
    requires forall id: nat :: id in db.plans ==> db.plans[id].creditId != req.creditId
    ensures var pid := db.nextId;
            var plan := NewPlan(req.creditId, req.borrowerId, req.dueDate, req.amount, CurrencyOrDefault(req.currency), now);
            var out := Attempts(db.(plans := db.plans[pid := plan], nextId := pid + 1),
                                Planner.PlanDrafts(plan, pid, cfg, now), faults, now, Regular);
            CreateOutcome(db, req, cfg, now, faults) == (out.db, Ok(Created(pid, |out.created|))) &&
            forall i :: 0 <= i < |out.created| ==>
              out.created[i] in out.db.records && out.db.records[out.created[i]].planId == pid &&
              out.db.records[out.created[i]].status == Scheduled &&
              out.db.records[out.created[i]].scheduledFor ==
                Planner.ScheduledFor(req.dueDate, out.db.records[out.created[i]].day)
  {
    FindPlanSpec(db, req.creditId);
    var pid := db.nextId;
    var plan := NewPlan(req.creditId, req.borrowerId, req.dueDate, req.amount, CurrencyOrDefault(req.currency), now);
    var db1 := db.(plans := db.plans[pid := plan], nextId := pid + 1);
    assert WellFormed(db1);
    Planner.ScheduleNotificationsSpec(db1, plan, pid, cfg, now, faults);
  }

  /** createPlan on the store: the uniqueness check, the save, then the planner. */
  method CreatePlan(st: Store, req: CreateRequest, cfg: Config, now: int, faults: Draft -> Fault)
    returns (res: Result<Created, ControllerError>)
    modifies st
    ensures (st.Snap(), res) == CreateOutcome(old(st.Snap()), req, cfg, now, faults)
  {
    var existing := CreditCheck.FirstPlan(st.plans, req.creditId, st.nextId);
    if existing.Some? {
      return Err(PlanExists);
    }
    var plan := NewPlan(req.creditId, req.borrowerId, req.dueDate, req.amount, CurrencyOrDefault(req.currency), now);
    var pid := st.InsertPlan(plan);
    var created := Planner.ScheduleNotifications(st, plan, pid, cfg, now, faults);
    res := Ok(Created(pid, |created|));
  }

  // ---------------------------------------------------------------------
  // The updateMany that cancels a plan's scheduled records
  // ---------------------------------------------------------------------

  function CancelIfScheduled(r: Record, planId: nat): Record {
    if r.planId == planId && r.status == Scheduled then r.(status := Cancelled) else r
  }

  /** updateMany({ planId, status: "scheduled" }, { status: "cancelled" }) */
  function CancelPlanRecords(records: map<nat, Record>, planId: nat): map<nat, Record> {
    map k | k in records :: CancelIfScheduled(records[k], planId)
  }

  /**
   * Exactly the plan's scheduled records become cancelled, every other
   * field and every other record stays, and afterwards the plan has no
   * scheduled record left.
   */
  lemma CancelPlanRecordsSpec(records: map<nat, Record>, planId: nat)
    ensures var rs := CancelPlanRecords(records, planId);
            rs.Keys == records.Keys &&
            (forall k :: k in records && records[k].planId == planId && records[k].status == Scheduled ==>
               rs[k] == records[k].(status := Cancelled)) &&
            (forall k :: k in records && !(records[k].planId == planId && records[k].status == Scheduled) ==>
               rs[k] == records[k]) &&
            (forall k :: k in rs && rs[k].planId == planId ==> rs[k].status != Scheduled)
  {
  }

  /** Running the update a second time changes nothing. */
  lemma CancelPlanRecordsIdempotent(records: map<nat, Record>, planId: nat)
    ensures CancelPlanRecords(CancelPlanRecords(records, planId), planId) == CancelPlanRecords(records, planId)
  {
  }

  /** The update record by record; the queues are not touched. */
  method CancelPlanRecordsInStore(st: Store, planId: nat)
    modifies st
    ensures st.Snap() == old(st.Snap()).(records := CancelPlanRecords(old(st.records), planId))
  {
    ghost var db0 := st.Snap();
    var todo := st.records.Keys;
    while todo != {}
      invariant todo <= db0.records.Keys
      invariant st.Snap() == db0.(records := st.records)
      invariant st.records.Keys == db0.records.Keys
      invariant forall k :: k in db0.records && k in todo ==> st.records[k] == db0.records[k]
      invariant forall k :: k in db0.records && k !in todo ==> st.records[k] == CancelIfScheduled(db0.records[k], planId)
      decreases todo
    {
      var k :| k in todo;
      st.PutRecord(k, CancelIfScheduled(st.records[k], planId));
      todo := todo - {k};
    }
    assert st.records == CancelPlanRecords(db0.records, planId);
  }

  // ---------------------------------------------------------------------
  // updatePlan
  // ---------------------------------------------------------------------

  /**
   * The body of an update request. An amount of 0 and a currency of "" are
   * falsy; dueDate is Some only for a truthy date string, so Some(0) is the
   * epoch given as a date, not a falsy 0.
   */
  datatype PlanUpdate = PlanUpdate(dueDate: Option<int>, amount: Option<int>, currency: Option<string>,
                                   status: Option<PlanStatus>)

  /** Each of amount, currency and status is copied only when truthy. */
  function ApplyFields(p: Plan, u: PlanUpdate): Plan {
    var p1 := if u.amount.Some? && u.amount.value != 0 then p.(amount := u.amount.value) else p;
    var p2 := if TruthyText(u.currency) then p1.(currency := u.currency.value) else p1;
    if u.status.Some? then p2.(status := u.status.value) else p2
  }

  /** The fields copied are exactly the truthy ones; nothing else in the plan moves. */
  lemma ApplyFieldsSpec(p: Plan, u: PlanUpdate)
    ensures var q := ApplyFields(p, u);
            q.amount == (if u.amount.Some? && u.amount.value != 0 then u.amount.value else p.amount) &&
            q.currency == (if TruthyText(u.currency) then u.currency.value else p.currency) &&
            q.status == (if u.status.Some? then u.status.value else p.status) &&
            q.(amount := p.amount, currency := p.currency, status := p.status) == p
  {
  }

  /**
   * The due date moves when one is given and differs from the stored one.
   * Some(d) stands for a truthy dueDate in the request (a non-empty date
   * string, parsed to d); an absent or falsy one is None.
   */
  predicate MovesDueDate(p: Plan, u: PlanUpdate) {
    u.dueDate.Some? && u.dueDate.value != p.dueDate
  }

  datatype Updated = Replanned(plan: Plan, scheduled: nat) | FieldsUpdated(plan: Plan)

  /**
   * updatePlan: a missing plan is NOT_FOUND. A moved due date cancels the
   * plan's scheduled records (their queued jobs stay), saves the plan with
   * the new date and the truthy fields, and plans again from the new date;
   * otherwise only the truthy fields are saved.
   */
  function UpdateOutcome(db: Db, creditId: string, u: PlanUpdate, cfg: Config, now: int, faults: Draft -> Fault)
    : (Db, Result<Updated, ControllerError>)
  {
    match FindPlan(db, creditId)
    case None => (db, Err(PlanNotFound))
    case Some(pid) =>
      if pid !in db.plans then (db, Err(PlanNotFound))
      else
        var p := db.plans[pid];
        if MovesDueDate(p, u) then
          var p' := ApplyFields(p.(dueDate := u.dueDate.value), u);
          var db1 := db.(records := CancelPlanRecords(db.records, pid), plans := db.plans[pid := p']);
          var out := Attempts(db1, Planner.PlanDrafts(p', pid, cfg, now), faults, now, Regular);
          (out.db, Ok(Replanned(p', |out.created|)))
        else
          var p' := ApplyFields(p, u);
          (db.(plans := db.plans[pid := p']), Ok(FieldsUpdated(p')))
  }

  /** With the due date unchanged only the plan's fields change: no record, job or other plan moves. */
  lemma UpdateKeepsDate(db: Db, creditId: string, pid: nat, u: PlanUpdate, cfg: Config, now: int,
                        faults: Draft -> Fault)
    requires WellFormed(db) && FindPlan(db, creditId) == Some(pid)
    requires pid in db.plans && !MovesDueDate(db.plans[pid], u)
    ensures var (db', res) := UpdateOutcome(db, creditId, u, cfg, now, faults);
            db' == db.(plans := db.plans[pid := ApplyFields(db.plans[pid], u)]) &&
            res == Ok(FieldsUpdated(ApplyFields(db.plans[pid], u))) &&
            db'.plans[pid].dueDate == db.plans[pid].dueDate && db'.plans[pid].creditId == creditId
  {
    FindPlanSpec(db, creditId);
  }

  /**
   * With a moved due date: the plan's formerly scheduled records are all
   * cancelled and every other old record is unchanged; no queued job is
   * removed; the plan holds the new date; each record planned again
   * belongs to the plan, is scheduled and is placed relative to the new
   * date; the store stays well formed.
   */
  lemma UpdateMovesDate(db: Db, creditId: string, pid: nat, u: PlanUpdate, cfg: Config, now: int,
                        faults: Draft -> Fault)
    requires WellFormed(db) && FindPlan(db, creditId) == Some(pid)
    requires pid in db.plans && MovesDueDate(db.plans[pid], u)
    ensures var (db', res) := UpdateOutcome(db, creditId, u, cfg, now, faults);
            WellFormed(db') && res.Ok? && res.value.Replanned? &&
            pid in db'.plans && db'.plans[pid] == res.value.plan &&
            db'.plans[pid] == ApplyFields(db.plans[pid].(dueDate := u.dueDate.value), u) &&
            db'.plans[pid].dueDate == u.dueDate.value &&
            (forall id :: id in db.plans && id != pid ==> id in db'.plans && db'.plans[id] == db.plans[id]) &&
            (forall k :: k in db.records && db.records[k].planId == pid && db.records[k].status == Scheduled ==>
               k in db'.records && db'.records[k] == db.records[k].(status := Cancelled)) &&
            (forall k :: k in db.records && !(db.records[k].planId == pid && db.records[k].status == Scheduled) ==>
               k in db'.records && db'.records[k] == db.records[k]) &&
            QueuesGrow(db.queues, db'.queues)
    ensures var (db', res) := UpdateOutcome(db, creditId, u, cfg, now, faults);
            var p' := db'.plans[pid];
            var out := Attempts(db.(records := CancelPlanRecords(db.records, pid), plans := db.plans[pid := p']),
                                Planner.PlanDrafts(p', pid, cfg, now), faults, now, Regular);
            res.value.scheduled == |out.created| &&
            forall i :: 0 <= i < |out.created| ==>
              out.created[i] !in db.records && out.created[i] in db'.records &&
              db'.records[out.created[i]].planId == pid && db'.records[out.created[i]].status == Scheduled &&
              db'.records[out.created[i]].scheduledFor ==
                Planner.ScheduledFor(u.dueDate.value, db'.records[out.created[i]].day)
  {
    FindPlanSpec(db, creditId);
    var p := db.plans[pid];
    var p' := ApplyFields(p.(dueDate := u.dueDate.value), u);
    var db1 := db.(records := CancelPlanRecords(db.records, pid), plans := db.plans[pid := p']);
    CancelPlanRecordsSpec(db.records, pid);
    assert WellFormed(db1);
    Planner.ScheduleNotificationsSpec(db1, p', pid, cfg, now, faults);
    AttemptsShape(db1, Planner.PlanDrafts(p', pid, cfg, now), faults, now, Regular);
  }

  /** updatePlan on the store. */
  method UpdatePlan(st: Store, creditId: string, u: PlanUpdate, cfg: Config, now: int, faults: Draft -> Fault)
    returns (res: Result<Updated, ControllerError>)
    modifies st
    ensures (st.Snap(), res) == UpdateOutcome(old(st.Snap()), creditId, u, cfg, now, faults)
  {
    var found := CreditCheck.FirstPlan(st.plans, creditId, st.nextId);
    if found.None? || found.value !in st.plans {
      return Err(PlanNotFound);
    }
    var pid := found.value;
    var p := st.plans[pid];
    if MovesDueDate(p, u) {
      CancelPlanRecordsInStore(st, pid);
      var p' := ApplyFields(p.(dueDate := u.dueDate.value), u);
      st.PutPlan(pid, p');
      var created := Planner.ScheduleNotifications(st, p', pid, cfg, now, faults);
      return Ok(Replanned(p', |created|));
    }
    var p' := ApplyFields(p, u);
    st.PutPlan(pid, p');
    res := Ok(FieldsUpdated(p'));
  }

  // ---------------------------------------------------------------------
  // cancelPlan and getPlanByCreditId
  // ---------------------------------------------------------------------

  /** cancelPlan: the plan becomes cancelled, then its scheduled records do. */
  function CancelPlanOutcome(db: Db, creditId: string): (Db, Result<(), ControllerError>) {
    match FindPlan(db, creditId)
    case None => (db, Err(PlanNotFound))
    case Some(pid) =>
      if pid !in db.plans then (db, Err(PlanNotFound))
      else
        (db.(plans := db.plans[pid := db.plans[pid].(status := PlanCancelled)],
             records := CancelPlanRecords(db.records, pid)), Ok(()))
  }

  /**
   * Cancelling marks only the found plan cancelled and cancels only its
   * scheduled records; other plans, other records and all queued jobs stay.
   */
  lemma CancelPlanSpec(db: Db, creditId: string, pid: nat)
    requires WellFormed(db) && FindPlan(db, creditId) == Some(pid)
    ensures var (db', res) := CancelPlanOutcome(db, creditId);
            res.Ok? && db.plans[pid].creditId == creditId &&
            db'.plans == db.plans[pid := db.plans[pid].(status := PlanCancelled)] &&
            db'.queues == db.queues && db'.nextId == db.nextId && db'.records.Keys == db.records.Keys &&
            (forall k :: k in db.records && db.records[k].planId == pid && db.records[k].status == Scheduled ==>
               db'.records[k] == db.records[k].(status := Cancelled)) &&
            (forall k :: k in db.records && !(db.records[k].planId == pid && db.records[k].status == Scheduled) ==>
               db'.records[k] == db.records[k]) &&
            WellFormed(db')
  {
    FindPlanSpec(db, creditId);
    CancelPlanRecordsSpec(db.records, pid);
  }

  /** cancelPlan on the store. */
  method CancelPlan(st: Store, creditId: string) returns (res: Result<(), ControllerError>)
    modifies st
    ensures (st.Snap(), res) == CancelPlanOutcome(old(st.Snap()), creditId)
  {
    var found := CreditCheck.FirstPlan(st.plans, creditId, st.nextId);
    if found.None? || found.value !in st.plans {
      return Err(PlanNotFound);
    }
    var pid := found.value;
    st.PutPlan(pid, st.plans[pid].(status := PlanCancelled));
    CancelPlanRecordsInStore(st, pid);
    res := Ok(());
  }

  /** getPlanByCreditId */
  function GetPlan(db: Db, creditId: string): Result<Plan, ControllerError> {
    match FindPlan(db, creditId)
    case None => Err(PlanNotFound)
    case Some(pid) => if pid in db.plans then Ok(db.plans[pid]) else Err(PlanNotFound)
  }

  /**
   * A plan is returned exactly when one has the credit id, and it is a
   * stored plan with that credit id; without one, get, update and cancel
   * all answer NOT_FOUND and change nothing.
   */
  lemma MissingPlanNotFound(db: Db, creditId: string, u: PlanUpdate, cfg: Config, now: int, faults: Draft -> Fault)
    requires WellFormed(db)
    ensures GetPlan(db, creditId).Ok? <==> exists id: nat :: id in db.plans && db.plans[id].creditId == creditId
    ensures GetPlan(db, creditId).Ok? ==>
              GetPlan(db, creditId).value.creditId == creditId && GetPlan(db, creditId).value in db.plans.Values
    ensures (forall id: nat :: id in db.plans ==> db.plans[id].creditId != creditId) ==>
              GetPlan(db, creditId) == Err(PlanNotFound) &&
              UpdateOutcome(db, creditId, u, cfg, now, faults) == (db, Err(PlanNotFound)) &&
              CancelPlanOutcome(db, creditId) == (db, Err(PlanNotFound))
  {
    FindPlanSpec(db, creditId);
  }

  // ---------------------------------------------------------------------
  // Pagination
  // ---------------------------------------------------------------------

  /** (page - 1) * limit */
  function Skip(page: int, limit: int): int {
    (page - 1) * limit
  }

  /** Math.ceil(total / limit); a limit of 0 gives no finite number. */
  function Pages(total: nat, limit: int): Option<int> {
    if limit == 0 then None
    else if limit > 0 then Some((total + limit - 1) / limit)
    else Some(-(total / -limit))
  }

  /** The page count is the least number of limit-sized pages holding total items. */
  lemma {:induction false} PagesSpec(total: nat, limit: int)
    requires limit > 0
    ensures Pages(total, limit).Some?
    ensures var p := Pages(total, limit).value;
            p >= 0 && p * limit >= total && (p == 0 || (p - 1) * limit < total) && (p == 0 <==> total == 0)
  {
    var p := (total + limit - 1) / limit;
    var r := (total + limit - 1) % limit;
    assert total + limit - 1 == p * limit + r;
    assert p * limit >= total;
    if p > 0 {
      assert (p - 1) * limit == p * limit - limit;
    }
  }

  lemma MulLess(a: int, b: int, l: int)
    requires l > 0
    ensures a * l < b * l ==> a < b
  {
    if a >= b {
      assert a * l - b * l == (a - b) * l;
      assert (a - b) * l >= 0;
    }
  }

  lemma DivWindow(i: int, l: int)
    requires l > 0
    ensures (i / l) * l <= i < (i / l) * l + l
  {
  }

  /** The only window of width l holding i starts at (i / l) * l. */
  lemma WindowUnique(i: int, l: int, s: int)
    requires l > 0 && s * l <= i < s * l + l
    ensures s == i / l
  {
    var q := i / l;
    DivWindow(i, l);
    assert s * l < (q + 1) * l;
    MulLess(s, q + 1, l);
    assert q * l < (s + 1) * l;
    MulLess(q, s + 1, l);
  }

  /** Item i lies in the window of page i / limit + 1. */
  lemma PageWindow(limit: int, i: nat)
    requires limit > 0
    ensures Skip(i / limit + 1, limit) <= i < Skip(i / limit + 1, limit) + limit
  {
    DivWindow(i, limit);
    assert Skip(i / limit + 1, limit) == (i / limit) * limit;
  }

  /** The page of an item below total is one of the pages 1..pages. */
  lemma PageInRange(total: nat, limit: int, i: nat)
    requires limit > 0 && i < total
    ensures 1 <= i / limit + 1 <= Pages(total, limit).value
  {
    PagesSpec(total, limit);
    var q := i / limit;
    var p := Pages(total, limit).value;
    DivWindow(i, limit);
    assert q * limit < p * limit;
    MulLess(q, p, limit);
  }

  /** Every item is on one of the pages 1..pages: item i lies in the window [Skip(page), Skip(page) + limit) of page i / limit + 1. */
  lemma PageHoldsItem(total: nat, limit: int, i: nat)
    requires limit > 0 && i < total
    ensures var page := i / limit + 1;
            1 <= page <= Pages(total, limit).value &&
            Skip(page, limit) <= i < Skip(page, limit) + limit
  {
    PageInRange(total, limit, i);
    PageWindow(limit, i);
  }

  /** No other page holds item i: the windows of distinct pages are disjoint. */
  lemma PageUnique(limit: int, i: int, page: int)
    requires limit > 0 && Skip(page, limit) <= i < Skip(page, limit) + limit
    ensures page == i / limit + 1
  {
    WindowUnique(i, limit, page - 1);
  }
}
