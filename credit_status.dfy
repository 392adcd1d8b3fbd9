/**
 * The credit-status cascade: the credit's current status comes from the
 * main service, is written onto the credit's plan with the check time, and
 * a closed, cancelled or restructured credit has its scheduled
 * notifications cancelled.
 */
module CreditCheck {
  import opened Wrappers
  import opened Models
  import opened Store
  import opened Cancel

  /** The statuses that end the collection. */
  predicate IsTerminal(s: CreditStatus) {
    s == Closed || s == CreditCancelled || s == Restructured
  }

  /** The answer of checkCreditStatus; cancelled is present only when notifications were cancelled. */
  datatype StatusReport = StatusReport(creditId: string, status: CreditStatus, updated: bool, cancelled: Option<nat>)

  predicate PlanOf(plans: map<nat, Plan>, creditId: string, id: nat) {
    id in plans && plans[id].creditId == creditId
  }

  /** The plan findOneAndUpdate picks: the first, in id order below n, with that credit id. */
  function FirstPlan(plans: map<nat, Plan>, creditId: string, n: nat): (r: Option<nat>)
    ensures r.Some? ==> r.value < n && PlanOf(plans, creditId, r.value) &&
                        forall j: nat :: j < r.value ==> !PlanOf(plans, creditId, j)
    ensures r.None? ==> forall j: nat :: j < n ==> !PlanOf(plans, creditId, j)
  {
    if n == 0 then None
    else
      var earlier := FirstPlan(plans, creditId, n - 1);
      if earlier.Some? then earlier
      else if PlanOf(plans, creditId, n - 1) then Some(n - 1)
      else None
  }

  /**
   * checkCreditStatus as a value. fetched is what the main service answers
   * (an error is rethrown); v selects the cancellation loop as written or corrected.
   */
  function CheckOutcome(db: Db, creditId: string, v: Variant, fetched: Result<CreditStatus, string>, now: int, cf: CancelFaults)
    : (Db, Result<StatusReport, string>)
  {
    match fetched
    case Err(e) => (db, Err(e))
    case Ok(status) =>
      match FirstPlan(db.plans, creditId, db.nextId)
      case None => (db, Ok(StatusReport(creditId, status, false, None)))
      case Some(pid) =>
        var db1 := db.(plans := db.plans[pid := db.plans[pid].(creditStatus := status, lastCheckDate := now)]);
        if IsTerminal(status) then
          var (db2, res) := CancelOutcome(db1, creditId, v, cf);
          (db2, Ok(StatusReport(creditId, status, true, Some(res.totalCancelled))))
        else (db1, Ok(StatusReport(creditId, status, true, None)))
  }

  /** A failing fetch is passed on and changes nothing; without a plan nothing changes and updated is false. */
  lemma CheckWithoutPlan(db: Db, creditId: string, v: Variant, fetched: Result<CreditStatus, string>, now: int, cf: CancelFaults)
    requires WellFormed(db)
    ensures fetched.Err? ==> CheckOutcome(db, creditId, v, fetched, now, cf) == (db, Err(fetched.error))
    ensures fetched.Ok? && (forall id: nat :: !PlanOf(db.plans, creditId, id)) ==>
              CheckOutcome(db, creditId, v, fetched, now, cf) == (db, Ok(StatusReport(creditId, fetched.value, false, None)))
  {
  }

  /**
   * With a plan for the credit, the first such plan records the status and
   * the check time and no other plan changes; notifications are cancelled
   * exactly when the status is terminal, and otherwise no record changes.
   */
  lemma CheckWithPlan(db: Db, creditId: string, v: Variant, status: CreditStatus, now: int, cf: CancelFaults)
    requires WellFormed(db)
    requires exists id: nat :: PlanOf(db.plans, creditId, id)
    ensures var (db', r) := CheckOutcome(db, creditId, v, Ok(status), now, cf);
            var pid := FirstPlan(db.plans, creditId, db.nextId);
            pid.Some? && r.Ok? && r.value.updated && r.value.status == status &&
            db'.plans == db.plans[pid.value := db.plans[pid.value].(creditStatus := status, lastCheckDate := now)] &&
            (r.value.cancelled.Some? <==> IsTerminal(status)) &&
            (!IsTerminal(status) ==> db'.records == db.records && db'.queues == db.queues)
  {
    var id: nat :| PlanOf(db.plans, creditId, id);
    assert id < db.nextId;
    var pid := FirstPlan(db.plans, creditId, db.nextId);
    var db1 := db.(plans := db.plans[pid.value := db.plans[pid.value].(creditStatus := status, lastCheckDate := now)]);
    if IsTerminal(status) {
      assert WellFormed(db1);
      CancelOutcomeRecords(db1, creditId, v, cf);
    }
  }

  /**
   * Corrected cancellation: with a terminal status and no failing step,
   * every scheduled record of the credit is cancelled and the count says
   * how many.
   */
  lemma CheckTerminalCancelsAll(db: Db, creditId: string, status: CreditStatus, now: int)
    requires WellFormed(db) && IsTerminal(status)
    requires exists id: nat :: PlanOf(db.plans, creditId, id)
    ensures var (db', r) := CheckOutcome(db, creditId, Corrected, Ok(status), now, CancelFaults({}, {}));
            r.Ok? && r.value.cancelled == Some(|MatchedIds(db.records, creditId, db.nextId)|) &&
            forall id :: Matches(db.records, creditId, id) ==> id in db'.records && db'.records[id].status == Cancelled
  {
    var id: nat :| PlanOf(db.plans, creditId, id);
    assert id < db.nextId;
    var pid := FirstPlan(db.plans, creditId, db.nextId);
    var db1 := db.(plans := db.plans[pid.value := db.plans[pid.value].(creditStatus := status, lastCheckDate := now)]);
    assert WellFormed(db1);
    CancelCorrectedFaultFree(db1, creditId);
    MatchedAreRecords(db1, creditId);
  }

  /**
   * As written, the cascade calls the loop that fails on the undefined name:
   * a credit whose one scheduled record has its job queued loses that job,
   * keeps the record scheduled, and is answered with zero cancellations.
   */
  lemma CheckTerminalAsWritten(db: Db, creditId: string, status: CreditStatus, now: int, rid: nat)
    requires WellFormed(db) && IsTerminal(status)
    requires exists id: nat :: PlanOf(db.plans, creditId, id)
    requires MatchedIds(db.records, creditId, db.nextId) == [rid]
    requires rid in db.records && HasJob(db.records[rid])
    requires db.records[rid].jobId.value in db.queues.Get(db.records[rid].channel)
    ensures var (db', r) := CheckOutcome(db, creditId, AsWritten, Ok(status), now, CancelFaults({}, {}));
            r.Ok? && r.value.updated && r.value.cancelled == Some(0) &&
            db'.records == db.records && db'.records[rid].status == Scheduled &&
            db.records[rid].jobId.value !in db'.queues.Get(db.records[rid].channel)
  {
    var id: nat :| PlanOf(db.plans, creditId, id);
    assert id < db.nextId;
    var pid := FirstPlan(db.plans, creditId, db.nextId);
    var db1 := db.(plans := db.plans[pid.value := db.plans[pid.value].(creditStatus := status, lastCheckDate := now)]);
    CancelAsWrittenSingle(db1, creditId, rid);
  }

  /** A check keeps the store well formed and never adds or drops a plan. */
  lemma CheckKeepsWellFormed(db: Db, creditId: string, v: Variant, fetched: Result<CreditStatus, string>, now: int, cf: CancelFaults)
    requires WellFormed(db)
    ensures var db' := CheckOutcome(db, creditId, v, fetched, now, cf).0;
            WellFormed(db') && db'.plans.Keys == db.plans.Keys && db'.nextId == db.nextId
  {
    if fetched.Ok? {
      var pid := FirstPlan(db.plans, creditId, db.nextId);
      if pid.Some? {
        var db1 := db.(plans := db.plans[pid.value := db.plans[pid.value].(creditStatus := fetched.value, lastCheckDate := now)]);
        assert WellFormed(db1);
        if IsTerminal(fetched.value) {
          CancelOutcomeRecords(db1, creditId, v, cf);
          CancelRunFrame(db1, MatchedIds(db1.records, creditId, db1.nextId), v, cf);
        }
      }
    }
  }

  /** checkCreditStatus on the store. */
  method CheckCreditStatus(st: Store, creditId: string, v: Variant, fetched: Result<CreditStatus, string>, now: int, cf: CancelFaults)
    returns (r: Result<StatusReport, string>)
    modifies st
    ensures (st.Snap(), r) == CheckOutcome(old(st.Snap()), creditId, v, fetched, now, cf)
  {
    if fetched.Err? {
      return Err(fetched.error);
    }
    var status := fetched.value;
    var pid := FirstPlan(st.plans, creditId, st.nextId);
    if pid.None? {
      return Ok(StatusReport(creditId, status, false, None));
    }
    st.PutPlan(pid.value, st.plans[pid.value].(creditStatus := status, lastCheckDate := now));
    if IsTerminal(status) {
      var res := CancelScheduledNotifications(st, creditId, v, cf);
      return Ok(StatusReport(creditId, status, true, Some(res.totalCancelled)));
    }
    r := Ok(StatusReport(creditId, status, true, None));
  }
}
