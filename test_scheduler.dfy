/**
 * The test-scenario scheduler: every (phase, day, channel) entry of the
 * message-template tables becomes a scenario; the scenarios are filtered by
 * an optional phase and an optional channel list, sorted by phase and day,
 * and scheduled one minute interval apart starting one interval from now,
 * each saved and queued under the job id "test-" + record id.
 */
module TestScheduler {
  import opened Wrappers
  import opened Text
  import opened Models
  import opened Strategy
  import opened TimeWindow
  import opened Template
  import opened Store
  import opened Persist
  import Planner

  /** One entry of the template tables. */
  datatype Scenario = Scenario(phase: Phase, day: int, channel: string, messageTemplate: string)

  /** The inner forEach: one scenario per channel entry of a day, in entry order. */
  function ChannelScenarios(p: Phase, day: int, entries: seq<(string, string)>): (r: seq<Scenario>)
    ensures |r| == |entries|
    ensures forall j :: 0 <= j < |entries| ==> r[j] == Scenario(p, day, entries[j].0, entries[j].1)
    decreases |entries|
  {
    if |entries| == 0 then []
    else
      var last := entries[|entries| - 1];
      ChannelScenarios(p, day, entries[..|entries| - 1]) + [Scenario(p, day, last.0, last.1)]
  }

  /** How many channel entries the day entries hold together. */
  function EntryCount(ts: seq<DayTemplates>): nat
    decreases |ts|
  {
    if |ts| == 0 then 0 else EntryCount(ts[..|ts| - 1]) + |ts[|ts| - 1].byChannel|
  }

  /** The outer forEach over one phase's day entries. */
  function PhaseScenarios(p: Phase, ts: seq<DayTemplates>): seq<Scenario>
    decreases |ts|
  {
    if |ts| == 0 then []
    else
      var last := ts[|ts| - 1];
      PhaseScenarios(p, ts[..|ts| - 1]) + ChannelScenarios(p, last.day, last.byChannel)
  }

  /** getAllNotificationScenarios: the four phases' scenarios in timeline order. */
  function AllScenarios(cfg: Config): seq<Scenario> {
    PhaseScenarios(Preventive, cfg.preventive.templates) + PhaseScenarios(EarlyDelay, cfg.earlyDelay.templates) +
    PhaseScenarios(MediumDelay, cfg.mediumDelay.templates) + PhaseScenarios(LateDelay, cfg.lateDelay.templates)
  }

  lemma {:induction false} EntryCountPrefix(ts: seq<DayTemplates>, k: nat)
    requires k <= |ts|
    ensures EntryCount(ts[..k]) <= EntryCount(ts)
    decreases |ts|
  {
    if k < |ts| {
      var init := ts[..|ts| - 1];
      assert ts[..k] == init[..k];
      EntryCountPrefix(init, k);
    } else {
      assert ts[..k] == ts;
    }
  }

  lemma {:induction false} PhaseScenariosLength(p: Phase, ts: seq<DayTemplates>)
    ensures |PhaseScenarios(p, ts)| == EntryCount(ts)
    decreases |ts|
  {
    if |ts| > 0 {
      PhaseScenariosLength(p, ts[..|ts| - 1]);
    }
  }

  /**
   * Exactly one scenario per channel entry: the phase has as many scenarios
   * as entries, and entry j of day entry i sits right after the entries of
   * the day entries before i.
   */
  lemma {:induction false} PhaseScenarioAt(p: Phase, ts: seq<DayTemplates>, i: nat, j: nat)
    requires i < |ts| && j < |ts[i].byChannel|
    ensures |PhaseScenarios(p, ts)| == EntryCount(ts)
    ensures EntryCount(ts[..i]) + j < EntryCount(ts)
    ensures PhaseScenarios(p, ts)[EntryCount(ts[..i]) + j] == Scenario(p, ts[i].day, ts[i].byChannel[j].0, ts[i].byChannel[j].1)
    decreases |ts|
  {
    PhaseScenariosLength(p, ts);
    var init := ts[..|ts| - 1];
    var last := ts[|ts| - 1];
    PhaseScenariosLength(p, init);
    var r := PhaseScenarios(p, ts);
    assert r == PhaseScenarios(p, init) + ChannelScenarios(p, last.day, last.byChannel);
    if i < |init| {
      assert ts[..i] == init[..i];
      assert ts[i] == init[i];
      PhaseScenarioAt(p, init, i, j);
    } else {
      assert ts[..i] == init;
      assert ts[i] == last;
      assert r[EntryCount(init) + j] == ChannelScenarios(p, last.day, last.byChannel)[j];
    }
  }

  /** Every scenario of a phase carries that phase and comes from one of its day entries. */
  lemma {:induction false} PhaseScenariosFrom(p: Phase, ts: seq<DayTemplates>)
    ensures forall s :: s in PhaseScenarios(p, ts) ==>
              s.phase == p && exists i :: 0 <= i < |ts| && ts[i].day == s.day && (s.channel, s.messageTemplate) in ts[i].byChannel
    decreases |ts|
  {
    if |ts| > 0 {
      var init := ts[..|ts| - 1];
      var last := ts[|ts| - 1];
      PhaseScenariosFrom(p, init);
      forall s | s in PhaseScenarios(p, ts)
        ensures s.phase == p && exists i :: 0 <= i < |ts| && ts[i].day == s.day && (s.channel, s.messageTemplate) in ts[i].byChannel
      {
        if s in PhaseScenarios(p, init) {
          var i :| 0 <= i < |init| && init[i].day == s.day && (s.channel, s.messageTemplate) in init[i].byChannel;
          assert ts[i] == init[i];
        } else {
          var cs := ChannelScenarios(p, last.day, last.byChannel);
          assert s in cs;
          var j :| 0 <= j < |cs| && cs[j] == s;
          assert last.byChannel[j] == (s.channel, s.messageTemplate);
        }
      }
    }
  }

  /** The phase filter, applied when a phase is given. */
  function FilterPhase(s: seq<Scenario>, phase: string): (r: seq<Scenario>)
    ensures forall x :: x in r <==> x in s && PhaseName(x.phase) == phase
    ensures |r| <= |s|
  {
    if s == [] then []
    else (if PhaseName(s[0].phase) == phase then [s[0]] else []) + FilterPhase(s[1..], phase)
  }

  /** The channel filter, applied for a non-empty channel list. */
  function FilterChannels(s: seq<Scenario>, channels: seq<string>): (r: seq<Scenario>)
    ensures forall x :: x in r <==> x in s && x.channel in channels
    ensures |r| <= |s|
  {
    if s == [] then []
    else (if s[0].channel in channels then [s[0]] else []) + FilterChannels(s[1..], channels)
  }

  /** The options of scheduleTestNotifications; "" and [] stand for an absent phase and channel list. */
  datatype TestOptions = TestOptions(minuteInterval: int, phase: string, channels: seq<string>)

  function Select(s: seq<Scenario>, opts: TestOptions): seq<Scenario> {
    var a := if opts.phase != "" then FilterPhase(s, opts.phase) else s;
    if |opts.channels| > 0 then FilterChannels(a, opts.channels) else a
  }

  // The sort comparator: phase order first, then ascending day.

  predicate KeyLe(a: Scenario, b: Scenario) {
    PhaseRank(a.phase) < PhaseRank(b.phase) || (PhaseRank(a.phase) == PhaseRank(b.phase) && a.day <= b.day)
  }

  predicate SameKey(a: Scenario, b: Scenario) {
    PhaseRank(a.phase) == PhaseRank(b.phase) && a.day == b.day
  }

  predicate Sorted(s: seq<Scenario>) {
    forall i, j :: 0 <= i < j < |s| ==> KeyLe(s[i], s[j])
  }

  /** The scenarios with the same sort key as k, in their order. */
  function WithKey(s: seq<Scenario>, k: Scenario): seq<Scenario> {
    if s == [] then [] else (if SameKey(s[0], k) then [s[0]] else []) + WithKey(s[1..], k)
  }

  /** x placed after every element that does not sort after it. */
  function Insert(x: Scenario, t: seq<Scenario>): seq<Scenario> {
    if t == [] then [x]
    else if KeyLe(t[0], x) then [t[0]] + Insert(x, t[1..])
    else [x] + t
  }

  /** Array.prototype.sort with the comparator: a stable sort, written here as an insertion sort. */
  function SortScenarios(s: seq<Scenario>): seq<Scenario>
    decreases |s|
  {
    if |s| == 0 then [] else Insert(s[|s| - 1], SortScenarios(s[..|s| - 1]))
  }

  lemma {:induction false} InsertPerm(x: Scenario, t: seq<Scenario>)
    ensures multiset(Insert(x, t)) == multiset(t) + multiset{x}
    decreases |t|
  {
    if t != [] && KeyLe(t[0], x) {
      InsertPerm(x, t[1..]);
      assert t == [t[0]] + t[1..];
    }
  }

  /** Every element of the insertion is x or an element of t. */
  lemma InsertFrom(x: Scenario, t: seq<Scenario>, y: Scenario)
    requires y in Insert(x, t)
    ensures y == x || y in t
  {
    InsertPerm(x, t);
    assert y in multiset(Insert(x, t));
  }

  lemma ConsSorted(a: Scenario, r: seq<Scenario>)
    requires Sorted(r) && forall i :: 0 <= i < |r| ==> KeyLe(a, r[i])
    ensures Sorted([a] + r)
  {
    forall i, j | 0 <= i < j < |[a] + r|
      ensures KeyLe(([a] + r)[i], ([a] + r)[j])
    {
      assert ([a] + r)[j] == r[j - 1];
      if i > 0 {
        assert ([a] + r)[i] == r[i - 1];
      }
    }
  }

  lemma {:induction false} InsertSorted(x: Scenario, t: seq<Scenario>)
    requires Sorted(t)
    ensures Sorted(Insert(x, t))
    decreases |t|
  {
    if t == [] {
    } else if KeyLe(t[0], x) {
      var tail := t[1..];
      assert Sorted(tail) by {
        forall i, j | 0 <= i < j < |tail|
          ensures KeyLe(tail[i], tail[j])
        {
          assert tail[i] == t[i + 1] && tail[j] == t[j + 1];
        }
      }
      InsertSorted(x, tail);
      var r := Insert(x, tail);
      forall i | 0 <= i < |r|
        ensures KeyLe(t[0], r[i])
      {
        InsertFrom(x, tail, r[i]);
        if r[i] != x {
          var k :| 0 <= k < |tail| && tail[k] == r[i];
          assert t[k + 1] == r[i];
        }
      }
      ConsSorted(t[0], r);
    } else {
      forall i | 0 <= i < |t|
        ensures KeyLe(x, t[i])
      {
        if i > 0 {
          assert KeyLe(t[0], t[i]);
        }
      }
      ConsSorted(x, t);
    }
  }

  lemma {:induction false} WithKeyNone(t: seq<Scenario>, k: Scenario)
    requires forall i :: 0 <= i < |t| ==> !SameKey(t[i], k)
    ensures WithKey(t, k) == []
    decreases |t|
  {
    if t != [] {
      WithKeyNone(t[1..], k);
    }
  }

  lemma {:induction false} WithKeyAppend(a: seq<Scenario>, b: seq<Scenario>, k: Scenario)
    ensures WithKey(a + b, k) == WithKey(a, k) + WithKey(b, k)
    decreases |a|
  {
    if a == [] {
      assert a + b == b;
    } else {
      WithKeyAppend(a[1..], b, k);
      assert (a + b)[1..] == a[1..] + b;
    }
  }

  /** Inserting into a sorted list keeps the order among equal keys: x lands after the elements whose key equals its own. */
  lemma {:induction false} InsertStable(x: Scenario, t: seq<Scenario>, k: Scenario)
    requires Sorted(t)
    ensures WithKey(Insert(x, t), k) == WithKey(t, k) + (if SameKey(x, k) then [x] else [])
    decreases |t|
  {
    if t == [] {
    } else if KeyLe(t[0], x) {
      InsertStable(x, t[1..], k);
      var r := Insert(x, t[1..]);
      assert ([t[0]] + r)[1..] == r;
    } else {
      assert ([x] + t)[1..] == t;
      if SameKey(x, k) {
        WithKeyNone(t, k);
      }
    }
  }

  /**
   * The sort: its output is ordered by phase and day, holds exactly the
   * input's scenarios, and keeps the input's order among scenarios with the
   * same phase and day.
   */
  lemma {:induction false} SortScenariosSpec(s: seq<Scenario>)
    ensures Sorted(SortScenarios(s))
    ensures multiset(SortScenarios(s)) == multiset(s)
    ensures forall k :: WithKey(SortScenarios(s), k) == WithKey(s, k)
    decreases |s|
  {
    if |s| > 0 {
      var init := s[..|s| - 1];
      var last := s[|s| - 1];
      assert s == init + [last];
      SortScenariosSpec(init);
      InsertSorted(last, SortScenarios(init));
      InsertPerm(last, SortScenarios(init));
      forall k
        ensures WithKey(SortScenarios(s), k) == WithKey(s, k)
      {
        InsertStable(last, SortScenarios(init), k);
        WithKeyAppend(init, [last], k);
        assert WithKey([last], k) == (if SameKey(last, k) then [last] else []);
      }
    }
  }

  /** The scenarios that are scheduled, in the order they are scheduled. */
  function TestScenarios(cfg: Config, opts: TestOptions): seq<Scenario> {
    SortScenarios(Select(AllScenarios(cfg), opts))
  }

  /**
   * The template data of a test message: every phase gets the late-phase
   * values; auctionDate is the date part of now plus thirty days.
   */
  function TestData(plan: Plan, s: Scenario, auctionDate: string): seq<(string, string)> {
    [("creditNumber", plan.creditId), ("amount", IntToString(plan.amount)), ("currency", plan.currency),
     ("remainingDays", IntToString(30 - (if s.day > 0 then s.day else 0))), ("auctionDate", auctionDate),
     ("companyName", Planner.CompanyName)]
  }

  /** The i-th scheduled moment: i + 1 intervals from now. */
  function TestTime(now: int, minuteInterval: int, i: nat): int {
    now + (i + 1) * (minuteInterval * MS_PER_MINUTE)
  }

  function TestDraft(plan: Plan, planId: nat, s: Scenario, now: int, auctionDate: string, minuteInterval: int, i: nat): Draft {
    Draft(planId, plan.creditId, plan.borrowerId, s.phase, s.day, s.channel, Planner.TemplateKey(s.phase, s.day),
          Format(s.messageTemplate, TestData(plan, s, auctionDate)), TestTime(now, minuteInterval, i))
  }

  function TestDrafts(plan: Plan, planId: nat, ss: seq<Scenario>, now: int, auctionDate: string, minuteInterval: int)
    : (ds: seq<Draft>)
    ensures |ds| == |ss|
    decreases |ss|
  {
    if |ss| == 0 then []
    else TestDrafts(plan, planId, ss[..|ss| - 1], now, auctionDate, minuteInterval) +
         [TestDraft(plan, planId, ss[|ss| - 1], now, auctionDate, minuteInterval, |ss| - 1)]
  }

  /** The i-th draft is scenario i rendered with the test data and placed i + 1 intervals from now. */
  lemma {:induction false} TestDraftsAt(plan: Plan, planId: nat, ss: seq<Scenario>, now: int, auctionDate: string,
                                        minuteInterval: int, i: nat)
    requires i < |ss|
    ensures TestDrafts(plan, planId, ss, now, auctionDate, minuteInterval)[i] ==
            TestDraft(plan, planId, ss[i], now, auctionDate, minuteInterval, i)
    decreases |ss|
  {
    if i < |ss| - 1 {
      TestDraftsAt(plan, planId, ss[..|ss| - 1], now, auctionDate, minuteInterval, i);
    }
  }

  /** A created record has its draft's moment, phase and day. */
  lemma FromDraftFields(r: Record, d: Draft, id: nat, kind: Kind)
    requires FromDraft(r, d, id, kind)
    ensures r.scheduledFor == d.scheduledFor && r.stage == d.stage && r.day == d.day
    ensures r.status == Scheduled && r.planId == d.planId && r.jobId == Some(JobIdOf(kind, id, d.scheduledFor))
  {
  }

  /** With a positive interval the moments are strictly increasing. */
  lemma TestTimesIncrease(now: int, minuteInterval: int, i: nat, j: nat)
    requires minuteInterval > 0 && i < j
    ensures TestTime(now, minuteInterval, i) < TestTime(now, minuteInterval, j)
  {
    var step := minuteInterval * MS_PER_MINUTE;
    assert (j + 1) * step == (i + 1) * step + (j - i) * step;
  }

  /** With a positive interval an earlier moment belongs to an earlier index. */
  lemma TestTimesReflect(now: int, minuteInterval: int, i: nat, j: nat)
    requires minuteInterval > 0 && TestTime(now, minuteInterval, i) < TestTime(now, minuteInterval, j)
    ensures i < j
  {
    var step := minuteInterval * MS_PER_MINUTE;
    assert (j + 1) * step - (i + 1) * step == (j - i) * step;
  }

  /** Which scenarios are scheduled: those of the tables that pass the given filters. */
  lemma TestScenariosExact(cfg: Config, opts: TestOptions)
    ensures forall s :: s in TestScenarios(cfg, opts) <==>
              s in AllScenarios(cfg) && (opts.phase == "" || PhaseName(s.phase) == opts.phase) &&
              (|opts.channels| == 0 || s.channel in opts.channels)
    ensures multiset(TestScenarios(cfg, opts)) == multiset(Select(AllScenarios(cfg), opts))
    ensures Sorted(TestScenarios(cfg, opts))
  {
    var sel := Select(AllScenarios(cfg), opts);
    SortScenariosSpec(sel);
    forall s
      ensures s in TestScenarios(cfg, opts) <==> s in sel
    {
      assert s in TestScenarios(cfg, opts) <==> s in multiset(TestScenarios(cfg, opts));
      assert s in sel <==> s in multiset(sel);
    }
  }

  /** The records an outcome lists are stored and in strictly increasing time. */
  predicate TimeOrdered(out: Outcome) {
    (forall i :: 0 <= i < |out.created| ==> out.created[i] in out.db.records) &&
    forall i, j :: 0 <= i < j < |out.created| ==>
      out.db.records[out.created[i]].scheduledFor < out.db.records[out.created[j]].scheduledFor
  }

  /** Every record an outcome lists is stored and earlier than a bound. */
  predicate AllBefore(out: Outcome, at: int) {
    forall i :: 0 <= i < |out.created| ==>
      out.created[i] in out.db.records && out.db.records[out.created[i]].scheduledFor < at
  }

  /** One attempt after another: the records kept, and at most one more id listed, of a record at lastAt. */
  predicate OneMoreAt(prev: Outcome, out: Outcome, lastAt: int) {
    (forall id :: id in prev.db.records ==> id in out.db.records && out.db.records[id] == prev.db.records[id]) &&
    (out.created == prev.created ||
     (|out.created| == |prev.created| + 1 && out.created[..|prev.created|] == prev.created &&
      out.created[|prev.created|] in out.db.records &&
      out.db.records[out.created[|prev.created|]].scheduledFor == lastAt))
  }

  /** One more attempt keeps the created records in time order when all created before are earlier. */
  lemma TimeOrderSnoc(prev: Outcome, out: Outcome, lastAt: int)
    requires AllBefore(prev, lastAt) && TimeOrdered(prev) && OneMoreAt(prev, out, lastAt)
    ensures TimeOrdered(out)
  {
    if out.created != prev.created {
      forall i | 0 <= i < |prev.created|
        ensures out.created[i] == prev.created[i]
      {
        assert out.created[..|prev.created|][i] == out.created[i];
      }
    }
  }

  /** Records made from drafts earlier than a moment are earlier too. */
  lemma CreatedBefore(prev: Outcome, init: seq<Draft>, at: int, kind: Kind)
    requires forall k :: 0 <= k < |init| ==> init[k].scheduledFor < at
    requires CreatedFrom(prev, init, kind)
    ensures AllBefore(prev, at)
  {
    forall i | 0 <= i < |prev.created|
      ensures prev.db.records[prev.created[i]].scheduledFor < at
    {
      var k :| 0 <= k < |init| && FromDraft(prev.db.records[prev.created[i]], init[k], prev.created[i], kind);
    }
  }

  /** One attempt keeps every stored record and lists at most the one it creates, which has the draft's moment. */
  lemma SnocOneMore(prev: Outcome, last: Draft, faults: Draft -> Fault, now: int, kind: Kind)
    requires WellFormed(prev.db)
    ensures OneMoreAt(prev, Snoc(prev, last, faults, now, kind), last.scheduledFor)
  {
    AttemptShape(prev.db, last, faults(last), now, kind);
    var out := Snoc(prev, last, faults, now, kind);
    var step := Attempt(prev.db, last, faults(last), now, kind);
    if step.1.Some? {
      assert out.created[..|prev.created|] == prev.created;
    }
  }

  /** The records a run creates keep the order of their drafts' moments. */
  lemma {:induction false} AttemptsKeepTimeOrder(db: Db, drafts: seq<Draft>, faults: Draft -> Fault, now: int, kind: Kind)
    requires WellFormed(db)
    requires forall i, j :: 0 <= i < j < |drafts| ==> drafts[i].scheduledFor < drafts[j].scheduledFor
    ensures TimeOrdered(Attempts(db, drafts, faults, now, kind))
    decreases |drafts|
  {
    if |drafts| > 0 {
      var init := drafts[..|drafts| - 1];
      var last := drafts[|drafts| - 1];
      assert drafts == init + [last];
      assert forall i :: 0 <= i < |init| ==> init[i] == drafts[i];
      AttemptsKeepTimeOrder(db, init, faults, now, kind);
      AttemptsCreatedFrom(db, init, faults, now, kind);
      AttemptsFrame(db, init, faults, now, kind);
      AttemptsSnoc(db, init, last, faults, now, kind);
      CreatedBefore(Attempts(db, init, faults, now, kind), init, last.scheduledFor, kind);
      SnocOneMore(Attempts(db, init, faults, now, kind), last, faults, now, kind);
      TimeOrderSnoc(Attempts(db, init, faults, now, kind), Snoc(Attempts(db, init, faults, now, kind), last, faults, now, kind), last.scheduledFor);
    }
  }

  /** The store after scheduleTestNotifications and the ids of the records it returns. */
  function TestOutcome(db: Db, plan: Plan, planId: nat, cfg: Config, opts: TestOptions, now: int, faults: Draft -> Fault): Outcome {
    Attempts(db, TestDrafts(plan, planId, TestScenarios(cfg, opts), now, Planner.AuctionDate(now), opts.minuteInterval), faults, now, Test)
  }

  /** Phase order, then day order, on records. */
  predicate RecordKeyLe(a: Record, b: Record) {
    PhaseRank(a.stage) < PhaseRank(b.stage) || (PhaseRank(a.stage) == PhaseRank(b.stage) && a.day <= b.day)
  }

  /** Over a sorted scenario list with a positive interval, the returned records come in strictly increasing time and in phase-then-day order. */
  lemma TestRunOrder(db: Db, plan: Plan, planId: nat, ss: seq<Scenario>, now: int, auctionDate: string, iv: int,
                     faults: Draft -> Fault)
    requires WellFormed(db) && iv > 0 && Sorted(ss)
    ensures var out := Attempts(db, TestDrafts(plan, planId, ss, now, auctionDate, iv), faults, now, Test);
            (forall i :: 0 <= i < |out.created| ==> out.created[i] in out.db.records) &&
            forall i, j :: 0 <= i < j < |out.created| ==>
              out.db.records[out.created[i]].scheduledFor < out.db.records[out.created[j]].scheduledFor &&
              RecordKeyLe(out.db.records[out.created[i]], out.db.records[out.created[j]])
  {
    var ds := TestDrafts(plan, planId, ss, now, auctionDate, iv);
    TestDraftsTimeOrder(plan, planId, ss, now, auctionDate, iv);
    AttemptsKeepTimeOrder(db, ds, faults, now, Test);
    TestDraftsKeyOrder(plan, planId, ss, now, auctionDate, iv);
    RunKeyOrder(db, ds, faults, now, Test);
  }

  /** A run over time-ordered drafts where an earlier draft never has a later key creates records in key order. */
  lemma RunKeyOrder(db: Db, ds: seq<Draft>, faults: Draft -> Fault, now: int, kind: Kind)
    requires WellFormed(db)
    requires forall i, j :: 0 <= i < j < |ds| ==> ds[i].scheduledFor < ds[j].scheduledFor
    requires forall i, j :: 0 <= i < |ds| && 0 <= j < |ds| && ds[i].scheduledFor < ds[j].scheduledFor ==>
               DraftKeyLe(ds[i], ds[j])
    ensures var out := Attempts(db, ds, faults, now, kind);
            forall i, j :: 0 <= i < j < |out.created| ==>
              out.created[i] in out.db.records && out.created[j] in out.db.records &&
              RecordKeyLe(out.db.records[out.created[i]], out.db.records[out.created[j]])
  {
    AttemptsKeepTimeOrder(db, ds, faults, now, kind);
    AttemptsCreatedFrom(db, ds, faults, now, kind);
    CreatedKeyOrder(ds, Attempts(db, ds, faults, now, kind), kind);
  }

  /** With a positive interval the test drafts come in strictly increasing time. */
  lemma TestDraftsTimeOrder(plan: Plan, planId: nat, ss: seq<Scenario>, now: int, auctionDate: string, iv: int)
    requires iv > 0
    ensures forall i, j :: 0 <= i < j < |TestDrafts(plan, planId, ss, now, auctionDate, iv)| ==>
              TestDrafts(plan, planId, ss, now, auctionDate, iv)[i].scheduledFor <
              TestDrafts(plan, planId, ss, now, auctionDate, iv)[j].scheduledFor
  {
    var ds := TestDrafts(plan, planId, ss, now, auctionDate, iv);
    forall i, j | 0 <= i < j < |ds|
      ensures ds[i].scheduledFor < ds[j].scheduledFor
    {
      TestDraftsAt(plan, planId, ss, now, auctionDate, iv, i);
      TestDraftsAt(plan, planId, ss, now, auctionDate, iv, j);
      TestTimesIncrease(now, iv, i, j);
    }
  }

  /** Phase order, then day order, on drafts. */
  predicate DraftKeyLe(a: Draft, b: Draft) {
    PhaseRank(a.stage) < PhaseRank(b.stage) || (PhaseRank(a.stage) == PhaseRank(b.stage) && a.day <= b.day)
  }

  /** Over a sorted scenario list with a positive interval, an earlier test draft never has a later key. */
  lemma TestDraftsKeyOrder(plan: Plan, planId: nat, ss: seq<Scenario>, now: int, auctionDate: string, iv: int)
    requires iv > 0 && Sorted(ss)
    ensures forall i, j :: 0 <= i < |TestDrafts(plan, planId, ss, now, auctionDate, iv)| &&
                           0 <= j < |TestDrafts(plan, planId, ss, now, auctionDate, iv)| &&
                           TestDrafts(plan, planId, ss, now, auctionDate, iv)[i].scheduledFor <
                           TestDrafts(plan, planId, ss, now, auctionDate, iv)[j].scheduledFor ==>
              DraftKeyLe(TestDrafts(plan, planId, ss, now, auctionDate, iv)[i], TestDrafts(plan, planId, ss, now, auctionDate, iv)[j])
  {
    var ds := TestDrafts(plan, planId, ss, now, auctionDate, iv);
    forall i, j | 0 <= i < |ds| && 0 <= j < |ds| && ds[i].scheduledFor < ds[j].scheduledFor
      ensures DraftKeyLe(ds[i], ds[j])
    {
      TestDraftsAt(plan, planId, ss, now, auctionDate, iv, i);
      TestDraftsAt(plan, planId, ss, now, auctionDate, iv, j);
      TestTimesReflect(now, iv, i, j);
      assert KeyLe(ss[i], ss[j]);
    }
  }

  /** When an earlier draft never has a later key, neither do the time-ordered records made from them. */
  lemma CreatedKeyOrder(ds: seq<Draft>, out: Outcome, kind: Kind)
    requires forall i, j :: 0 <= i < |ds| && 0 <= j < |ds| && ds[i].scheduledFor < ds[j].scheduledFor ==>
               DraftKeyLe(ds[i], ds[j])
    requires CreatedFrom(out, ds, kind)
    requires TimeOrdered(out)
    ensures forall i, j :: 0 <= i < j < |out.created| ==>
              RecordKeyLe(out.db.records[out.created[i]], out.db.records[out.created[j]])
  {
    forall i, j | 0 <= i < j < |out.created|
      ensures RecordKeyLe(out.db.records[out.created[i]], out.db.records[out.created[j]])
    {
      var a := out.db.records[out.created[i]];
      var b := out.db.records[out.created[j]];
      var ka :| 0 <= ka < |ds| && FromDraft(a, ds[ka], out.created[i], kind);
      var kb :| 0 <= kb < |ds| && FromDraft(b, ds[kb], out.created[j], kind);
      FromDraftFields(a, ds[ka], out.created[i], kind);
      FromDraftFields(b, ds[kb], out.created[j], kind);
    }
  }

  /**
   * A run over the drafts of a scenario list: each returned record is
   * scheduled and carries its queued "test-" job, and it is one of the
   * drafts, validated; with no failure and valid drafts every scenario
   * gets its record.
   */
  lemma TestRunSpec(db: Db, plan: Plan, planId: nat, ss: seq<Scenario>, now: int, auctionDate: string, iv: int,
                    faults: Draft -> Fault)
    requires WellFormed(db)
    ensures var ds := TestDrafts(plan, planId, ss, now, auctionDate, iv);
            var out := Attempts(db, ds, faults, now, Test);
            WellFormed(out.db) && Extends(db, out.db) &&
            forall i :: 0 <= i < |out.created| ==>
              out.created[i] in out.db.records &&
              var r := out.db.records[out.created[i]];
              r.status == Scheduled && r.planId == planId && r.jobId == Some(TestJobId(out.created[i])) &&
              TestJobId(out.created[i]) in out.db.queues.Get(r.channel) &&
              exists k :: 0 <= k < |ds| && FromDraft(r, ds[k], out.created[i], Test)
    ensures var ds := TestDrafts(plan, planId, ss, now, auctionDate, iv);
            (forall k :: 0 <= k < |ds| ==> Materialize(ds[k]).Some? && faults(ds[k]) == NoFault) ==>
              |Attempts(db, ds, faults, now, Test).created| == |ss|
  {
    var ds := TestDrafts(plan, planId, ss, now, auctionDate, iv);
    TestRunRecords(db, plan, planId, ss, now, auctionDate, iv, faults);
    if forall k :: 0 <= k < |ds| ==> Materialize(ds[k]).Some? && faults(ds[k]) == NoFault {
      AttemptsAllSucceed(db, ds, faults, now, Test);
    }
  }

  /** A record made from the k-th test draft is scheduled, of the plan, and carries its "test-" job id. */
  lemma TestRecordOf(plan: Plan, planId: nat, ss: seq<Scenario>, now: int, auctionDate: string, iv: int,
                     r: Record, id: nat, k: nat)
    requires k < |ss|
    requires FromDraft(r, TestDrafts(plan, planId, ss, now, auctionDate, iv)[k], id, Test)
    ensures r.status == Scheduled && r.planId == planId && r.jobId == Some(TestJobId(id))
  {
    FromDraftFields(r, TestDrafts(plan, planId, ss, now, auctionDate, iv)[k], id, Test);
    TestDraftsAt(plan, planId, ss, now, auctionDate, iv, k);
  }

  /** The records half of TestRunSpec. */
  lemma TestRunRecords(db: Db, plan: Plan, planId: nat, ss: seq<Scenario>, now: int, auctionDate: string, iv: int,
                       faults: Draft -> Fault)
    requires WellFormed(db)
    ensures var ds := TestDrafts(plan, planId, ss, now, auctionDate, iv);
            var out := Attempts(db, ds, faults, now, Test);
            WellFormed(out.db) && Extends(db, out.db) &&
            forall i :: 0 <= i < |out.created| ==>
              out.created[i] in out.db.records &&
              var r := out.db.records[out.created[i]];
              r.status == Scheduled && r.planId == planId && r.jobId == Some(TestJobId(out.created[i])) &&
              TestJobId(out.created[i]) in out.db.queues.Get(r.channel) &&
              exists k :: 0 <= k < |ds| && FromDraft(r, ds[k], out.created[i], Test)
  {
    var ds := TestDrafts(plan, planId, ss, now, auctionDate, iv);
    var out := Attempts(db, ds, faults, now, Test);
    AttemptsFrame(db, ds, faults, now, Test);
    AttemptsCreated(db, ds, faults, now, Test);
    forall i | 0 <= i < |out.created|
      ensures var r := out.db.records[out.created[i]];
              r.status == Scheduled && r.planId == planId && r.jobId == Some(TestJobId(out.created[i]))
    {
      var r := out.db.records[out.created[i]];
      var k :| 0 <= k < |ds| && FromDraft(r, ds[k], out.created[i], Test);
      TestRecordOf(plan, planId, ss, now, auctionDate, iv, r, out.created[i], k);
    }
  }

  /**
   * What scheduleTestNotifications leaves behind: each returned record is a
   * scheduled selected scenario, the k-th in sort order rendered with the
   * test data and placed k + 1 intervals from now, carrying its queued
   * "test-" job; with a positive interval the records come in strictly
   * increasing time and in phase-then-day order; with no failure and valid
   * scenarios every selected scenario gets its record.
   */
  lemma ScheduleTestSpec(db: Db, plan: Plan, planId: nat, cfg: Config, opts: TestOptions, now: int, faults: Draft -> Fault)
    requires WellFormed(db)
    ensures var out := TestOutcome(db, plan, planId, cfg, opts, now, faults);
            var ds := TestDrafts(plan, planId, TestScenarios(cfg, opts), now, Planner.AuctionDate(now), opts.minuteInterval);
            WellFormed(out.db) && Extends(db, out.db) &&
            forall i :: 0 <= i < |out.created| ==>
              out.created[i] in out.db.records &&
              var r := out.db.records[out.created[i]];
              r.status == Scheduled && r.planId == planId && r.jobId == Some(TestJobId(out.created[i])) &&
              TestJobId(out.created[i]) in out.db.queues.Get(r.channel) &&
              exists k :: 0 <= k < |ds| && FromDraft(r, ds[k], out.created[i], Test)
    ensures var out := TestOutcome(db, plan, planId, cfg, opts, now, faults);
            opts.minuteInterval > 0 ==>
              forall i, j :: 0 <= i < j < |out.created| ==>
                out.db.records[out.created[i]].scheduledFor < out.db.records[out.created[j]].scheduledFor &&
                RecordKeyLe(out.db.records[out.created[i]], out.db.records[out.created[j]])
    ensures var ds := TestDrafts(plan, planId, TestScenarios(cfg, opts), now, Planner.AuctionDate(now), opts.minuteInterval);
            (forall k :: 0 <= k < |ds| ==> Materialize(ds[k]).Some? && faults(ds[k]) == NoFault) ==>
              |TestOutcome(db, plan, planId, cfg, opts, now, faults).created| == |TestScenarios(cfg, opts)|
  {
    TestRunSpec(db, plan, planId, TestScenarios(cfg, opts), now, Planner.AuctionDate(now), opts.minuteInterval, faults);
    if opts.minuteInterval > 0 {
      TestScenariosExact(cfg, opts);
      TestRunOrder(db, plan, planId, TestScenarios(cfg, opts), now, Planner.AuctionDate(now), opts.minuteInterval, faults);
    }
  }

  /** The inner forEach over one day entry, appending to the scenarios collected so far. */
  method CollectDay(p: Phase, t: DayTemplates, acc: seq<Scenario>) returns (out: seq<Scenario>)
    ensures out == acc + ChannelScenarios(p, t.day, t.byChannel)
  {
    out := acc;
    var j := 0;
    while j < |t.byChannel|
      invariant 0 <= j <= |t.byChannel|
      invariant out == acc + ChannelScenarios(p, t.day, t.byChannel[..j])
    {
      var (channel, messageTemplate) := t.byChannel[j];
      assert t.byChannel[..j + 1][..j] == t.byChannel[..j];
      out := out + [Scenario(p, t.day, channel, messageTemplate)];
      j := j + 1;
    }
    assert t.byChannel[..|t.byChannel|] == t.byChannel;
  }

  /** The outer forEach over one phase's day entries. */
  method CollectPhase(p: Phase, ts: seq<DayTemplates>, acc: seq<Scenario>) returns (out: seq<Scenario>)
    ensures out == acc + PhaseScenarios(p, ts)
  {
    out := acc;
    var i := 0;
    while i < |ts|
      invariant 0 <= i <= |ts|
      invariant out == acc + PhaseScenarios(p, ts[..i])
    {
      assert ts[..i + 1][..i] == ts[..i];
      out := CollectDay(p, ts[i], out);
      i := i + 1;
    }
    assert ts[..|ts|] == ts;
  }

  /** getAllNotificationScenarios, pushing into one list phase by phase. */
  method GetAllNotificationScenarios(cfg: Config) returns (scenarios: seq<Scenario>)
    ensures scenarios == AllScenarios(cfg)
  {
    scenarios := CollectPhase(Preventive, cfg.preventive.templates, []);
    scenarios := CollectPhase(EarlyDelay, cfg.earlyDelay.templates, scenarios);
    scenarios := CollectPhase(MediumDelay, cfg.mediumDelay.templates, scenarios);
    scenarios := CollectPhase(LateDelay, cfg.lateDelay.templates, scenarios);
  }

  /** The scenarios to schedule: collected, filtered as the options say, sorted. */
  method SelectScenarios(cfg: Config, opts: TestOptions) returns (scenarios: seq<Scenario>)
    ensures scenarios == TestScenarios(cfg, opts)
  {
    scenarios := GetAllNotificationScenarios(cfg);
    if opts.phase != "" {
      scenarios := FilterPhase(scenarios, opts.phase);
    }
    if |opts.channels| > 0 {
      scenarios := FilterChannels(scenarios, opts.channels);
    }
    scenarios := SortScenarios(scenarios);
  }

  /** One iteration of the index loop: scenario i rendered, saved and queued for i + 1 intervals from now. */
  method ScheduleScenario(st: Store, plan: Plan, planId: nat, s: Scenario, now: int, auctionDate: string,
                          minuteInterval: int, i: nat, faults: Draft -> Fault)
    returns (r: Option<nat>)
    modifies st
    ensures var d := TestDraft(plan, planId, s, now, auctionDate, minuteInterval, i);
            (st.Snap(), r) == Attempt(old(st.Snap()), d, faults(d), now, Test)
  {
    var content := FormatMessage(s.messageTemplate, TestData(plan, s, auctionDate));
    var d := Draft(planId, plan.creditId, plan.borrowerId, s.phase, s.day, s.channel,
                   Planner.TemplateKey(s.phase, s.day), content, TestTime(now, minuteInterval, i));
    assert d == TestDraft(plan, planId, s, now, auctionDate, minuteInterval, i);
    r := PersistAndDispatch(st, d, faults(d), now, Test);
  }

  /** The index loop: scenario i is rendered, saved and queued for i + 1 intervals from now; a failure skips it. */
  method ScheduleScenarios(st: Store, plan: Plan, planId: nat, scenarios: seq<Scenario>, now: int, auctionDate: string,
                           minuteInterval: int, faults: Draft -> Fault)
    returns (created: seq<nat>)
    modifies st
    ensures Outcome(st.Snap(), created) ==
            Attempts(old(st.Snap()), TestDrafts(plan, planId, scenarios, now, auctionDate, minuteInterval), faults, now, Test)
  {
    ghost var db0 := st.Snap();
    created := [];
    var i := 0;
    while i < |scenarios|
      invariant 0 <= i <= |scenarios|
      invariant Outcome(st.Snap(), created) ==
                Attempts(db0, TestDrafts(plan, planId, scenarios[..i], now, auctionDate, minuteInterval), faults, now, Test)
    {
      ghost var sofar := TestDrafts(plan, planId, scenarios[..i], now, auctionDate, minuteInterval);
      ghost var d := TestDraft(plan, planId, scenarios[i], now, auctionDate, minuteInterval, i);
      assert scenarios[..i + 1][..i] == scenarios[..i];
      assert TestDrafts(plan, planId, scenarios[..i + 1], now, auctionDate, minuteInterval) == sofar + [d];
      AttemptsSnoc(db0, sofar, d, faults, now, Test);
      var r := ScheduleScenario(st, plan, planId, scenarios[i], now, auctionDate, minuteInterval, i, faults);
      if r.Some? {
        created := created + [r.value];
      }
      i := i + 1;
    }
    assert scenarios[..|scenarios|] == scenarios;
  }

  /** scheduleTestNotifications on the store. */
  method ScheduleTestNotifications(st: Store, plan: Plan, planId: nat, cfg: Config, opts: TestOptions, now: int,
                                   faults: Draft -> Fault)
    returns (created: seq<nat>)
    modifies st
    ensures Outcome(st.Snap(), created) == TestOutcome(old(st.Snap()), plan, planId, cfg, opts, now, faults)
  {
    var scenarios := SelectScenarios(cfg, opts);
    var auctionDate := Planner.AuctionDate(now);
    created := ScheduleScenarios(st, plan, planId, scenarios, now, auctionDate, opts.minuteInterval, faults);
  }

  /** schedulePhaseTestNotifications: only the phase option set. */
  method SchedulePhaseTestNotifications(st: Store, plan: Plan, planId: nat, cfg: Config, phase: string,
                                        minuteInterval: int, now: int, faults: Draft -> Fault)
    returns (created: seq<nat>)
    modifies st
    ensures Outcome(st.Snap(), created) ==
            TestOutcome(old(st.Snap()), plan, planId, cfg, TestOptions(minuteInterval, phase, []), now, faults)
  {
    created := ScheduleTestNotifications(st, plan, planId, cfg, TestOptions(minuteInterval, phase, []), now, faults);
  }

  /** scheduleChannelTestNotifications: only the channel option set. */
  method ScheduleChannelTestNotifications(st: Store, plan: Plan, planId: nat, cfg: Config, channels: seq<string>,
                                          minuteInterval: int, now: int, faults: Draft -> Fault)
    returns (created: seq<nat>)
    modifies st
    ensures Outcome(st.Snap(), created) ==
            TestOutcome(old(st.Snap()), plan, planId, cfg, TestOptions(minuteInterval, "", channels), now, faults)
  {
    created := ScheduleTestNotifications(st, plan, planId, cfg, TestOptions(minuteInterval, "", channels), now, faults);
  }
}
