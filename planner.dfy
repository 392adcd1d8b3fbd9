/**
 * The phase planner: for each phase (preventive, early, medium and late
 * delay), each configured day and each channel of that day, one record
 * scheduled dueDate + day days ahead, with its rendered message, saved and
 * dispatched. Past moments, days without channels and missing or empty
 * templates are skipped.
 */
module Planner {
  import opened Wrappers
  import opened Text
  import opened Models
  import opened Strategy
  import opened TimeWindow
  import opened Template
  import opened Calendar
  import opened Store
  import opened Dispatch
  import opened Persist

  const CompanyName: string := "Collection Agency Ltd."
  const AuctionOffsetDays: int := 30

  /** getAuctionDate: the date part of dueDate plus thirty days. */
  function AuctionDate(dueDate: int): (s: string)
    ensures s == IsoDate(DayIndex(dueDate) + AuctionOffsetDays)
  {
    DayShift(dueDate, AuctionOffsetDays);
    IsoDate(DayIndex(dueDate + AuctionOffsetDays * MS_PER_DAY))
  }

  /**
   * The values a phase's messages are rendered with: credit number, amount
   * and currency; the late phase adds the days left before the auction,
   * the auction date and the company name.
   */
  function MessageData(plan: Plan, p: Phase, day: int): seq<(string, string)>
  {
    var base := [("creditNumber", plan.creditId), ("amount", IntToString(plan.amount)), ("currency", plan.currency)];
    if p == LateDelay then
      base + [("remainingDays", IntToString(30 - day)), ("auctionDate", AuctionDate(plan.dueDate)),
              ("companyName", CompanyName)]
    else base
  }

  /** The stored template key, e.g. "PREVENTIVE_-3". */
  function TemplateKey(p: Phase, day: int): string {
    PhaseKey(p) + "_" + IntToString(day)
  }

  /** dueDate moved by day calendar days. */
  function ScheduledFor(dueDate: int, day: int): int {
    dueDate + day * MS_PER_DAY
  }

  /** The record for one channel of one day, when the channel has a non-empty template. */
  function ChannelDraft(plan: Plan, planId: nat, p: Phase, tbl: PhaseTable, day: int, channel: string): seq<Draft>
  {
    match TemplateFor(tbl.templates, day, channel)
    case None => []
    case Some(t) =>
      if t == "" then []
      else [Draft(planId, plan.creditId, plan.borrowerId, p, day, channel, TemplateKey(p, day),
                  Format(t, MessageData(plan, p, day)), ScheduledFor(plan.dueDate, day))]
  }

  /** The inner loop: the channels of one day, in order. */
  function ChannelsDrafts(plan: Plan, planId: nat, p: Phase, tbl: PhaseTable, day: int, chans: seq<string>): seq<Draft>
    decreases |chans|
  {
    if |chans| == 0 then []
    else ChannelsDrafts(plan, planId, p, tbl, day, chans[..|chans| - 1]) +
         ChannelDraft(plan, planId, p, tbl, day, chans[|chans| - 1])
  }

  /** One day of the outer loop: nothing for a past moment or a day without a channel list. */
  function DayDrafts(plan: Plan, planId: nat, p: Phase, tbl: PhaseTable, day: int, now: int): seq<Draft>
  {
    if ScheduledFor(plan.dueDate, day) < now || day !in tbl.channels then []
    else ChannelsDrafts(plan, planId, p, tbl, day, tbl.channels[day])
  }

  /** The outer loop over the phase's days, in order. */
  function DaysDrafts(plan: Plan, planId: nat, p: Phase, tbl: PhaseTable, days: seq<int>, now: int): seq<Draft>
    decreases |days|
  {
    if |days| == 0 then []
    else DaysDrafts(plan, planId, p, tbl, days[..|days| - 1], now) +
         DayDrafts(plan, planId, p, tbl, days[|days| - 1], now)
  }

  /** What one phase function plans. */
  function PhaseDrafts(plan: Plan, planId: nat, cfg: Config, p: Phase, now: int): seq<Draft> {
    DaysDrafts(plan, planId, p, Table(cfg, p), Table(cfg, p).days, now)
  }

  /** What scheduleNotifications plans: the four phases in timeline order. */
  function PlanDrafts(plan: Plan, planId: nat, cfg: Config, now: int): seq<Draft> {
    PhaseDrafts(plan, planId, cfg, Preventive, now) + PhaseDrafts(plan, planId, cfg, EarlyDelay, now) +
    PhaseDrafts(plan, planId, cfg, MediumDelay, now) + PhaseDrafts(plan, planId, cfg, LateDelay, now)
  }

  /**
   * A draft the planner may produce: its day is a configured day of its
   * phase with a channel list holding its channel, its moment is dueDate +
   * day days and not in the past, and its message is the non-empty template
   * rendered with the phase's data.
   */
  predicate Planned(plan: Plan, planId: nat, cfg: Config, now: int, d: Draft) {
    var tbl := Table(cfg, d.stage);
    var t := TemplateFor(tbl.templates, d.day, d.channel);
    d.day in tbl.days && d.day in tbl.channels && d.channel in tbl.channels[d.day] &&
    d.scheduledFor == ScheduledFor(plan.dueDate, d.day) && d.scheduledFor >= now &&
    t.Some? && t.value != "" &&
    d == Draft(planId, plan.creditId, plan.borrowerId, d.stage, d.day, d.channel, TemplateKey(d.stage, d.day),
               Format(t.value, MessageData(plan, d.stage, d.day)), d.scheduledFor)
  }

  /** A triple the planner must cover: configured day and channel, a moment not in the past, a non-empty template. */
  predicate Eligible(plan: Plan, cfg: Config, now: int, p: Phase, day: int, channel: string) {
    var tbl := Table(cfg, p);
    var t := TemplateFor(tbl.templates, day, channel);
    day in tbl.days && day in tbl.channels && channel in tbl.channels[day] &&
    ScheduledFor(plan.dueDate, day) >= now && t.Some? && t.value != ""
  }

  /** The draft of one channel, when there is one, is of the phase, the day and the channel, and Planned. */
  lemma ChannelDraftSound(plan: Plan, planId: nat, cfg: Config, p: Phase, day: int, channel: string, now: int)
    requires day in Table(cfg, p).days && day in Table(cfg, p).channels && ScheduledFor(plan.dueDate, day) >= now
    requires channel in Table(cfg, p).channels[day]
    ensures forall d :: d in ChannelDraft(plan, planId, p, Table(cfg, p), day, channel) ==>
              d.stage == p && d.day == day && d.channel == channel && Planned(plan, planId, cfg, now, d)
    ensures Eligible(plan, cfg, now, p, day, channel) ==> |ChannelDraft(plan, planId, p, Table(cfg, p), day, channel)| == 1
  {
  }

  /** Every draft of the inner loop is of the phase, the day and one of the channels, and Planned. */
  lemma {:induction false} ChannelsDraftsSound(plan: Plan, planId: nat, cfg: Config, p: Phase, day: int, chans: seq<string>, now: int)
    requires day in Table(cfg, p).days && day in Table(cfg, p).channels && ScheduledFor(plan.dueDate, day) >= now
    requires forall c :: c in chans ==> c in Table(cfg, p).channels[day]
    ensures forall d :: d in ChannelsDrafts(plan, planId, p, Table(cfg, p), day, chans) ==>
              d.stage == p && d.day == day && d.channel in chans && Planned(plan, planId, cfg, now, d)
    decreases |chans|
  {
    if |chans| > 0 {
      var init := chans[..|chans| - 1];
      var last := chans[|chans| - 1];
      assert forall c :: c in init ==> c in chans;
      ChannelsDraftsSound(plan, planId, cfg, p, day, init, now);
      ChannelDraftSound(plan, planId, cfg, p, day, last, now);
    }
  }

  /** Some draft of ds is of phase p, day and channel c. */
  predicate Covers(ds: seq<Draft>, p: Phase, day: int, c: string) {
    exists d :: d in ds && d.stage == p && d.day == day && d.channel == c
  }

  /** Appending drafts keeps what was covered. */
  lemma CoversAppend(xs: seq<Draft>, ys: seq<Draft>, p: Phase, day: int, c: string)
    ensures Covers(xs, p, day, c) || Covers(ys, p, day, c) ==> Covers(xs + ys, p, day, c)
  {
    if Covers(xs, p, day, c) {
      var d :| d in xs && d.stage == p && d.day == day && d.channel == c;
      assert d in xs + ys;
    } else if Covers(ys, p, day, c) {
      var d :| d in ys && d.stage == p && d.day == day && d.channel == c;
      assert d in xs + ys;
    }
  }

  /** An eligible channel's own draft covers it. */
  lemma ChannelDraftCovers(plan: Plan, planId: nat, cfg: Config, p: Phase, day: int, channel: string, now: int)
    requires Eligible(plan, cfg, now, p, day, channel)
    ensures Covers(ChannelDraft(plan, planId, p, Table(cfg, p), day, channel), p, day, channel)
  {
    var here := ChannelDraft(plan, planId, p, Table(cfg, p), day, channel);
    assert here[0] in here;
  }

  /** Every eligible channel of the list gets a draft of the inner loop. */
  lemma {:induction false} ChannelsDraftsComplete(plan: Plan, planId: nat, cfg: Config, p: Phase, day: int, chans: seq<string>, now: int)
    requires day in Table(cfg, p).days && day in Table(cfg, p).channels && ScheduledFor(plan.dueDate, day) >= now
    requires forall c :: c in chans ==> c in Table(cfg, p).channels[day]
    ensures forall c :: c in chans && Eligible(plan, cfg, now, p, day, c) ==>
              Covers(ChannelsDrafts(plan, planId, p, Table(cfg, p), day, chans), p, day, c)
    decreases |chans|
  {
    if |chans| > 0 {
      var init := chans[..|chans| - 1];
      var last := chans[|chans| - 1];
      assert chans == init + [last];
      assert forall c :: c in init ==> c in chans;
      ChannelsDraftsComplete(plan, planId, cfg, p, day, init, now);
      var prev := ChannelsDrafts(plan, planId, p, Table(cfg, p), day, init);
      var here := ChannelDraft(plan, planId, p, Table(cfg, p), day, last);
      forall c | c in chans && Eligible(plan, cfg, now, p, day, c)
        ensures Covers(prev + here, p, day, c)
      {
        if c == last {
          ChannelDraftCovers(plan, planId, cfg, p, day, c, now);
        }
        CoversAppend(prev, here, p, day, c);
      }
    }
  }

  /** The inner loop yields drafts of its own channels only, Planned, and one for every eligible channel. */
  lemma ChannelsDraftsExact(plan: Plan, planId: nat, cfg: Config, p: Phase, day: int, chans: seq<string>, now: int)
    requires day in Table(cfg, p).days && day in Table(cfg, p).channels && ScheduledFor(plan.dueDate, day) >= now
    requires forall c :: c in chans ==> c in Table(cfg, p).channels[day]
    ensures forall d :: d in ChannelsDrafts(plan, planId, p, Table(cfg, p), day, chans) ==>
              d.stage == p && d.day == day && d.channel in chans && Planned(plan, planId, cfg, now, d)
    ensures forall c :: c in chans && Eligible(plan, cfg, now, p, day, c) ==>
              exists d :: d in ChannelsDrafts(plan, planId, p, Table(cfg, p), day, chans) &&
                          d.stage == p && d.day == day && d.channel == c
  {
    ChannelsDraftsSound(plan, planId, cfg, p, day, chans, now);
    ChannelsDraftsComplete(plan, planId, cfg, p, day, chans, now);
  }

  /** Every draft of the outer loop is of the phase, of one of the days, and Planned. */
  lemma {:induction false} DaysDraftsSound(plan: Plan, planId: nat, cfg: Config, p: Phase, days: seq<int>, now: int)
    requires forall x :: x in days ==> x in Table(cfg, p).days
    ensures forall d :: d in DaysDrafts(plan, planId, p, Table(cfg, p), days, now) ==>
              d.stage == p && d.day in days && Planned(plan, planId, cfg, now, d)
    decreases |days|
  {
    if |days| > 0 {
      var init := days[..|days| - 1];
      var last := days[|days| - 1];
      var tbl := Table(cfg, p);
      forall x | x in init
        ensures x in tbl.days
      {
        assert x in days;
      }
      DaysDraftsSound(plan, planId, cfg, p, init, now);
      if ScheduledFor(plan.dueDate, last) >= now && last in tbl.channels {
        ChannelsDraftsExact(plan, planId, cfg, p, last, tbl.channels[last], now);
      }
      assert DaysDrafts(plan, planId, p, tbl, days, now) ==
             DaysDrafts(plan, planId, p, tbl, init, now) + DayDrafts(plan, planId, p, tbl, last, now);
    }
  }

  /** Every eligible channel of one configured day gets a draft of that day. */
  lemma DayDraftsComplete(plan: Plan, planId: nat, cfg: Config, p: Phase, day: int, now: int)
    requires day in Table(cfg, p).days
    ensures forall c :: Eligible(plan, cfg, now, p, day, c) ==>
              exists d :: d in DayDrafts(plan, planId, p, Table(cfg, p), day, now) &&
                          d.stage == p && d.day == day && d.channel == c
  {
    var tbl := Table(cfg, p);
    if ScheduledFor(plan.dueDate, day) >= now && day in tbl.channels {
      ChannelsDraftsExact(plan, planId, cfg, p, day, tbl.channels[day], now);
    }
  }

  /** Coverage of the days before and of one more day is coverage of them all. */
  lemma CoverAppend(plan: Plan, cfg: Config, now: int, p: Phase, init: seq<int>, last: int, a: seq<Draft>, b: seq<Draft>)
    requires forall day, c :: day in init && Eligible(plan, cfg, now, p, day, c) ==>
               exists d :: d in a && d.stage == p && d.day == day && d.channel == c
    requires forall c :: Eligible(plan, cfg, now, p, last, c) ==>
               exists d :: d in b && d.stage == p && d.day == last && d.channel == c
    ensures forall day, c :: day in init + [last] && Eligible(plan, cfg, now, p, day, c) ==>
              exists d :: d in a + b && d.stage == p && d.day == day && d.channel == c
  {
    forall day, c | day in init + [last] && Eligible(plan, cfg, now, p, day, c)
      ensures exists d :: d in a + b && d.stage == p && d.day == day && d.channel == c
    {
      if day in init {
        var d :| d in a && d.stage == p && d.day == day && d.channel == c;
        assert d in a + b;
      } else {
        var d :| d in b && d.stage == p && d.day == last && d.channel == c;
        assert d in a + b;
      }
    }
  }

  /** Every eligible (day, channel) of the outer loop's days gets a draft. */
  lemma {:induction false} DaysDraftsComplete(plan: Plan, planId: nat, cfg: Config, p: Phase, days: seq<int>, now: int)
    requires forall x :: x in days ==> x in Table(cfg, p).days
    ensures forall day, c :: day in days && Eligible(plan, cfg, now, p, day, c) ==>
              exists d :: d in DaysDrafts(plan, planId, p, Table(cfg, p), days, now) &&
                          d.stage == p && d.day == day && d.channel == c
    decreases |days|
  {
    if |days| > 0 {
      var init := days[..|days| - 1];
      var last := days[|days| - 1];
      var tbl := Table(cfg, p);
      assert days == init + [last];
      DaysDraftsComplete(plan, planId, cfg, p, init, now);
      DayDraftsComplete(plan, planId, cfg, p, last, now);
      CoverAppend(plan, cfg, now, p, init, last, DaysDrafts(plan, planId, p, tbl, init, now), DayDrafts(plan, planId, p, tbl, last, now));
    }
  }

  lemma DaysDraftsExact(plan: Plan, planId: nat, cfg: Config, p: Phase, days: seq<int>, now: int)
    requires forall x :: x in days ==> x in Table(cfg, p).days
    ensures forall d :: d in DaysDrafts(plan, planId, p, Table(cfg, p), days, now) ==>
              d.stage == p && d.day in days && Planned(plan, planId, cfg, now, d)
    ensures forall day, c :: day in days && Eligible(plan, cfg, now, p, day, c) ==>
              exists d :: d in DaysDrafts(plan, planId, p, Table(cfg, p), days, now) &&
                          d.stage == p && d.day == day && d.channel == c
  {
    DaysDraftsSound(plan, planId, cfg, p, days, now);
    DaysDraftsComplete(plan, planId, cfg, p, days, now);
  }

  /** One phase function: only Planned drafts of its phase, and one for each of its eligible (day, channel) pairs. */
  lemma PhaseDraftsExact(plan: Plan, planId: nat, cfg: Config, p: Phase, now: int)
    ensures forall d :: d in PhaseDrafts(plan, planId, cfg, p, now) ==> d.stage == p && Planned(plan, planId, cfg, now, d)
    ensures forall day, c :: Eligible(plan, cfg, now, p, day, c) ==>
              exists d :: d in PhaseDrafts(plan, planId, cfg, p, now) && d.stage == p && d.day == day && d.channel == c
  {
    DaysDraftsExact(plan, planId, cfg, p, Table(cfg, p).days, now);
  }

  /** Every draft scheduleNotifications plans is Planned. */
  lemma PlanDraftsSound(plan: Plan, planId: nat, cfg: Config, now: int)
    ensures forall d :: d in PlanDrafts(plan, planId, cfg, now) ==> Planned(plan, planId, cfg, now, d)
  {
    PhaseDraftsExact(plan, planId, cfg, Preventive, now);
    PhaseDraftsExact(plan, planId, cfg, EarlyDelay, now);
    PhaseDraftsExact(plan, planId, cfg, MediumDelay, now);
    PhaseDraftsExact(plan, planId, cfg, LateDelay, now);
  }

  /** Every eligible (phase, day, channel) triple has a draft of scheduleNotifications. */
  lemma PlanDraftsComplete(plan: Plan, planId: nat, cfg: Config, now: int, p: Phase, day: int, ch: string)
    requires Eligible(plan, cfg, now, p, day, ch)
    ensures exists d :: d in PlanDrafts(plan, planId, cfg, now) && d.stage == p && d.day == day && d.channel == ch
  {
    PhaseDraftsExact(plan, planId, cfg, p, now);
    var d :| d in PhaseDrafts(plan, planId, cfg, p, now) && d.stage == p && d.day == day && d.channel == ch;
    assert d in PlanDrafts(plan, planId, cfg, now);
  }

  /**
   * All and only: every planned draft is Planned, and every eligible
   * (phase, day, channel) triple is planned.
   */
  lemma PlanDraftsExact(plan: Plan, planId: nat, cfg: Config, now: int)
    ensures forall d :: d in PlanDrafts(plan, planId, cfg, now) ==> Planned(plan, planId, cfg, now, d)
    ensures forall p, day, c :: Eligible(plan, cfg, now, p, day, c) ==>
              exists d :: d in PlanDrafts(plan, planId, cfg, now) && d.stage == p && d.day == day && d.channel == c
  {
    PlanDraftsSound(plan, planId, cfg, now);
    forall p, day, ch | Eligible(plan, cfg, now, p, day, ch)
      ensures exists d :: d in PlanDrafts(plan, planId, cfg, now) && d.stage == p && d.day == day && d.channel == ch
    {
      PlanDraftsComplete(plan, planId, cfg, now, p, day, ch);
    }
  }

  /** How many drafts of ds are of phase p, the day and channel c. */
  function TripleCount(ds: seq<Draft>, p: Phase, day: int, c: string): nat
    decreases |ds|
  {
    if |ds| == 0 then 0
    else TripleCount(ds[..|ds| - 1], p, day, c) +
         (if ds[|ds| - 1].stage == p && ds[|ds| - 1].day == day && ds[|ds| - 1].channel == c then 1 else 0)
  }

  /** No element of s appears twice. */
  predicate Distinct<T(==)>(s: seq<T>) {
    forall i, j :: 0 <= i < j < |s| ==> s[i] != s[j]
  }

  /** Every channel list of the table names each channel once. */
  predicate ChannelListsDistinct(tbl: PhaseTable) {
    forall day :: day in tbl.channels ==> Distinct(tbl.channels[day])
  }

  /** Each phase table names each day once and, per day, each channel once. */
  predicate ConfigDistinct(cfg: Config) {
    forall p: Phase :: Distinct(Table(cfg, p).days) && ChannelListsDistinct(Table(cfg, p))
  }

  /** The channel has a non-empty template on the day. */
  predicate HasTemplate(tbl: PhaseTable, day: int, c: string) {
    TemplateFor(tbl.templates, day, c).Some? && TemplateFor(tbl.templates, day, c).value != ""
  }

  /** Counting splits over concatenation. */
  lemma {:induction false} TripleCountAppend(xs: seq<Draft>, ys: seq<Draft>, p: Phase, day: int, c: string)
    ensures TripleCount(xs + ys, p, day, c) == TripleCount(xs, p, day, c) + TripleCount(ys, p, day, c)
    decreases |ys|
  {
    if |ys| == 0 {
      assert xs + ys == xs;
    } else {
      assert (xs + ys)[..|xs + ys| - 1] == xs + ys[..|ys| - 1];
      TripleCountAppend(xs, ys[..|ys| - 1], p, day, c);
    }
  }

  /** The last element of a sequence without repeats is not among the others, which have none either. */
  lemma DistinctInit<T>(s: seq<T>)
    requires |s| > 0 && Distinct(s)
    ensures Distinct(s[..|s| - 1]) && s[|s| - 1] !in s[..|s| - 1]
  {
  }

  /** One channel yields one draft of its own triple when it has a template, and nothing else. */
  lemma ChannelDraftCount(plan: Plan, planId: nat, p: Phase, tbl: PhaseTable, day: int, ch: string,
                          q: Phase, e: int, c: string)
    ensures TripleCount(ChannelDraft(plan, planId, p, tbl, day, ch), q, e, c) ==
            if q == p && e == day && c == ch && HasTemplate(tbl, day, ch) then 1 else 0
  {
    var ds := ChannelDraft(plan, planId, p, tbl, day, ch);
    if HasTemplate(tbl, day, ch) {
      assert |ds| == 1 && ds[0].stage == p && ds[0].day == day && ds[0].channel == ch;
      assert ds[..0] == [];
    } else {
      assert ds == [];
    }
  }

  /** A channel list without repeats yields at most one draft per triple: one for a listed channel with a template. */
  lemma {:induction false} ChannelsDraftsCount(plan: Plan, planId: nat, p: Phase, tbl: PhaseTable, day: int,
                                               chans: seq<string>, q: Phase, e: int, c: string)
    requires Distinct(chans)
    ensures TripleCount(ChannelsDrafts(plan, planId, p, tbl, day, chans), q, e, c) ==
            if q == p && e == day && c in chans && HasTemplate(tbl, day, c) then 1 else 0
    decreases |chans|
  {
    if |chans| > 0 {
      var init, last := chans[..|chans| - 1], chans[|chans| - 1];
      assert chans == init + [last];
      DistinctInit(chans);
      ChannelsDraftsCount(plan, planId, p, tbl, day, init, q, e, c);
      ChannelDraftCount(plan, planId, p, tbl, day, last, q, e, c);
      TripleCountAppend(ChannelsDrafts(plan, planId, p, tbl, day, init), ChannelDraft(plan, planId, p, tbl, day, last),
                        q, e, c);
    }
  }

  /** One day's count: one per listed channel with a template, when the moment is not past. */
  lemma DayDraftsCount(plan: Plan, planId: nat, p: Phase, tbl: PhaseTable, day: int, now: int,
                       q: Phase, e: int, c: string)
    requires ChannelListsDistinct(tbl)
    ensures TripleCount(DayDrafts(plan, planId, p, tbl, day, now), q, e, c) ==
            if q == p && e == day && ScheduledFor(plan.dueDate, day) >= now && day in tbl.channels &&
               c in tbl.channels[day] && HasTemplate(tbl, day, c) then 1 else 0
  {
    if ScheduledFor(plan.dueDate, day) >= now && day in tbl.channels {
      ChannelsDraftsCount(plan, planId, p, tbl, day, tbl.channels[day], q, e, c);
    }
  }

  /** A day list without repeats yields exactly one draft per covered triple and none for any other. */
  lemma {:induction false} DaysDraftsCount(plan: Plan, planId: nat, p: Phase, tbl: PhaseTable, days: seq<int>,
                                           now: int, q: Phase, e: int, c: string)
    requires Distinct(days) && ChannelListsDistinct(tbl)
    ensures TripleCount(DaysDrafts(plan, planId, p, tbl, days, now), q, e, c) ==
            if q == p && e in days && ScheduledFor(plan.dueDate, e) >= now && e in tbl.channels &&
               c in tbl.channels[e] && HasTemplate(tbl, e, c) then 1 else 0
    decreases |days|
  {
    if |days| > 0 {
      var init, last := days[..|days| - 1], days[|days| - 1];
      assert days == init + [last];
      DistinctInit(days);
      DaysDraftsCount(plan, planId, p, tbl, init, now, q, e, c);
      DayDraftsCount(plan, planId, p, tbl, last, now, q, e, c);
      TripleCountAppend(DaysDrafts(plan, planId, p, tbl, init, now), DayDrafts(plan, planId, p, tbl, last, now),
                        q, e, c);
    }
  }

  /** One phase function plans each of its eligible triples exactly once. */
  lemma PhaseDraftsCount(plan: Plan, planId: nat, cfg: Config, p: Phase, now: int, q: Phase, e: int, c: string)
    requires Distinct(Table(cfg, p).days) && ChannelListsDistinct(Table(cfg, p))
    ensures TripleCount(PhaseDrafts(plan, planId, cfg, p, now), q, e, c) ==
            if q == p && Eligible(plan, cfg, now, p, e, c) then 1 else 0
  {
    DaysDraftsCount(plan, planId, p, Table(cfg, p), Table(cfg, p).days, now, q, e, c);
  }

  /**
   * With no day listed twice in a phase and no channel listed twice in a
   * day, the plan holds exactly one draft for every eligible (phase, day,
   * channel) triple and none for any other.
   */
  lemma PlanDraftsCount(plan: Plan, planId: nat, cfg: Config, now: int, q: Phase, e: int, c: string)
    requires ConfigDistinct(cfg)
    ensures TripleCount(PlanDrafts(plan, planId, cfg, now), q, e, c) == if Eligible(plan, cfg, now, q, e, c) then 1 else 0
  {
    var a, b := PhaseDrafts(plan, planId, cfg, Preventive, now), PhaseDrafts(plan, planId, cfg, EarlyDelay, now);
    var m, l := PhaseDrafts(plan, planId, cfg, MediumDelay, now), PhaseDrafts(plan, planId, cfg, LateDelay, now);
    assert Distinct(Table(cfg, Preventive).days) && ChannelListsDistinct(Table(cfg, Preventive));
    assert Distinct(Table(cfg, EarlyDelay).days) && ChannelListsDistinct(Table(cfg, EarlyDelay));
    assert Distinct(Table(cfg, MediumDelay).days) && ChannelListsDistinct(Table(cfg, MediumDelay));
    assert Distinct(Table(cfg, LateDelay).days) && ChannelListsDistinct(Table(cfg, LateDelay));
    PhaseDraftsCount(plan, planId, cfg, Preventive, now, q, e, c);
    PhaseDraftsCount(plan, planId, cfg, EarlyDelay, now, q, e, c);
    PhaseDraftsCount(plan, planId, cfg, MediumDelay, now, q, e, c);
    PhaseDraftsCount(plan, planId, cfg, LateDelay, now, q, e, c);
    TripleCountAppend(a, b, q, e, c);
    TripleCountAppend(a + b, m, q, e, c);
    TripleCountAppend(a + b + m, l, q, e, c);
  }

  /** The plan's drafts come phase by phase, preventive first, late delay last. */
  lemma PlanDraftsPhaseOrder(plan: Plan, planId: nat, cfg: Config, now: int)
    ensures var ds := PlanDrafts(plan, planId, cfg, now);
            forall i, j :: 0 <= i < j < |ds| ==> PhaseRank(ds[i].stage) <= PhaseRank(ds[j].stage)
  {
    PhaseDraftsStage(plan, planId, cfg, Preventive, now);
    PhaseDraftsStage(plan, planId, cfg, EarlyDelay, now);
    PhaseDraftsStage(plan, planId, cfg, MediumDelay, now);
    PhaseDraftsStage(plan, planId, cfg, LateDelay, now);
    ConcatPhaseOrder(PhaseDrafts(plan, planId, cfg, Preventive, now), PhaseDrafts(plan, planId, cfg, EarlyDelay, now),
                     PhaseDrafts(plan, planId, cfg, MediumDelay, now), PhaseDrafts(plan, planId, cfg, LateDelay, now));
  }

  /** Every draft of a phase function is of that phase. */
  lemma PhaseDraftsStage(plan: Plan, planId: nat, cfg: Config, p: Phase, now: int)
    ensures forall d :: d in PhaseDrafts(plan, planId, cfg, p, now) ==> d.stage == p
  {
    DaysDraftsSound(plan, planId, cfg, p, Table(cfg, p).days, now);
  }

  /** Four runs of drafts, one per phase in timeline order, concatenate into phase order. */
  lemma ConcatPhaseOrder(a: seq<Draft>, b: seq<Draft>, c: seq<Draft>, d: seq<Draft>)
    requires forall x :: x in a ==> x.stage == Preventive
    requires forall x :: x in b ==> x.stage == EarlyDelay
    requires forall x :: x in c ==> x.stage == MediumDelay
    requires forall x :: x in d ==> x.stage == LateDelay
    ensures forall i, j :: 0 <= i < j < |a + b + c + d| ==>
              PhaseRank((a + b + c + d)[i].stage) <= PhaseRank((a + b + c + d)[j].stage)
  {
    var ds := a + b + c + d;
    forall i | 0 <= i < |ds|
      ensures PhaseRank(ds[i].stage) == if i < |a| then 0 else if i < |a| + |b| then 1 else if i < |a| + |b| + |c| then 2 else 3
    {
      if i < |a| {
        assert ds[i] in a;
      } else if i < |a| + |b| {
        assert ds[i] == b[i - |a|];
      } else if i < |a| + |b| + |c| {
        assert ds[i] == c[i - |a| - |b|];
      } else {
        assert ds[i] == d[i - |a| - |b| - |c|];
      }
    }
  }

  /** The records an outcome lists are stored and in phase order. */
  predicate PhaseOrdered(out: Outcome) {
    (forall i :: 0 <= i < |out.created| ==> out.created[i] in out.db.records) &&
    forall i, j :: 0 <= i < j < |out.created| ==>
      PhaseRank(out.db.records[out.created[i]].stage) <= PhaseRank(out.db.records[out.created[j]].stage)
  }

  /** Every record an outcome lists is stored and of no later phase than a bound. */
  predicate AllNoLater(out: Outcome, bound: int) {
    forall i :: 0 <= i < |out.created| ==>
      out.created[i] in out.db.records && PhaseRank(out.db.records[out.created[i]].stage) <= bound
  }

  /** One attempt after another: the records kept, and at most one more id listed, of a record of the given rank. */
  predicate OneMoreOfRank(prev: Outcome, out: Outcome, rank: int) {
    (forall id :: id in prev.db.records ==> id in out.db.records && out.db.records[id] == prev.db.records[id]) &&
    (out.created == prev.created ||
     (|out.created| == |prev.created| + 1 && out.created[..|prev.created|] == prev.created &&
      out.created[|prev.created|] in out.db.records &&
      PhaseRank(out.db.records[out.created[|prev.created|]].stage) == rank))
  }

  /** One more attempt keeps the created records in phase order when none created before is of a later phase. */
  lemma PhaseOrderSnoc(prev: Outcome, out: Outcome, lastRank: int)
    requires AllNoLater(prev, lastRank) && PhaseOrdered(prev) && OneMoreOfRank(prev, out, lastRank)
    ensures PhaseOrdered(out)
  {
    if out.created != prev.created {
      forall i | 0 <= i < |prev.created|
        ensures out.created[i] == prev.created[i]
      {
        assert out.created[..|prev.created|][i] == out.created[i];
      }
    }
  }

  /** Records made from drafts of no later phase than a bound are of no later phase either. */
  lemma CreatedPhaseBound(prev: Outcome, init: seq<Draft>, bound: int, kind: Kind)
    requires forall k :: 0 <= k < |init| ==> PhaseRank(init[k].stage) <= bound
    requires CreatedFrom(prev, init, kind)
    ensures AllNoLater(prev, bound)
  {
    forall i | 0 <= i < |prev.created|
      ensures PhaseRank(prev.db.records[prev.created[i]].stage) <= bound
    {
      var k :| 0 <= k < |init| && FromDraft(prev.db.records[prev.created[i]], init[k], prev.created[i], kind);
    }
  }

  /** One attempt keeps every stored record and lists at most the one it creates, which has the draft's phase. */
  lemma SnocOneMoreOfRank(prev: Outcome, last: Draft, faults: Draft -> Fault, now: int, kind: Kind)
    requires WellFormed(prev.db)
    ensures OneMoreOfRank(prev, Snoc(prev, last, faults, now, kind), PhaseRank(last.stage))
  {
    AttemptShape(prev.db, last, faults(last), now, kind);
    var out := Snoc(prev, last, faults, now, kind);
    var step := Attempt(prev.db, last, faults(last), now, kind);
    if step.1.Some? {
      assert out.created[..|prev.created|] == prev.created;
    }
  }

  /** The records a run creates keep the order of their drafts' phases. */
  lemma {:induction false} AttemptsKeepPhaseOrder(db: Db, drafts: seq<Draft>, faults: Draft -> Fault, now: int, kind: Kind)
    requires WellFormed(db)
    requires forall i, j :: 0 <= i < j < |drafts| ==> PhaseRank(drafts[i].stage) <= PhaseRank(drafts[j].stage)
    ensures PhaseOrdered(Attempts(db, drafts, faults, now, kind))
    decreases |drafts|
  {
    if |drafts| > 0 {
      var init := drafts[..|drafts| - 1];
      var last := drafts[|drafts| - 1];
      assert drafts == init + [last];
      assert forall i :: 0 <= i < |init| ==> init[i] == drafts[i];
      AttemptsKeepPhaseOrder(db, init, faults, now, kind);
      AttemptsCreatedFrom(db, init, faults, now, kind);
      AttemptsFrame(db, init, faults, now, kind);
      AttemptsSnoc(db, init, last, faults, now, kind);
      CreatedPhaseBound(Attempts(db, init, faults, now, kind), init, PhaseRank(last.stage), kind);
      SnocOneMoreOfRank(Attempts(db, init, faults, now, kind), last, faults, now, kind);
      PhaseOrderSnoc(Attempts(db, init, faults, now, kind), Snoc(Attempts(db, init, faults, now, kind), last, faults, now, kind),
                     PhaseRank(last.stage));
    }
  }

  /**
   * What scheduleNotifications leaves behind: every record created is a
   * Planned draft, scheduled, carrying the id of its queued job; the
   * records come in phase order; and with no store failure and valid
   * channel names every eligible triple gets its record.
   */
  /**
   * A run from db0 that created only planned records: the store stays well
   * formed and extended, and each created record is stored, scheduled, of
   * the plan, at its day's moment (not in the past), queued under the id
   * derived from it, and made from a Planned draft.
   */
  predicate PlannedRecords(db0: Db, out: Outcome, plan: Plan, planId: nat, cfg: Config, now: int) {
    WellFormed(out.db) && Extends(db0, out.db) &&
    forall i :: 0 <= i < |out.created| ==>
      out.created[i] in out.db.records &&
      var r := out.db.records[out.created[i]];
      r.status == Scheduled && r.planId == planId && r.scheduledFor == ScheduledFor(plan.dueDate, r.day) &&
      r.scheduledFor >= now && r.jobId == Some(JobIdFor(out.created[i], r.scheduledFor)) &&
      JobIdFor(out.created[i], r.scheduledFor) in out.db.queues.Get(r.channel) &&
      exists d :: d in PlanDrafts(plan, planId, cfg, now) && Planned(plan, planId, cfg, now, d) &&
                  FromDraft(r, d, out.created[i], Regular)
  }

  /** The records scheduleNotifications creates: stored, scheduled, queued, and each made from a Planned draft. */
  lemma ScheduleNotificationsRecords(db: Db, plan: Plan, planId: nat, cfg: Config, now: int, faults: Draft -> Fault)
    requires WellFormed(db)
    ensures PlannedRecords(db, Attempts(db, PlanDrafts(plan, planId, cfg, now), faults, now, Regular), plan, planId, cfg, now)
  {
    var ds := PlanDrafts(plan, planId, cfg, now);
    PlanDraftsExact(plan, planId, cfg, now);
    AttemptsShape(db, ds, faults, now, Regular);
    var out := Attempts(db, ds, faults, now, Regular);
    forall i | 0 <= i < |out.created|
      ensures out.created[i] in out.db.records &&
              var r := out.db.records[out.created[i]];
              r.status == Scheduled && r.planId == planId && r.scheduledFor == ScheduledFor(plan.dueDate, r.day) &&
              r.scheduledFor >= now && r.jobId == Some(JobIdFor(out.created[i], r.scheduledFor)) &&
              JobIdFor(out.created[i], r.scheduledFor) in out.db.queues.Get(r.channel) &&
              exists d :: d in ds && Planned(plan, planId, cfg, now, d) && FromDraft(r, d, out.created[i], Regular)
    {
      var r := out.db.records[out.created[i]];
      var k :| 0 <= k < |ds| && FromDraft(r, ds[k], out.created[i], Regular);
      assert ds[k] in ds;
      assert Planned(plan, planId, cfg, now, ds[k]);
    }
  }

  /** The records scheduleNotifications creates come phase by phase, in timeline order. */
  lemma ScheduleNotificationsOrder(db: Db, plan: Plan, planId: nat, cfg: Config, now: int, faults: Draft -> Fault)
    requires WellFormed(db)
    ensures var out := Attempts(db, PlanDrafts(plan, planId, cfg, now), faults, now, Regular);
            (forall i :: 0 <= i < |out.created| ==> out.created[i] in out.db.records) &&
            forall i, j :: 0 <= i < j < |out.created| ==>
              PhaseRank(out.db.records[out.created[i]].stage) <= PhaseRank(out.db.records[out.created[j]].stage)
  {
    AttemptsCreatedFrom(db, PlanDrafts(plan, planId, cfg, now), faults, now, Regular);
    PlanDraftsPhaseOrder(plan, planId, cfg, now);
    AttemptsKeepPhaseOrder(db, PlanDrafts(plan, planId, cfg, now), faults, now, Regular);
  }

  /** With valid drafts and no failing step, scheduleNotifications creates one record per draft. */
  lemma ScheduleNotificationsComplete(db: Db, plan: Plan, planId: nat, cfg: Config, now: int, faults: Draft -> Fault)
    requires WellFormed(db)
    ensures var ds := PlanDrafts(plan, planId, cfg, now);
            var out := Attempts(db, ds, faults, now, Regular);
            (forall k :: 0 <= k < |ds| ==> Materialize(ds[k]).Some? && faults(ds[k]) == NoFault) ==>
              |out.created| == |ds|
  {
    var ds := PlanDrafts(plan, planId, cfg, now);
    if forall k :: 0 <= k < |ds| ==> Materialize(ds[k]).Some? && faults(ds[k]) == NoFault {
      AttemptsAllSucceed(db, ds, faults, now, Regular);
    }
  }

  lemma ScheduleNotificationsSpec(db: Db, plan: Plan, planId: nat, cfg: Config, now: int, faults: Draft -> Fault)
    requires WellFormed(db)
    ensures PlannedRecords(db, Attempts(db, PlanDrafts(plan, planId, cfg, now), faults, now, Regular), plan, planId, cfg, now)
    ensures var out := Attempts(db, PlanDrafts(plan, planId, cfg, now), faults, now, Regular);
            forall i, j :: 0 <= i < j < |out.created| ==>
              PhaseRank(out.db.records[out.created[i]].stage) <= PhaseRank(out.db.records[out.created[j]].stage)
    ensures var ds := PlanDrafts(plan, planId, cfg, now);
            var out := Attempts(db, ds, faults, now, Regular);
            (forall k :: 0 <= k < |ds| ==> Materialize(ds[k]).Some? && faults(ds[k]) == NoFault) ==>
              |out.created| == |ds|
  {
    ScheduleNotificationsRecords(db, plan, planId, cfg, now, faults);
    ScheduleNotificationsOrder(db, plan, planId, cfg, now, faults);
    ScheduleNotificationsComplete(db, plan, planId, cfg, now, faults);
  }

  /** One channel of one day: with a non-empty template, its record is saved and dispatched. */
  method ScheduleChannel(st: Store, plan: Plan, planId: nat, p: Phase, tbl: PhaseTable, day: int, channel: string,
                         now: int, faults: Draft -> Fault)
    returns (created: seq<nat>)
    modifies st
    ensures Outcome(st.Snap(), created) == Attempts(old(st.Snap()), ChannelDraft(plan, planId, p, tbl, day, channel), faults, now, Regular)
  {
    ghost var db0 := st.Snap();
    var template := TemplateFor(tbl.templates, day, channel);
    if template.Some? && template.value != "" {
      var content := FormatMessage(template.value, MessageData(plan, p, day));
      var d := Draft(planId, plan.creditId, plan.borrowerId, p, day, channel, TemplateKey(p, day),
                     content, ScheduledFor(plan.dueDate, day));
      assert ChannelDraft(plan, planId, p, tbl, day, channel) == [d];
      AttemptsSingle(db0, d, faults, now, Regular);
      var r := PersistAndDispatch(st, d, faults(d), now, Regular);
      created := if r.Some? then [r.value] else [];
    } else {
      assert ChannelDraft(plan, planId, p, tbl, day, channel) == [];
      created := [];
    }
  }

  /** One more channel of the inner loop appends its attempt to those of the channels before it. */
  lemma DayStep(db0: Db, plan: Plan, planId: nat, p: Phase, tbl: PhaseTable, day: int, chans: seq<string>, j: nat,
                faults: Draft -> Fault, now: int, mid: Outcome, after: Outcome)
    requires j < |chans|
    requires mid == Attempts(db0, ChannelsDrafts(plan, planId, p, tbl, day, chans[..j]), faults, now, Regular)
    requires after == Attempts(mid.db, ChannelDraft(plan, planId, p, tbl, day, chans[j]), faults, now, Regular)
    ensures Outcome(after.db, mid.created + after.created) ==
            Attempts(db0, ChannelsDrafts(plan, planId, p, tbl, day, chans[..j + 1]), faults, now, Regular)
  {
    assert chans[..j + 1][..j] == chans[..j];
    AttemptsAppend(db0, ChannelsDrafts(plan, planId, p, tbl, day, chans[..j]), ChannelDraft(plan, planId, p, tbl, day, chans[j]), faults, now, Regular);
  }

  /** The inner loop of a phase function: the channels of one day, each with a non-empty template saved and dispatched. */
  method ScheduleDay(st: Store, plan: Plan, planId: nat, p: Phase, tbl: PhaseTable, day: int, chans: seq<string>,
                     now: int, faults: Draft -> Fault)
    returns (created: seq<nat>)
    modifies st
    ensures Outcome(st.Snap(), created) == Attempts(old(st.Snap()), ChannelsDrafts(plan, planId, p, tbl, day, chans), faults, now, Regular)
  {
    ghost var db0 := st.Snap();
    created := [];
    var j := 0;
    while j < |chans|
      invariant 0 <= j <= |chans|
      invariant Outcome(st.Snap(), created) == Attempts(db0, ChannelsDrafts(plan, planId, p, tbl, day, chans[..j]), faults, now, Regular)
    {
      ghost var mid := Outcome(st.Snap(), created);
      var more := ScheduleChannel(st, plan, planId, p, tbl, day, chans[j], now, faults);
      DayStep(db0, plan, planId, p, tbl, day, chans, j, faults, now, mid, Outcome(st.Snap(), more));
      created := created + more;
      j := j + 1;
    }
    assert chans[..|chans|] == chans;
  }

  /** One more day of the outer loop appends its attempts to those of the days before it. */
  lemma PhaseStep(db0: Db, plan: Plan, planId: nat, p: Phase, tbl: PhaseTable, days: seq<int>, i: nat,
                  faults: Draft -> Fault, now: int, mid: Outcome, after: Outcome)
    requires i < |days|
    requires mid == Attempts(db0, DaysDrafts(plan, planId, p, tbl, days[..i], now), faults, now, Regular)
    requires after == Attempts(mid.db, DayDrafts(plan, planId, p, tbl, days[i], now), faults, now, Regular)
    ensures Outcome(after.db, mid.created + after.created) ==
            Attempts(db0, DaysDrafts(plan, planId, p, tbl, days[..i + 1], now), faults, now, Regular)
  {
    assert days[..i + 1][..i] == days[..i];
    AttemptsAppend(db0, DaysDrafts(plan, planId, p, tbl, days[..i], now), DayDrafts(plan, planId, p, tbl, days[i], now), faults, now, Regular);
  }

  /** One phase function: the loop over the phase's days; a past moment or a day without channels is skipped. */
  method SchedulePhase(st: Store, plan: Plan, planId: nat, cfg: Config, p: Phase, now: int, faults: Draft -> Fault)
    returns (created: seq<nat>)
    modifies st
    ensures Outcome(st.Snap(), created) == Attempts(old(st.Snap()), PhaseDrafts(plan, planId, cfg, p, now), faults, now, Regular)
  {
    ghost var db0 := st.Snap();
    var tbl := Table(cfg, p);
    var days := tbl.days;
    created := [];
    var i := 0;
    while i < |days|
      invariant 0 <= i <= |days|
      invariant Outcome(st.Snap(), created) == Attempts(db0, DaysDrafts(plan, planId, p, tbl, days[..i], now), faults, now, Regular)
    {
      var day := days[i];
      ghost var mid := Outcome(st.Snap(), created);
      if ScheduledFor(plan.dueDate, day) >= now && day in tbl.channels {
        var more := ScheduleDay(st, plan, planId, p, tbl, day, tbl.channels[day], now, faults);
        PhaseStep(db0, plan, planId, p, tbl, days, i, faults, now, mid, Outcome(st.Snap(), more));
        created := created + more;
      } else {
        PhaseStep(db0, plan, planId, p, tbl, days, i, faults, now, mid, Outcome(mid.db, []));
        assert created + [] == created;
      }
      i := i + 1;
    }
    assert days[..|days|] == days;
  }

  /** scheduleNotifications: the four phases one after the other, collecting what each creates. */
  method ScheduleNotifications(st: Store, plan: Plan, planId: nat, cfg: Config, now: int, faults: Draft -> Fault)
    returns (created: seq<nat>)
    modifies st
    ensures Outcome(st.Snap(), created) == Attempts(old(st.Snap()), PlanDrafts(plan, planId, cfg, now), faults, now, Regular)
  {
    ghost var db0 := st.Snap();
    var a := SchedulePhase(st, plan, planId, cfg, Preventive, now, faults);
    ghost var db1 := st.Snap();
    var b := SchedulePhase(st, plan, planId, cfg, EarlyDelay, now, faults);
    ghost var db2 := st.Snap();
    var c := SchedulePhase(st, plan, planId, cfg, MediumDelay, now, faults);
    ghost var db3 := st.Snap();
    var d := SchedulePhase(st, plan, planId, cfg, LateDelay, now, faults);
    ghost var pa := PhaseDrafts(plan, planId, cfg, Preventive, now);
    ghost var pb := PhaseDrafts(plan, planId, cfg, EarlyDelay, now);
    ghost var pc := PhaseDrafts(plan, planId, cfg, MediumDelay, now);
    ghost var pd := PhaseDrafts(plan, planId, cfg, LateDelay, now);
    AttemptsAppend(db0, pa, pb, faults, now, Regular);
    AttemptsAppend(db0, pa + pb, pc, faults, now, Regular);
    AttemptsAppend(db0, pa + pb + pc, pd, faults, now, Regular);
    created := a + b + c + d;
  }
}
