/**
 * The configuration tables the engine reads (NOTIFICATION_STRATEGY,
 * MESSAGE_TEMPLATES and CREDIT_STATUS_CHECK). Their contents are not part of
 * this model: every operation takes them as a parameter.
 */
module Strategy {
  import opened Wrappers
  import opened Models

  /** MESSAGE_TEMPLATES.<PHASE>[day]: channel name -> template text, in key order. */
  datatype DayTemplates = DayTemplates(day: int, byChannel: seq<(string, string)>)

  /**
   * The tables for one phase: DAYS.<PHASE> (offsets from the due date, in
   * order), <PHASE>_PHASE_CHANNELS (day -> channel names) and the phase's
   * message templates, in the order their keys are enumerated.
   */
  datatype PhaseTable = PhaseTable(days: seq<int>, channels: map<int, seq<string>>, templates: seq<DayTemplates>)

  /** TIME_CONSTRAINTS: the allowed hour range [startHour, endHour) and day switches. */
  datatype TimeConstraints = TimeConstraints(startHour: int, endHour: int, weekendEnabled: bool, holidaysEnabled: bool)

  /** A sensible hour range: starts at or after midnight, ends by midnight, not empty. */
  predicate WellFormedHours(tc: TimeConstraints) {
    0 <= tc.startHour < tc.endHour <= 24
  }

  /** CREDIT_STATUS_CHECK: CHECK_INTERVAL in milliseconds and BATCH_SIZE. */
  datatype StatusCheckConfig = StatusCheckConfig(checkInterval: int, batchSize: nat)

  datatype Config = Config(
    preventive: PhaseTable,
    earlyDelay: PhaseTable,
    mediumDelay: PhaseTable,
    lateDelay: PhaseTable,
    time: TimeConstraints,
    statusCheck: StatusCheckConfig)

  function Table(cfg: Config, p: Phase): PhaseTable {
    match p
    case Preventive => cfg.preventive
    case EarlyDelay => cfg.earlyDelay
    case MediumDelay => cfg.mediumDelay
    case LateDelay => cfg.lateDelay
  }

  /** The value under the first occurrence of key in an ordered list of entries. */
  function Lookup(entries: seq<(string, string)>, key: string): (r: Option<string>)
    ensures r.Some? ==> exists j :: 0 <= j < |entries| && entries[j] == (key, r.value) &&
                          forall k :: 0 <= k < j ==> entries[k].0 != key
    ensures r.None? ==> forall j :: 0 <= j < |entries| ==> entries[j].0 != key
  {
    if entries == [] then None
    else if entries[0].0 == key then Some(entries[0].1)
    else Lookup(entries[1..], key)
  }

  /** MESSAGE_TEMPLATES.<PHASE>[day]?.[channel]: the template, if the table has one. */
  function TemplateFor(templates: seq<DayTemplates>, day: int, channel: string): (r: Option<string>)
    ensures r.Some? ==> exists i :: 0 <= i < |templates| && templates[i].day == day &&
                          (channel, r.value) in templates[i].byChannel
    ensures (forall i :: 0 <= i < |templates| ==> templates[i].day != day) ==> r.None?
    ensures forall i :: 0 <= i < |templates| && templates[i].day == day &&
                        (forall k :: 0 <= k < i ==> templates[k].day != day) ==>
                        r == Lookup(templates[i].byChannel, channel)
  {
    if templates == [] then None
    else if templates[0].day == day then
      var r := Lookup(templates[0].byChannel, channel);
      r
    else TemplateFor(templates[1..], day, channel)
  }
}
