/**
 * The two persisted entities: a notification plan (one per credit) and a
 * notification record (one per planned phase/day/channel instance), with the
 * enumerations and defaults their schemas declare.
 */
module Models {
  import opened Wrappers

  /** NOTIFICATION_STRATEGY.CHANNELS */
  datatype Channel = Sms | Email | Push | AiCall

  function ChannelName(c: Channel): string {
    match c
    case Sms => "sms"
    case Email => "email"
    case Push => "push"
    case AiCall => "ai_call"
  }

  /** The schema's enum check on a channel string: only the four channel names pass. */
  function ParseChannel(s: string): (r: Option<Channel>)
    ensures r.Some? ==> ChannelName(r.value) == s
    ensures r.None? ==> forall c: Channel :: ChannelName(c) != s
  {
    if s == "sms" then Some(Sms)
    else if s == "email" then Some(Email)
    else if s == "push" then Some(Push)
    else if s == "ai_call" then Some(AiCall)
    else None
  }

  lemma ParseChannelName(c: Channel)
    ensures ParseChannel(ChannelName(c)) == Some(c)
  {
  }

  /** NOTIFICATION_STRATEGY.PHASES, in timeline order. */
  datatype Phase = Preventive | EarlyDelay | MediumDelay | LateDelay

  function PhaseRank(p: Phase): nat {
    match p
    case Preventive => 0
    case EarlyDelay => 1
    case MediumDelay => 2
    case LateDelay => 3
  }

  /** The stored value of a phase ("preventive", "early_delay", ...). */
  function PhaseName(p: Phase): string {
    match p
    case Preventive => "preventive"
    case EarlyDelay => "early_delay"
    case MediumDelay => "medium_delay"
    case LateDelay => "late_delay"
  }

  /** The upper-case prefix of a message-template key ("EARLY_DELAY" in "EARLY_DELAY_3"). */
  function PhaseKey(p: Phase): string {
    match p
    case Preventive => "PREVENTIVE"
    case EarlyDelay => "EARLY_DELAY"
    case MediumDelay => "MEDIUM_DELAY"
    case LateDelay => "LATE_DELAY"
  }

  /**
   * Where the code as written does something its authors evidently did not
   * intend, the model has both readings: AsWritten and Corrected.
   */
  datatype Variant = AsWritten | Corrected

  /** NOTIFICATION_STATUSES */
  datatype RecordStatus = Scheduled | Sent | Failed | Cancelled

  datatype PlanStatus = Active | Completed | PlanCancelled

  /**
   * CREDIT_STATUSES. The four names the engine tests for are constructors; any
   * other value the credit service reports is kept as it came.
   */
  datatype CreditStatus = CreditActive | Closed | CreditCancelled | Restructured | OtherStatus(name: string)

  /** Values stored in a record's free-form metadata object. */
  datatype MetaValue =
    | Text(text: string)
    | Number(number: int)
    | Time(ms: int)
    | ProviderResponse(provider: string, messageId: string)

  /**
   * A notification record. Times are milliseconds since the epoch. planId
   * refers to the owning plan; creditId is indexed but not unique.
   */
  datatype Record = Record(
    planId: nat,
    creditId: string,
    borrowerId: string,
    stage: Phase,
    day: int,
    channel: Channel,
    messageTemplate: string,
    messageContent: string,
    scheduledFor: int,
    sentAt: Option<int>,
    status: RecordStatus,
    failReason: Option<string>,
    retryCount: int,
    metadata: map<string, MetaValue>,
    jobId: Option<string>)

  /** A record as the schema creates it: the defaults for status, retryCount and metadata, no optional field set. */
  function NewRecord(planId: nat, creditId: string, borrowerId: string, stage: Phase, day: int,
                     channel: Channel, messageTemplate: string, messageContent: string, scheduledFor: int): (r: Record)
    ensures r.status == Scheduled && r.retryCount == 0 && r.metadata == map[]
    ensures r.sentAt.None? && r.failReason.None? && r.jobId.None?
    ensures r.planId == planId && r.creditId == creditId && r.borrowerId == borrowerId && r.stage == stage
    ensures r.day == day && r.channel == channel && r.messageTemplate == messageTemplate
    ensures r.messageContent == messageContent && r.scheduledFor == scheduledFor
  {
    Record(planId, creditId, borrowerId, stage, day, channel, messageTemplate, messageContent,
           scheduledFor, None, Scheduled, None, 0, map[], None)
  }

  /** The schema's "required" check on the string fields: an empty string is rejected. */
  predicate RecordRequiredPresent(r: Record) {
    r.creditId != "" && r.borrowerId != "" && r.messageTemplate != "" && r.messageContent != ""
  }

  /** A truthy job id: present and not empty. */
  predicate HasJob(r: Record) {
    r.jobId.Some? && r.jobId.value != ""
  }

  /** A notification plan: one per credit, driving the schedule. */
  datatype Plan = Plan(
    creditId: string,
    borrowerId: string,
    dueDate: int,
    amount: int,
    currency: string,
    status: PlanStatus,
    creditStatus: CreditStatus,
    lastCheckDate: int)

  /** A plan as the schema creates it at time now: status active, credit status ACTIVE, last checked now. */
  function NewPlan(creditId: string, borrowerId: string, dueDate: int, amount: int, currency: string, now: int): (p: Plan)
    ensures p.status == Active && p.creditStatus == CreditActive && p.lastCheckDate == now
    ensures p.creditId == creditId && p.borrowerId == borrowerId && p.dueDate == dueDate
    ensures p.amount == amount && p.currency == currency
  {
    Plan(creditId, borrowerId, dueDate, amount, currency, Active, CreditActive, now)
  }

  /** The schema default for currency when none is given. */
  const DefaultCurrency: string := "EUR"
}
