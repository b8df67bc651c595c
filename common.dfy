/** Value types shared by the scheduler, the alert list, the API handlers and the forms. */
module Common {

  datatype Option<+T> = None | Some(value: T)

  datatype Result<+T, +E> = Ok(value: T) | Err(error: E)

  /** The `priority` column of alerts and scheduled alerts. */
  datatype Priority = Low | Medium | High

  function PriorityName(p: Priority): string
  {
    match p
    case Low => "low"
    case Medium => "medium"
    case High => "high"
  }

  /** The enum check `z.enum(['low', 'medium', 'high'])`: exact string equality. */
  function ParsePriority(s: string): (r: Option<Priority>)
    ensures r.Some? ==> PriorityName(r.value) == s
    ensures r.None? ==> s != "low" && s != "medium" && s != "high"
  {
    if s == "low" then Some(Low)
    else if s == "medium" then Some(Medium)
    else if s == "high" then Some(High)
    else None
  }

  lemma PriorityNameRoundTrip(p: Priority)
    ensures ParsePriority(PriorityName(p)) == Some(p)
  {
  }

  /** Recurrence of a scheduled alert. */
  datatype Frequency = Daily | Weekly | Monthly

  function FrequencyName(f: Frequency): string
  {
    match f
    case Daily => "daily"
    case Weekly => "weekly"
    case Monthly => "monthly"
  }

  function ParseFrequency(s: string): (r: Option<Frequency>)
    ensures r.Some? ==> FrequencyName(r.value) == s
    ensures r.None? ==> s != "daily" && s != "weekly" && s != "monthly"
  {
    if s == "daily" then Some(Daily)
    else if s == "weekly" then Some(Weekly)
    else if s == "monthly" then Some(Monthly)
    else None
  }

  /** The `status` column of a scheduled alert. */
  datatype Status = Pending | Completed | Failed

  function StatusName(s: Status): string
  {
    match s
    case Pending => "pending"
    case Completed => "completed"
    case Failed => "failed"
  }

  /** The columns of a new row of the `alerts` table; the store assigns `id` and `created_at`. */
  datatype AlertFields = AlertFields(title: string, content: string, priority: Priority, zoneId: Option<string>)

  /** A row of the `alerts` table as the store returns it. */
  datatype Alert = Alert(id: string, fields: AlertFields, createdAt: int)
}
