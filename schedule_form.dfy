/** The schedule-alert form: its fields, the schema it checks on submit, the row it inserts
    and the reset after a successful insert. */
module ScheduleForm {
  import opened Common
  import opened Json

  /** The form's state. `priority` and `frequency` hold the selected option's text, and the
      form has no zone field. */
  datatype FormData = FormData(
    title: string,
    content: string,
    priority: string,
    scheduleDate: string,
    recurring: bool,
    frequency: string)

  const InitialForm := FormData("", "", "medium", "", false, "daily")

  /** The row `handleSubmit` inserts into `scheduled_alerts`: the validated fields and a
      pending status. The frequency is sent whether or not the alert recurs. */
  datatype ScheduledInsert = ScheduledInsert(
    title: string,
    content: string,
    priority: Priority,
    scheduleDate: string,
    recurring: bool,
    frequency: Frequency,
    status: Status)

  /** The object handed to the store: `{ ...validatedData, status: 'pending' }`. The spread
      keeps the schema's own key names, and the form has no `zone_id`. */
  function EncodeInsert(r: ScheduledInsert): Value
  {
    Object(map[
      "title" := Str(r.title),
      "content" := Str(r.content),
      "priority" := Str(PriorityName(r.priority)),
      "scheduleDate" := Str(r.scheduleDate),
      "recurring" := Bool(r.recurring),
      "frequency" := Str(FrequencyName(r.frequency)),
      "status" := Str(StatusName(r.status))])
  }

  /** The schedule schema on the form: non-empty title, content and date, and a priority and
      frequency from their enums. */
  predicate ValidForm(f: FormData)
  {
    && f.title != "" && f.content != "" && f.scheduleDate != ""
    && ParsePriority(f.priority).Some?
    && ParseFrequency(f.frequency).Some?
  }

  /** `scheduleSchema.parse(formData)` followed by `{ ...validatedData, status: 'pending' }`. */
  function Validate(f: FormData): (r: Option<ScheduledInsert>)
    ensures r.Some? <==> ValidForm(f)
    ensures r.Some? ==>
      && r.value.title == f.title && r.value.content == f.content
      && PriorityName(r.value.priority) == f.priority
      && r.value.scheduleDate == f.scheduleDate
      && r.value.recurring == f.recurring
      && FrequencyName(r.value.frequency) == f.frequency
      && r.value.status == Pending
  {
    if !ValidForm(f) then None
    else Some(ScheduledInsert(f.title, f.content, ParsePriority(f.priority).value, f.scheduleDate,
                              f.recurring, ParseFrequency(f.frequency).value, Pending))
  }

  /** The form state that shows a given row. */
  function FormOf(s: ScheduledInsert): FormData
  {
    FormData(s.title, s.content, PriorityName(s.priority), s.scheduleDate, s.recurring, FrequencyName(s.frequency))
  }

  /** A pending row with non-empty texts is what the form sends when it shows that row. */
  lemma ValidateFormOf(s: ScheduledInsert)
    requires s.title != "" && s.content != "" && s.scheduleDate != "" && s.status == Pending
    ensures Validate(FormOf(s)) == Some(s)
  {
    PriorityNameRoundTrip(s.priority);
    assert ParseFrequency(FrequencyName(s.frequency)) == Some(s.frequency) by {
      match s.frequency
      case Daily =>
      case Weekly =>
      case Monthly =>
    }
  }

  /** The reset form cannot be submitted as it is, and filling in the three texts is
      enough to make it valid (its selects start on valid options). */
  lemma InitialFormNeedsTexts(title: string, content: string, date: string)
    ensures !ValidForm(InitialForm)
    ensures ValidForm(InitialForm.(title := title, content := content, scheduleDate := date))
      <==> title != "" && content != "" && date != ""
  {
  }

  /** The object a valid form inserts carries each of the form's values under the form's
      own key, and a `pending` status. */
  lemma InsertCarriesForm(f: FormData)
    requires ValidForm(f)
    ensures var v := EncodeInsert(Validate(f).value);
      && v.Object?
      && v.fields.Keys == {"title", "content", "priority", "scheduleDate", "recurring", "frequency", "status"}
      && v.fields["title"] == Str(f.title) && v.fields["content"] == Str(f.content)
      && v.fields["priority"] == Str(f.priority) && v.fields["frequency"] == Str(f.frequency)
      && v.fields["scheduleDate"] == Str(f.scheduleDate) && v.fields["recurring"] == Bool(f.recurring)
      && v.fields["status"] == Str("pending")
  {
  }

  /** The object a valid form inserts names the date `scheduleDate`, not `schedule_date`,
      the column the scheduler filters and orders by. */
  lemma InsertUsesCamelCaseDate(f: FormData)
    requires ValidForm(f)
    ensures var v := EncodeInsert(Validate(f).value);
      v.Object? && "scheduleDate" in v.fields && "schedule_date" !in v.fields
  {
  }

  datatype Toast = ErrorToast(message: string) | SuccessToast(message: string)

  class ScheduleFormState {
    var form: FormData

    constructor ()
      ensures form == InitialForm
    {
      form := InitialForm;
    }

    /** A change of any input replaces the form's state. */
    method SetForm(f: FormData)
      modifies this
      ensures form == f
    {
      form := f;
    }

    /** `handleSubmit`. `sent` is the row handed to the store, if the schema accepted the
        form; `insertFails` is whether the store answers with an error. The form is reset
        only after a successful insert. */
    method HandleSubmit(insertFails: bool) returns (sent: Option<ScheduledInsert>, toast: Toast)
      modifies this
      ensures sent == Validate(old(form))
      ensures sent.Some? && !insertFails ==> form == InitialForm && toast == SuccessToast("Alert scheduled successfully")
      ensures sent.None? || insertFails ==> form == old(form) && toast == ErrorToast("Failed to schedule alert")
    {
      sent := Validate(form);
      if sent.None? || insertFails {
        toast := ErrorToast("Failed to schedule alert");
        return;
      }
      toast := SuccessToast("Alert scheduled successfully");
      form := InitialForm;
    }
  }
}
